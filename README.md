# LabBuilder scenario core, modelled in Dafny

LabBuilder reads a lab *scenario* from a TOML document. A scenario has a name, a list of
networks (public or internal) and a list of systems (virtual machines), and LabBuilder
renders it as a Vagrantfile. This project models the scenario core and proves properties of it:

- **Reading a scenario** (`Scenario::from_toml`) is the method `Scenarios.FromToml`. It looks things up
  in a fixed order: `scenario`, then `scenario.name` as a string, then the `networks` array with each
  entry built, then the network-name uniqueness check, then the `systems` array with each entry built,
  then the system-name uniqueness check. The first step that fails decides the error, with the same
  messages as the source. Collecting a sequence of per-entry results is the function `Scenarios.ParseAll`.
- **The uniqueness checks** (`are_network_names_unique`, `are_system_names_unique`) count each name
  in a map (`CountNames`) and report the first name with a count other than 1 (`FirstDuplicate`).
  The hash map's iteration order is a parameter. The checks are proved to succeed exactly when the
  names are pairwise distinct. When they fail, the message names a duplicated name.
- **The indentation-aware string builder** is the class
  `IndentationBuilder.IndentationAwareStringBuilder`. It has the source's four fields: indentation type,
  optional tab size, level, and line buffer. Its methods update those fields in place.
- **Rendering the Vagrantfile** (`to_vagrantfile`) is the method `Vagrantfile.ToVagrantfile`. It drives
  the builder class through the same loops as the source: systems, then their network references, then
  the leases on an internal network. It is proved to return the lines given by the specification
  function `Vagrantfile.VagrantfileLines`, joined with newlines. Lemmas about that function state:
  - the file frame;
  - the shape of each system block and where it sits in the file;
  - the lines each network reference contributes;
  - that splitting the output at newlines gives the lines back.

  The expected output of the repository's own two-system test is derived as a lemma.

Modules, one per file: `Wrappers` (Option, Result), `TomlValue` (the configuration value and its
accessors), `Networks`, `Systems`, `Text` (repeat, join, split), `IndentationBuilder`, `Scenarios`,
`Vagrantfile`, `VagrantfileExample`.

Parameters of the model:

- **`parseNetwork` and `parseSystem`.** Building one network or one system from its TOML table is done
  by code outside the core (`Network::from_toml` and `System::from_toml`, which are not part of this
  model). They are function parameters of `FromToml`.
- **`fold`.** `case_fold` from the `unicode_casefold` crate is the parameter `fold` of the rendering
  functions.
- **`hashOrder`.** Iterating a `HashMap` visits keys in an unspecified order. The uniqueness checks visit
  the keys listed in `hashOrder` first, in that order, and then the remaining names in list order.
  Every visiting order of the keys can be expressed this way.

Notes on the source:

- **Which duplicate is reported.** The code iterates a `HashMap`, whose order is unspecified. The model
  leaves the order as the parameter `hashOrder`, and `EveryDuplicateCanBeReported` shows that any
  duplicated name can be the one reported.
- **Leases per network reference.** `to_vagrantfile` loops over every network reference of a system, and
  for an internal one it emits every address leased on that network. A system that lists the same
  internal network k times therefore gets k copies of each lease line. The model does the same.
- **Fields outside `network.rs` and `system.rs`.** `src/lib/system.rs` declares no
  `leased_network_addresses` field, and `src/lib/network.rs` declares a non-optional subnet. Yet
  `scenario.rs` reads `system.leased_network_addresses` and unwraps `subnet` in its tests. The model
  follows `scenario.rs`:
  - `System` carries a map from network name to leased addresses;
  - the subnet is an optional string.

## Model

| member | source | states |
|---|---|---|
| Scenarios.FromToml | src/lib/scenario.rs:24-69 | each lookup failure, in order, yields its own message (missing `scenario`, missing name, non-string name, missing `networks`, first network error, duplicate networks, missing `systems`, first system error, duplicate systems); success holds exactly when every step succeeds, and then the scenario holds the name and the networks and systems built from the array entries, one per entry and in order |
| Scenarios.ParseAll | src/lib/scenario.rs:42-49 | collecting per-entry results succeeds exactly when every entry parses; on success it has one value per entry, in order; on failure the error is that of the first failing entry, with every earlier entry parsing |
| Scenarios.CountNames | src/lib/scenario.rs:72-78 | the count map's keys are exactly the names, and each key maps to the number of times the name occurs |
| Scenarios.FirstDuplicate | src/lib/scenario.rs:80-88 | a result is the first key in the visiting order whose count is not 1 (every key visited before it counts exactly 1); no result means every visited key counts exactly 1 |
| Scenarios.DistinctIffCountsAtMostOne | src/lib/scenario.rs:72-88 | names are pairwise distinct exactly when no name occurs more than once |
| Scenarios.DistinctNamesOccurOnce | src/lib/scenario.rs:72-78 | in a list without repeats every name is counted at most once |
| Scenarios.RepeatedNameOccursTwice | src/lib/scenario.rs:72-78 | a name found at two positions is counted at least twice |
| Scenarios.CheckNamesUnique | src/lib/scenario.rs:71-97 | succeeds exactly when the names are pairwise distinct; on failure the message names a name occurring at least twice |
| Scenarios.AreNetworkNamesUnique | src/lib/scenario.rs:71-97 | succeeds exactly when the network names are distinct; fails with `Multiple networks parsed with name "<n>". Network names must be unique.` for some duplicated network name n |
| Scenarios.AreSystemNamesUnique | src/lib/scenario.rs:99-125 | succeeds exactly when the system names are distinct; fails with `Multiple systems parsed with name "<n>". System names must be unique.` for some duplicated system name n |
| Scenarios.EveryDuplicateCanBeReported | src/lib/scenario.rs:80-94 | for each duplicated name there is a hash-map order in which that name is the one reported |
| Scenarios.DuplicateMessageNamesOneName | src/lib/scenario.rs:90-94 | the uniqueness message determines the name it reports |
| IndentationBuilder.Indentation | src/lib/indentation_aware_string_builder.rs:45-54 | with spaces the prefix is level times the tab size (4 when unset) spaces; with tabs it is level tabs whatever the tab size |
| IndentationBuilder.IndentationAwareStringBuilder.constructor | src/lib/indentation_aware_string_builder.rs:15-22 | a new builder indents with spaces, tab size 4, level 0, no lines |
| IndentationBuilder.IndentationAwareStringBuilder.WithIndentationType | src/lib/indentation_aware_string_builder.rs:24-36 | sets the type and resets the tab size to 4 for spaces and to none for tabs; level and lines unchanged |
| IndentationBuilder.IndentationAwareStringBuilder.WithTabSize | src/lib/indentation_aware_string_builder.rs:38-42 | sets the tab size; everything else unchanged |
| IndentationBuilder.IndentationAwareStringBuilder.Add | src/lib/indentation_aware_string_builder.rs:44-57 | appends exactly one line, the current level's indentation followed by the text; settings and level unchanged |
| IndentationBuilder.IndentationAwareStringBuilder.IncreaseIndentation | src/lib/indentation_aware_string_builder.rs:59-61 | the level goes up by one; nothing else changes |
| IndentationBuilder.IndentationAwareStringBuilder.DecreaseIndentation | src/lib/indentation_aware_string_builder.rs:63-65 | from a positive level, the level goes down by one; nothing else changes |
| IndentationBuilder.IndentationAwareStringBuilder.BuildString | src/lib/indentation_aware_string_builder.rs:67-69 | the output is the buffered lines joined with newlines |
| IndentationBuilder.IncreaseThenDecrease | src/lib/indentation_aware_string_builder.rs:59-65 | an increase followed by a decrease restores the builder |
| Text.Repeat | src/lib/indentation_aware_string_builder.rs:51-53 | `repeat` gives n characters, all equal to the one repeated |
| Text.JoinEmptyOrSingle | src/lib/indentation_aware_string_builder.rs:67-69 | joining no lines gives the empty string, and joining one line gives that line |
| Text.JoinStartsWithFirst | src/lib/indentation_aware_string_builder.rs:67-69 | the joined text starts with the first line, with no separator before it |
| Text.JoinEndsWithLast | src/lib/indentation_aware_string_builder.rs:67-69 | the joined text ends with the last line, with no separator after it |
| Text.JoinAppend | src/lib/indentation_aware_string_builder.rs:67-69 | appending a line to a non-empty list adds one separator and the line to the joined text |
| Text.SplitJoin | src/lib/indentation_aware_string_builder.rs:67-69 | splitting the joined lines at the separator gives the lines back when no line holds it |
| Text.JoinSplit | src/lib/indentation_aware_string_builder.rs:67-69 | joining the pieces of a split gives the text back |
| Vagrantfile.ToVagrantfile | src/lib/scenario.rs:127-170 | the rendered output is the Vagrantfile lines joined with newlines, and rendering never fails |
| Vagrantfile.AddSystemBlocks | src/lib/scenario.rs:136-164 | the loop over systems appends the systems' blocks in order, at indentation level 1 |
| Vagrantfile.AddSystemBlock | src/lib/scenario.rs:137-163 | one iteration appends the system's whole block and returns to level 1 |
| Vagrantfile.AddNetworkLines | src/lib/scenario.rs:146-160 | the loop over a system's network references appends each reference's lines in order |
| Vagrantfile.AddLeaseLines | src/lib/scenario.rs:149-154 | the loop over leases appends one `private_network` line per lease, in lease order |
| Vagrantfile.IndentedColumns | src/lib/scenario.rs:128-131 | with four spaces per level, lines sit at columns 0, 4 and 8 at levels 0, 1 and 2 |
| Vagrantfile.VagrantfileFrame | src/lib/scenario.rs:133-167 | the file opens with the unindented `Vagrant.configure("2")` header line and closes with an unindented `end` |
| Vagrantfile.SystemBlockShape | src/lib/scenario.rs:137-163 | a system block is its `config.vm.define` line at four spaces, its box line at eight, its network lines, and `end` at four |
| Vagrantfile.SystemBlockInFile | src/lib/scenario.rs:136-164 | each system's block follows the header and the blocks of the systems before it |
| Vagrantfile.ReferenceLinesInBlock | src/lib/scenario.rs:146-160 | each internal reference contributes exactly one line per lease, at its offset, each a `private_network` line naming the address and network; each public reference contributes exactly one `public_network` line |
| Vagrantfile.OutputSplitsIntoLines | src/lib/scenario.rs:169 | when no line holds a newline, splitting the output at newlines gives back exactly the lines |
| Vagrantfile.ConcatAt | src/lib/scenario.rs:136-164 | each part sits in the concatenation right after the parts before it |
| Vagrantfile.ConcatExtend | src/lib/scenario.rs:136-164 | appending the next part to a buffer holding a prefix of the parts gives the next prefix |
| VagrantfileExample.SingleLeaseBlock | src/lib/scenario.rs:448-453 | a system with one internal network and one lease renders as exactly four lines: define, box, one `private_network` line, `end` |
| VagrantfileExample.TwoSystemsOnOneInternalNetwork | src/lib/scenario.rs:419-461 | the two-system scenario of the repository's test renders as exactly the test's ten expected lines |

## Left out

- Parsing TOML text is left out. The configuration is the already-parsed value `TomlValue.Value`, with
  only the accessors the core uses (`get`, `as_str`, `as_array`).
- `Network::from_toml` and `System::from_toml` are not part of this model. They are the parameters
  `parseNetwork` and `parseSystem` of `FromToml`.
- `System::configure_networking` is not part of this model. The leases it fills in are a field of
  `System`, and rendering requires every system to have a lease entry for each internal network it
  references (`LeasesCover`, `NetworkingConfigured`).
- Vagrantfile.ToVagrantfile: its `requires NetworkingConfigured` stands for the panic the source hits
  when indexing the lease map with a missing network name. The panic path itself is not modelled.
- IP addresses and subnets are opaque strings. The `ipnet` crate's parsing and formatting are not
  modelled.
- Unicode case folding is the parameter `fold`.
- The iteration order of `HashMap` is the parameter `hashOrder`.
- `Rc` sharing of networks is not modelled: networks are values.
- `src/main.rs` is not modelled. It does no work.
- IndentationBuilder.IndentationAwareStringBuilder.DecreaseIndentation: requires a positive level,
  where the source's `usize` subtraction would panic (or wrap, in a release build).
- IndentationBuilder.IndentationAwareStringBuilder.IncreaseIndentation: the level is an unbounded
  natural, so `usize` overflow is not modelled. The same goes for `level * tab_size` in `Add`.
- IndentationBuilder.IndentationAwareStringBuilder.WithIndentationType: returns nothing. The source
  returns `&mut Self` for chaining, which adds no behaviour.
- IndentationBuilder.IndentationAwareStringBuilder.WithTabSize: likewise returns nothing instead of
  `&mut Self`.
- IndentationBuilder.IndentationAwareStringBuilder.BuildString: leaves the builder usable. In the
  source, `build_string` consumes it.
- VagrantfileExample.TwoSystemsOnOneInternalNetwork: starts from the already-built scenario, not from
  the test's TOML text, and requires that `fold` maps "Desktop" and "Server" to their lower-case forms.
  It writes each expected line as the concatenation of the literal pieces around the inserted
  values.
- The uniqueness error is modelled as a string; the source's boxed error type is left out.
