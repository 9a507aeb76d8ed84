/**
 * Rendering a scenario whose systems have their networking configured as a
 * Vagrantfile: one outer `Vagrant.configure` block, and inside it one
 * `config.vm.define` block per system with its box and network lines.
 */
module Vagrantfile {
  import opened Wrappers
  import opened Text
  import opened Networks
  import opened Systems
  import opened Scenarios
  import opened IndentationBuilder

  const Header := "Vagrant.configure(\"2\") do |config|"
  const End := "end"

  /** A line as the builder emits it at `level`, indenting by four spaces per level. */
  function Indented(level: nat, text: string): string {
    Indentation(Spaces, Some(DefaultTabSize), level) + text
  }

  // The fixed text around the values in each emitted line.
  const DefineOpen := "config.vm.define \""
  const DefineMiddle := "\" do |"
  const DefineClose := "|"
  const BoxMiddle := ".vm.box = \""
  const Quote := "\""
  const PrivateMiddle := ".vm.network \"private_network\", ip: \""
  const IntnetMiddle := "\", virtualbox__intnet: \""
  const PublicTail := ".vm.network \"public_network\""

  /** `config.vm.define "<name>" do |<folded name>|` */
  function DefineLine(system: System, fold: string -> string): string {
    DefineOpen + system.name + DefineMiddle + fold(system.name) + DefineClose
  }

  /** `<name>.vm.box = "<box>"` */
  function BoxLine(system: System): string {
    system.name + BoxMiddle + system.baseBox + Quote
  }

  /** `<name>.vm.network "private_network", ip: "<address>", virtualbox__intnet: "<network>"` */
  function PrivateNetworkLine(systemName: string, lease: string, networkName: string): string {
    systemName + PrivateMiddle + lease + IntnetMiddle + networkName + Quote
  }

  /** `<name>.vm.network "public_network"` */
  function PublicNetworkLine(systemName: string): string {
    systemName + PublicTail
  }

  /** The parts one after the other. */
  function Concat<T>(parts: seq<seq<T>>): seq<T> {
    if parts == [] then [] else Concat(parts[..|parts| - 1]) + parts[|parts| - 1]
  }

  /** Part `i` sits in the concatenation right after the parts before it. */
  lemma {:induction false} ConcatAt<T>(parts: seq<seq<T>>, i: nat)
    requires i < |parts|
    ensures var offset := |Concat(parts[..i])|;
            offset + |parts[i]| <= |Concat(parts)| && Concat(parts)[offset..offset + |parts[i]|] == parts[i]
  {
    var n := |parts| - 1;
    if i == n {
      assert parts[..n] == parts[..i];
    } else {
      ConcatAt(parts[..n], i);
      assert parts[..n][..i] == parts[..i];
      assert parts[..n][i] == parts[i];
    }
  }

  /** The same, with one element before and one after the concatenation. */
  lemma ConcatAtBetween<T>(first: T, parts: seq<seq<T>>, last: T, i: nat)
    requires i < |parts|
    ensures var all := [first] + Concat(parts) + [last];
            var offset := 1 + |Concat(parts[..i])|;
            offset + |parts[i]| < |all| && all[offset..offset + |parts[i]|] == parts[i]
  {
    ConcatAt(parts, i);
    var offset := |Concat(parts[..i])|;
    var all := [first] + Concat(parts) + [last];
    assert all[1 + offset..1 + offset + |parts[i]|] == Concat(parts)[offset..offset + |parts[i]|];
  }

  /** Extending a prefix of the parts by one part. */
  lemma ConcatPrefix<T>(parts: seq<seq<T>>, i: nat)
    requires i < |parts|
    ensures Concat(parts[..i + 1]) == Concat(parts[..i]) + parts[i]
  {
    assert parts[..i + 1][..i] == parts[..i];
  }

  /** A buffer holding some prefix of the parts, once the next part is appended. */
  lemma ConcatExtend<T>(before: seq<T>, parts: seq<seq<T>>, i: nat, after: seq<T>)
    requires i < |parts|
    requires after == (before + Concat(parts[..i])) + parts[i]
    ensures after == before + Concat(parts[..i + 1])
  {
    ConcatPrefix(parts, i);
  }

  /** An internal network's lines: one per address leased on it, in lease order. */
  function LeaseLines(systemName: string, leases: seq<string>, networkName: string): seq<string> {
    seq(|leases|, k requires 0 <= k < |leases| => Indented(2, PrivateNetworkLine(systemName, leases[k], networkName)))
  }

  /** The lines one network reference of a system contributes. */
  function ReferenceLines(system: System, net: Network): seq<string>
    requires net.networkType == Internal ==> net.name in system.leasedNetworkAddresses
  {
    match net.networkType
    case Internal => LeaseLines(system.name, system.leasedNetworkAddresses[net.name], net.name)
    case Public => [Indented(2, PublicNetworkLine(system.name))]
  }

  /** The lines of each network reference of a system, in declared order. */
  function NetworkParts(system: System): seq<seq<string>>
    requires LeasesCover(system)
  {
    seq(|system.networks|, j requires 0 <= j < |system.networks| => ReferenceLines(system, system.networks[j]))
  }

  /** A system's block: its definition line, its box, its network lines and the closing `end`. */
  function SystemBlock(system: System, fold: string -> string): seq<string>
    requires LeasesCover(system)
  {
    [Indented(1, DefineLine(system, fold)), Indented(2, BoxLine(system))]
    + Concat(NetworkParts(system))
    + [Indented(1, End)]
  }

  /** Every system has a lease entry for each internal network it is attached to. */
  predicate NetworkingConfigured(s: Scenario) {
    forall i :: 0 <= i < |s.systems| ==> LeasesCover(s.systems[i])
  }

  function SystemBlocks(s: Scenario, fold: string -> string): seq<seq<string>>
    requires NetworkingConfigured(s)
  {
    seq(|s.systems|, i requires 0 <= i < |s.systems| => SystemBlock(s.systems[i], fold))
  }

  /** The lines of the Vagrantfile, outermost block first. */
  function VagrantfileLines(s: Scenario, fold: string -> string): seq<string>
    requires NetworkingConfigured(s)
  {
    [Indented(0, Header)] + Concat(SystemBlocks(s, fold)) + [Indented(0, End)]
  }

  /** Four spaces per level: nothing at level 0, four spaces at 1, eight at 2. */
  lemma IndentedColumns(text: string)
    ensures Indented(0, text) == text
    ensures Indented(1, text) == "    " + text
    ensures Indented(2, text) == "        " + text
  {
    assert Indentation(Spaces, Some(DefaultTabSize), 1) == "    ";
    assert Indentation(Spaces, Some(DefaultTabSize), 2) == "        ";
  }

  /** The file opens with the `Vagrant.configure` line and closes with `end`, both at column 0. */
  lemma VagrantfileFrame(s: Scenario, fold: string -> string)
    requires NetworkingConfigured(s)
    ensures var lines := VagrantfileLines(s, fold);
            |lines| >= 2 && lines[0] == "Vagrant.configure(\"2\") do |config|" && lines[|lines| - 1] == "end"
  {
    IndentedColumns(Header);
    IndentedColumns(End);
  }

  /** A system's block: definition at four spaces, box at eight, network lines, `end` at four. */
  lemma SystemBlockShape(system: System, fold: string -> string)
    requires LeasesCover(system)
    ensures var block := SystemBlock(system, fold);
            var count := |Concat(NetworkParts(system))|;
            && |block| == count + 3
            && block[0] == "    " + DefineLine(system, fold)
            && block[1] == "        " + BoxLine(system)
            && block[2..2 + count] == Concat(NetworkParts(system))
            && block[2 + count] == "    end"
  {
    IndentedColumns(DefineLine(system, fold));
    IndentedColumns(BoxLine(system));
    IndentedColumns(End);
  }

  /**
   * System `i`'s block (see SystemBlockShape) follows the header line and the
   * blocks of the systems before it, and is followed by at least the final `end`.
   */
  lemma SystemBlockInFile(s: Scenario, fold: string -> string, i: nat)
    requires NetworkingConfigured(s)
    requires i < |s.systems|
    ensures var lines := VagrantfileLines(s, fold);
            var block := SystemBlock(s.systems[i], fold);
            var offset := 1 + |Concat(SystemBlocks(s, fold)[..i])|;
            && offset + |block| < |lines|
            && lines[offset..offset + |block|] == block
  {
    var blocks := SystemBlocks(s, fold);
    ConcatAtBetween(Indented(0, Header), blocks, Indented(0, End), i);
  }

  /**
   * Network reference `j` of a system contributes, right after the lines of
   * the references before it: for an internal network, one `private_network`
   * line at eight spaces per address leased on it, in lease order, naming the
   * address and the network; for a public network, one `public_network` line.
   */
  lemma ReferenceLinesInBlock(system: System, j: nat)
    requires LeasesCover(system)
    requires j < |system.networks|
    ensures var lines := Concat(NetworkParts(system));
            var net := system.networks[j];
            var offset := |Concat(NetworkParts(system)[..j])|;
            && |NetworkParts(system)[j]|
                 == (if net.networkType == Internal then |system.leasedNetworkAddresses[net.name]| else 1)
            && match net.networkType
            case Internal =>
              var leases := system.leasedNetworkAddresses[net.name];
              && offset + |leases| <= |lines|
              && forall k :: 0 <= k < |leases| ==>
                   lines[offset + k] == "        " + PrivateNetworkLine(system.name, leases[k], net.name)
            case Public =>
              offset < |lines| && lines[offset] == "        " + PublicNetworkLine(system.name)
  {
    var parts := NetworkParts(system);
    var net := system.networks[j];
    assert net in system.networks;
    ConcatAt(parts, j);
    var lines := Concat(parts);
    var offset := |Concat(parts[..j])|;
    match net.networkType
    case Internal =>
      var leases := system.leasedNetworkAddresses[net.name];
      forall k | 0 <= k < |leases|
        ensures lines[offset + k] == "        " + PrivateNetworkLine(system.name, leases[k], net.name)
      {
        assert lines[offset..offset + |parts[j]|][k] == parts[j][k];
        IndentedColumns(PrivateNetworkLine(system.name, leases[k], net.name));
      }
    case Public =>
      assert lines[offset..offset + 1][0] == parts[j][0];
      IndentedColumns(PublicNetworkLine(system.name));
  }

  /** When no emitted line holds a newline, splitting the output at newlines gives the lines back. */
  lemma OutputSplitsIntoLines(s: Scenario, fold: string -> string)
    requires NetworkingConfigured(s)
    requires forall line :: line in VagrantfileLines(s, fold) ==> '\n' !in line
    ensures Split(Join(VagrantfileLines(s, fold), "\n"), '\n') == VagrantfileLines(s, fold)
  {
    var lines := VagrantfileLines(s, fold);
    assert forall i :: 0 <= i < |lines| ==> '\n' !in lines[i] by {
      forall i | 0 <= i < |lines| ensures '\n' !in lines[i] {
        assert lines[i] in lines;
      }
    }
    assert "\n" == ['\n'];
    SplitJoin(lines, '\n');
  }

  /** The builder indents by four spaces per level. */
  predicate FourSpaces(b: IndentationAwareStringBuilder)
    reads b
  {
    b.indentationType == Spaces && b.tabSize == Some(DefaultTabSize)
  }

  /** The innermost loop: one line per lease of an internal network. */
  method AddLeaseLines(b: IndentationAwareStringBuilder, systemName: string, leases: seq<string>, networkName: string)
    requires FourSpaces(b) && b.level == 2
    modifies b
    ensures FourSpaces(b) && b.level == 2
    ensures b.buffer == old(b.buffer) + LeaseLines(systemName, leases, networkName)
  {
    for k := 0 to |leases|
      invariant FourSpaces(b) && b.level == 2
      invariant b.buffer == old(b.buffer) + LeaseLines(systemName, leases[..k], networkName)
    {
      b.Add(PrivateNetworkLine(systemName, leases[k], networkName));
      assert LeaseLines(systemName, leases[..k + 1], networkName)
          == LeaseLines(systemName, leases[..k], networkName)
             + [Indented(2, PrivateNetworkLine(systemName, leases[k], networkName))];
    }
    assert leases[..|leases|] == leases;
  }

  /** The loop over a system's network references. */
  method AddNetworkLines(b: IndentationAwareStringBuilder, system: System)
    requires LeasesCover(system)
    requires FourSpaces(b) && b.level == 2
    modifies b
    ensures FourSpaces(b) && b.level == 2
    ensures b.buffer == old(b.buffer) + Concat(NetworkParts(system))
  {
    ghost var before := b.buffer;
    ghost var parts := NetworkParts(system);
    for j := 0 to |system.networks|
      invariant FourSpaces(b) && b.level == 2
      invariant b.buffer == before + Concat(parts[..j])
    {
      var net := system.networks[j];
      assert net in system.networks;
      match net.networkType {
        case Internal =>
          AddLeaseLines(b, system.name, system.leasedNetworkAddresses[net.name], net.name);
        case Public =>
          b.Add(PublicNetworkLine(system.name));
      }
      ConcatExtend(before, parts, j, b.buffer);
    }
    assert parts[..|parts|] == parts;
  }

  /** The body of the loop over systems: one system's block. */
  method AddSystemBlock(b: IndentationAwareStringBuilder, system: System, fold: string -> string)
    requires LeasesCover(system)
    requires FourSpaces(b) && b.level == 1
    modifies b
    ensures FourSpaces(b) && b.level == 1
    ensures b.buffer == old(b.buffer) + SystemBlock(system, fold)
  {
    ghost var before := b.buffer;
    ghost var opening := [Indented(1, DefineLine(system, fold)), Indented(2, BoxLine(system))];
    b.Add(DefineLine(system, fold));
    b.IncreaseIndentation();
    b.Add(BoxLine(system));
    assert b.buffer == before + opening;
    AddNetworkLines(b, system);
    ghost var networkLines := Concat(NetworkParts(system));
    assert b.buffer == (before + opening) + networkLines;
    b.DecreaseIndentation();
    b.Add(End);
    assert b.buffer == ((before + opening) + networkLines) + [Indented(1, End)];
    assert SystemBlock(system, fold) == (opening + networkLines) + [Indented(1, End)];
  }

  /** The loop over the systems: their blocks, one after the other. */
  method AddSystemBlocks(b: IndentationAwareStringBuilder, s: Scenario, fold: string -> string)
    requires NetworkingConfigured(s)
    requires FourSpaces(b) && b.level == 1
    modifies b
    ensures FourSpaces(b) && b.level == 1
    ensures b.buffer == old(b.buffer) + Concat(SystemBlocks(s, fold))
  {
    ghost var before := b.buffer;
    ghost var blocks := SystemBlocks(s, fold);
    for i := 0 to |s.systems|
      invariant FourSpaces(b) && b.level == 1
      invariant b.buffer == before + Concat(blocks[..i])
    {
      AddSystemBlock(b, s.systems[i], fold);
      ConcatExtend(before, blocks, i, b.buffer);
    }
    assert blocks[..|blocks|] == blocks;
  }

  /**
   * Drives a builder through the systems, their network references and their
   * leases. Case folding of the block variable is the parameter `fold`. Every
   * decrease of the indentation level happens at a positive level, and the
   * level is back to 0 when the last line is added.
   */
  method ToVagrantfile(s: Scenario, fold: string -> string) returns (r: Result<string, string>)
    requires NetworkingConfigured(s)
    ensures r == Ok(Join(VagrantfileLines(s, fold), "\n"))
  {
    var builder := new IndentationAwareStringBuilder();
    builder.WithIndentationType(Spaces);
    builder.WithTabSize(4);

    builder.Add(Header);
    assert builder.buffer == [Indented(0, Header)];
    builder.IncreaseIndentation();
    AddSystemBlocks(builder, s, fold);
    assert builder.buffer == [Indented(0, Header)] + Concat(SystemBlocks(s, fold));
    builder.DecreaseIndentation();
    builder.Add(End);
    assert builder.level == 0;
    assert builder.buffer == VagrantfileLines(s, fold);

    var output := builder.BuildString();
    return Ok(output);
  }
}
