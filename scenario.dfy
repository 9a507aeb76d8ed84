/**
 * The scenario aggregate: reading a scenario from a configuration value, in a
 * fixed order of lookups, and rejecting duplicate network and system names.
 */
module Scenarios {
  import opened Wrappers
  import opened TomlValue
  import opened Networks
  import opened Systems

  datatype Scenario = Scenario(name: string, networks: seq<Network>, systems: seq<System>)

  const ErrNoScenario := "Could not get scenario from configuration"
  const ErrNoName := "Could not read name of scenario from configuration"
  const ErrNameNotString := "Could not read name of scenario as a string"
  const ErrNoNetworks := "Could not read networks from configuration"
  const ErrNoSystems := "Could not get systems from configuration"

  // ---------------------------------------------------------------------------
  // Name uniqueness

  /** No name occurs twice. */
  ghost predicate NamesDistinct(names: seq<string>) {
    forall i, j :: 0 <= i < j < |names| ==> names[i] != names[j]
  }

  /** The name of each entity, in order. */
  function Names<T>(entities: seq<T>, name: T -> string): (names: seq<string>)
    ensures |names| == |entities|
    ensures forall i :: 0 <= i < |entities| ==> names[i] == name(entities[i])
  {
    seq(|entities|, i requires 0 <= i < |entities| => name(entities[i]))
  }

  function NetworkNames(networks: seq<Network>): seq<string> {
    Names(networks, (n: Network) => n.name)
  }

  function SystemNames(systems: seq<System>): seq<string> {
    Names(systems, (s: System) => s.name)
  }

  /**
   * The fold of the names into a count map: each name seen is a key, and its
   * count is the number of times it occurs.
   */
  function CountNames(names: seq<string>): (counts: map<string, nat>)
    ensures forall n :: n in counts <==> n in names
    ensures forall n :: n in counts ==> counts[n] == multiset(names)[n]
  {
    if names == [] then map[]
    else
      var acc := CountNames(names[..|names| - 1]);
      var n := names[|names| - 1];
      assert names == names[..|names| - 1] + [n];
      acc[n := if n in acc then acc[n] + 1 else 1]
  }

  /** A counted name whose count is not 1. */
  predicate Repeated(counts: map<string, nat>, n: string) {
    n in counts && counts[n] != 1
  }

  /**
   * The first name, in the order `visit`, whose count is not 1: the
   * `filter_map` over the count map followed by `nth(0)`.
   */
  function FirstDuplicate(counts: map<string, nat>, visit: seq<string>): (r: Option<string>)
    ensures r.Some? ==> exists k :: 0 <= k < |visit| && visit[k] == r.value && Repeated(counts, r.value)
                                    && forall j :: 0 <= j < k ==> !Repeated(counts, visit[j])
    ensures r.None? ==> forall n :: n in visit && n in counts ==> counts[n] == 1
  {
    if visit == [] then None
    else if Repeated(counts, visit[0]) then Some(visit[0])
    else
      var r := FirstDuplicate(counts, visit[1..]);
      if r.Some? then
        var k :| 0 <= k < |visit[1..]| && visit[1..][k] == r.value && Repeated(counts, r.value)
                 && forall j :: 0 <= j < k ==> !Repeated(counts, visit[1..][j]);
        assert visit[k + 1] == r.value;
        assert forall j :: 0 <= j < k + 1 ==> !Repeated(counts, visit[j]) by {
          forall j | 0 <= j < k + 1 ensures !Repeated(counts, visit[j]) {
            if j > 0 { assert visit[j] == visit[1..][j - 1]; }
          }
        }
        r
      else r
  }

  /** Names are distinct exactly when each occurs at most once. */
  lemma {:induction false} DistinctIffCountsAtMostOne(names: seq<string>)
    ensures NamesDistinct(names) <==> forall n :: multiset(names)[n] <= 1
  {
    if NamesDistinct(names) {
      DistinctNamesOccurOnce(names);
    } else {
      var i, j :| 0 <= i < j < |names| && names[i] == names[j];
      RepeatedNameOccursTwice(names, i, j);
    }
  }

  /** A list without repeats holds every name at most once. */
  lemma {:induction false} DistinctNamesOccurOnce(names: seq<string>)
    requires NamesDistinct(names)
    ensures forall n :: multiset(names)[n] <= 1
  {
    if names != [] {
      var init, last := names[..|names| - 1], names[|names| - 1];
      assert names == init + [last];
      assert NamesDistinct(init);
      DistinctNamesOccurOnce(init);
      assert last !in init;
      forall n ensures multiset(names)[n] <= 1 {
        assert multiset(names) == multiset(init) + multiset{last};
      }
    }
  }

  /** A name at two positions occurs at least twice. */
  lemma RepeatedNameOccursTwice(names: seq<string>, i: nat, j: nat)
    requires i < j < |names| && names[i] == names[j]
    ensures multiset(names)[names[i]] >= 2
  {
    var n := names[i];
    assert names[..j + 1] == names[..j] + [names[j]];
    assert names == names[..j + 1] + names[j + 1..];
    assert names[i] in names[..j];
    assert multiset(names) == multiset(names[..j]) + multiset{n} + multiset(names[j + 1..]);
  }

  /** Which entities a uniqueness message is about. */
  datatype EntityKind = NetworkEntity | SystemEntity

  /** The text around the duplicated name in a uniqueness error. */
  function MessageAround(kind: EntityKind): (string, string) {
    match kind
    case NetworkEntity => ("Multiple networks parsed with name \"", "\". Network names must be unique.")
    case SystemEntity => ("Multiple systems parsed with name \"", "\". System names must be unique.")
  }

  /** The error text naming the duplicated name `n`. */
  function DuplicateMessage(kind: EntityKind, n: string): string {
    MessageAround(kind).0 + n + MessageAround(kind).1
  }

  /**
   * The shared body of the two uniqueness checks. `hashOrder` stands for the
   * unspecified iteration order of the hash map: keys it lists are visited in
   * that order, and keys it does not list after it, in the order of `names`.
   */
  function CheckNamesUnique(names: seq<string>, hashOrder: seq<string>, kind: EntityKind): (r: Result<(), string>)
    ensures r.Ok? <==> NamesDistinct(names)
    ensures r.Err? ==> exists n :: r.error == DuplicateMessage(kind, n) && multiset(names)[n] >= 2
  {
    var counts := CountNames(names);
    var first := FirstDuplicate(counts, hashOrder + names);
    DistinctIffCountsAtMostOne(names);
    if first.None? then
      assert forall n :: multiset(names)[n] <= 1 by {
        forall n ensures multiset(names)[n] <= 1 {
          if n in names { assert n in hashOrder + names; }
        }
      }
      Ok(())
    else
      Err(DuplicateMessage(kind, first.value))
  }

  /** The network-name check: fails naming a network name that occurs more than once. */
  function AreNetworkNamesUnique(networks: seq<Network>, hashOrder: seq<string>): (r: Result<(), string>)
    ensures r.Ok? <==> NamesDistinct(NetworkNames(networks))
    ensures r.Err? ==> exists n :: r.error == DuplicateMessage(NetworkEntity, n)
                                   && multiset(NetworkNames(networks))[n] >= 2
  {
    CheckNamesUnique(NetworkNames(networks), hashOrder, NetworkEntity)
  }

  /** The system-name check: fails naming a system name that occurs more than once. */
  function AreSystemNamesUnique(systems: seq<System>, hashOrder: seq<string>): (r: Result<(), string>)
    ensures r.Ok? <==> NamesDistinct(SystemNames(systems))
    ensures r.Err? ==> exists n :: r.error == DuplicateMessage(SystemEntity, n)
                                   && multiset(SystemNames(systems))[n] >= 2
  {
    CheckNamesUnique(SystemNames(systems), hashOrder, SystemEntity)
  }

  /**
   * Which duplicate is reported depends on the hash map's order only: for
   * every duplicated name there is an order in which it is the one reported.
   */
  lemma EveryDuplicateCanBeReported(names: seq<string>, n: string, kind: EntityKind)
    requires multiset(names)[n] >= 2
    ensures CheckNamesUnique(names, [n], kind) == Err(DuplicateMessage(kind, n))
  {
    assert n in names;
    assert ([n] + names)[0] == n;
  }

  /** A uniqueness message names exactly one name. */
  lemma {:induction false} DuplicateMessageNamesOneName(kind: EntityKind, n1: string, n2: string)
    requires DuplicateMessage(kind, n1) == DuplicateMessage(kind, n2)
    ensures n1 == n2
  {
    var (prefix, suffix) := MessageAround(kind);
    var m1, m2 := prefix + n1 + suffix, prefix + n2 + suffix;
    assert |n1| == |n2|;
    forall i | 0 <= i < |n1| ensures n1[i] == n2[i] {
      assert m1[|prefix| + i] == n1[i];
      assert m2[|prefix| + i] == n2[i];
    }
  }

  // ---------------------------------------------------------------------------
  // Reading a scenario

  /**
   * Collecting an iterator of results: the parsed items in order, or the
   * error of the first item that fails (later items are not looked at).
   */
  function ParseAll<T>(items: seq<Value>, parse: Value -> Result<T, string>): (r: Result<seq<T>, string>)
    ensures r.Ok? <==> forall i :: 0 <= i < |items| ==> parse(items[i]).Ok?
    ensures r.Ok? ==> |r.value| == |items| && forall i :: 0 <= i < |items| ==> parse(items[i]) == Ok(r.value[i])
    ensures r.Err? ==> exists k :: 0 <= k < |items| && parse(items[k]) == Err(r.error)
                                   && forall i :: 0 <= i < k ==> parse(items[i]).Ok?
  {
    if items == [] then Ok([])
    else
      match parse(items[0])
      case Err(e) => Err(e)
      case Ok(x) =>
        match ParseAll(items[1..], parse)
        case Err(e) =>
          assert exists k :: 0 <= k < |items[1..]| && parse(items[1..][k]) == Err(e)
                             && forall i :: 0 <= i < k ==> parse(items[1..][i]).Ok?;
          var k :| 0 <= k < |items[1..]| && parse(items[1..][k]) == Err(e)
                   && forall i :: 0 <= i < k ==> parse(items[1..][i]).Ok?;
          assert parse(items[k + 1]) == Err(e);
          assert forall i :: 0 <= i < k + 1 ==> parse(items[i]).Ok? by {
            forall i | 0 <= i < k + 1 ensures parse(items[i]).Ok? {
              if i > 0 { assert items[i] == items[1..][i - 1]; }
            }
          }
          Err(e)
        case Ok(xs) =>
          assert forall i :: 0 <= i < |items| ==> parse(items[i]) == Ok(([x] + xs)[i]) by {
            forall i | 0 <= i < |items| ensures parse(items[i]) == Ok(([x] + xs)[i]) {
              if i > 0 { assert items[i] == items[1..][i - 1]; }
            }
          }
          Ok([x] + xs)
  }

  /** The scenario's name, when the `scenario` table has a string `name`. */
  function ScenarioName(config: Value): Option<string> {
    match config.Get("scenario")
    case None => None
    case Some(table) =>
      match table.Get("name")
      case None => None
      case Some(nameValue) => nameValue.AsStr()
  }

  /** The networks, when the `networks` array is present and every entry builds. */
  function ParsedNetworks(config: Value, parseNetwork: Value -> Result<Network, string>): Option<seq<Network>> {
    match config.GetArray("networks")
    case None => None
    case Some(items) =>
      match ParseAll(items, parseNetwork)
      case Err(_) => None
      case Ok(networks) => Some(networks)
  }

  /** The systems, when the `systems` array is present and every entry builds. */
  function ParsedSystems(config: Value, parseSystem: Value -> Result<System, string>): Option<seq<System>> {
    match config.GetArray("systems")
    case None => None
    case Some(items) =>
      match ParseAll(items, parseSystem)
      case Err(_) => None
      case Ok(systems) => Some(systems)
  }

  /**
   * Reads a scenario: its name, then every network, then the network-name
   * check, then every system, then the system-name check. The first step
   * that fails decides the error; in particular duplicate network names are
   * reported before the `systems` entry is looked at. Building a single
   * network or system is delegated to `parseNetwork` and `parseSystem`;
   * `networkOrder` and `systemOrder` stand for the hash maps' iteration orders.
   */
  method FromToml(config: Value,
                  parseNetwork: Value -> Result<Network, string>,
                  parseSystem: Value -> Result<System, string>,
                  networkOrder: seq<string>,
                  systemOrder: seq<string>)
    returns (r: Result<Scenario, string>)
    // 1-3: the scenario's name
    ensures config.Get("scenario").None? ==> r == Err(ErrNoScenario)
    ensures config.Get("scenario").Some? && config.Get("scenario").value.Get("name").None? ==>
              r == Err(ErrNoName)
    ensures config.Get("scenario").Some? && config.Get("scenario").value.Get("name").Some?
            && config.Get("scenario").value.Get("name").value.AsStr().None? ==>
              r == Err(ErrNameNotString)
    // 4-5: the networks, once the name is read
    ensures ScenarioName(config).Some? && config.GetArray("networks").None? ==>
              r == Err(ErrNoNetworks)
    ensures ScenarioName(config).Some? && config.GetArray("networks").Some?
            && ParseAll(config.GetArray("networks").value, parseNetwork).Err? ==>
              r == Err(ParseAll(config.GetArray("networks").value, parseNetwork).error)
    ensures ScenarioName(config).Some? && ParsedNetworks(config, parseNetwork).Some?
            && !NamesDistinct(NetworkNames(ParsedNetworks(config, parseNetwork).value)) ==>
              r == Err(AreNetworkNamesUnique(ParsedNetworks(config, parseNetwork).value, networkOrder).error)
    // 6-7: the systems, once the networks are accepted
    ensures ScenarioName(config).Some? && ParsedNetworks(config, parseNetwork).Some?
            && NamesDistinct(NetworkNames(ParsedNetworks(config, parseNetwork).value))
            && config.GetArray("systems").None? ==>
              r == Err(ErrNoSystems)
    ensures ScenarioName(config).Some? && ParsedNetworks(config, parseNetwork).Some?
            && NamesDistinct(NetworkNames(ParsedNetworks(config, parseNetwork).value))
            && config.GetArray("systems").Some? && ParseAll(config.GetArray("systems").value, parseSystem).Err? ==>
              r == Err(ParseAll(config.GetArray("systems").value, parseSystem).error)
    ensures ScenarioName(config).Some? && ParsedNetworks(config, parseNetwork).Some?
            && NamesDistinct(NetworkNames(ParsedNetworks(config, parseNetwork).value))
            && ParsedSystems(config, parseSystem).Some?
            && !NamesDistinct(SystemNames(ParsedSystems(config, parseSystem).value)) ==>
              r == Err(AreSystemNamesUnique(ParsedSystems(config, parseSystem).value, systemOrder).error)
    // success
    ensures r.Ok? <==>
              && ScenarioName(config).Some?
              && ParsedNetworks(config, parseNetwork).Some?
              && NamesDistinct(NetworkNames(ParsedNetworks(config, parseNetwork).value))
              && ParsedSystems(config, parseSystem).Some?
              && NamesDistinct(SystemNames(ParsedSystems(config, parseSystem).value))
    ensures r.Ok? ==> r.value == Scenario(ScenarioName(config).value,
                                          ParsedNetworks(config, parseNetwork).value,
                                          ParsedSystems(config, parseSystem).value)
    ensures r.Ok? ==> var items := config.GetArray("networks").value;
              |r.value.networks| == |items|
              && forall i :: 0 <= i < |items| ==> parseNetwork(items[i]) == Ok(r.value.networks[i])
    ensures r.Ok? ==> var items := config.GetArray("systems").value;
              |r.value.systems| == |items|
              && forall i :: 0 <= i < |items| ==> parseSystem(items[i]) == Ok(r.value.systems[i])
  {
    var scenario := Scenario("", [], []);

    var table := config.Get("scenario");
    if table.None? { return Err(ErrNoScenario); }
    var nameValue := table.value.Get("name");
    if nameValue.None? { return Err(ErrNoName); }
    var name := nameValue.value.AsStr();
    if name.None? { return Err(ErrNameNotString); }
    scenario := scenario.(name := name.value);

    var networkItems := config.GetArray("networks");
    if networkItems.None? { return Err(ErrNoNetworks); }
    var networks := ParseAll(networkItems.value, parseNetwork);
    if networks.Err? { return Err(networks.error); }
    scenario := scenario.(networks := scenario.networks + networks.value);
    assert scenario.networks == networks.value;

    var networksUnique := AreNetworkNamesUnique(scenario.networks, networkOrder);
    if networksUnique.Err? { return Err(networksUnique.error); }

    var systemItems := config.GetArray("systems");
    if systemItems.None? { return Err(ErrNoSystems); }
    var systems := ParseAll(systemItems.value, parseSystem);
    if systems.Err? { return Err(systems.error); }
    scenario := scenario.(systems := scenario.systems + systems.value);
    assert scenario.systems == systems.value;

    var systemsUnique := AreSystemNamesUnique(scenario.systems, systemOrder);
    if systemsUnique.Err? { return Err(systemsUnique.error); }

    return Ok(scenario);
  }
}
