/**
 Profile inheritance: the chain, the merged settings, and where `config show` says
 that each comes from.
 */
module Profiles {
  import opened Prelude

  /** As dumped to JSON. */
  type Value = string

  /** What a profile's table holds under a key: a sub-config's fields that are set, or a value. */
  datatype Entry = Table(fields: map<string, Value>) | Plain(value: Value)

  /** A profile as written, without what it does not set. */
  datatype Profile = Profile(inherit: Option<string>, entries: map<string, Entry>)

  /** The profiles, and the top-level `connection` table. */
  datatype Config = Config(profile: map<string, Profile>, connection: map<string, Value>)

  const SECTIONS: set<string> := {"connection", "scheduler", "resources", "timings", "lsf", "pbs"}

  /** What the configuration's schema lets be. */
  ghost predicate WellTyped(config: Config) {
    forall name <- config.profile, key <- config.profile[name].entries ::
      config.profile[name].entries[key].Table? <==> key in SECTIONS
  }

  // The chain

  datatype ChainError =
    | UnknownProfile(name: string)
    | UnknownParent(child: string, parent: string)
    | Cycle(names: seq<string>)

  /** Each inherits the next. */
  ghost predicate Linked(config: Config, chain: seq<string>) {
    && (forall i :: 0 <= i < |chain| ==> chain[i] in config.profile)
    && (forall i :: 0 <= i < |chain| - 1 ==> config.profile[chain[i]].inherit == Some(chain[i + 1]))
  }

  ghost predicate Distinct(names: seq<string>) {
    forall i, j :: 0 <= i < j < |names| ==> names[i] != names[j]
  }

  /** The profile, what it inherits, and so on to one that inherits nothing. */
  ghost predicate IsChain(config: Config, name: string, chain: seq<string>) {
    && chain != [] && chain[0] == name && Linked(config, chain) && Distinct(chain)
    && config.profile[chain[|chain| - 1]].inherit == None
  }

  /** Following `inherit` from the profile for `k` steps or less reaches one without. */
  predicate Ends(config: Config, name: string, k: nat)
    decreases k
  {
    && name in config.profile
    && match config.profile[name].inherit
       case None => true
       case Some(parent) => k > 0 && Ends(config, parent, k - 1)
  }

  /** Following `inherit` comes to an end. */
  ghost predicate Leads(config: Config, name: string) {
    exists k: nat :: Ends(config, name, k)
  }

  ghost predicate ErrorFits(config: Config, name: string, error: ChainError) {
    match error
    case UnknownProfile(unknown) => unknown == name && name !in config.profile
    case UnknownParent(child, parent) =>
      && parent !in config.profile
      && child in config.profile && config.profile[child].inherit == Some(parent)
    case Cycle(names) =>
      && |names| > 1 && names[0] == name && Linked(config, names) && Distinct(names[..|names| - 1])
      && names[|names| - 1] in names[..|names| - 1]
  }

  /** `inheritance_chain` */
  method InheritanceChain(config: Config, profileName: string) returns (r: Result<seq<string>, ChainError>)
    ensures r.Ok? ==> IsChain(config, profileName, r.value)
    ensures r.Ok? <==> Leads(config, profileName)
    ensures r.Err? ==> ErrorFits(config, profileName, r.error)
  {
    if profileName !in config.profile {
      return Err(UnknownProfile(profileName));
    }
    var chain: seq<string> := [];
    var name := Some(profileName);
    while name.Some?
      invariant Linked(config, chain) && Distinct(chain)
      invariant chain == [] ==> name == Some(profileName)
      invariant chain != [] ==> chain[0] == profileName && config.profile[chain[|chain| - 1]].inherit == name
      decreases |config.profile| - |chain|, name.Some?
    {
      if name.value in chain {
        NeverLeads(config, chain);
        CycleFits(config, chain, name.value);
        return Err(Cycle(chain + [name.value]));
      }
      if name.value !in config.profile {
        NeverLeads(config, chain);
        return Err(UnknownParent(chain[|chain| - 1], name.value));
      }
      OneMore(config, chain, name.value);
      chain := chain + [name.value];
      name := config.profile[name.value].inherit;
    }
    ChainEnds(config, chain);
    assert Ends(config, profileName, |chain| - 1);
    return Ok(chain);
  }

  lemma OneMore(config: Config, chain: seq<string>, name: string)
    requires Linked(config, chain) && Distinct(chain) && name in config.profile && name !in chain
    requires chain != [] ==> config.profile[chain[|chain| - 1]].inherit == Some(name)
    ensures Linked(config, chain + [name]) && Distinct(chain + [name])
    ensures |chain| < |config.profile|
  {
    NoMoreThanThereAre(config, chain + [name]);
  }

  lemma CycleFits(config: Config, chain: seq<string>, again: string)
    requires Fails(config, chain) && Distinct(chain) && again in chain
    requires config.profile[chain[|chain| - 1]].inherit == Some(again)
    ensures ErrorFits(config, chain[0], Cycle(chain + [again]))
  {
    assert (chain + [again])[..|chain|] == chain;
  }

  lemma NoMoreThanThereAre(config: Config, chain: seq<string>)
    requires Distinct(chain) && forall i :: 0 <= i < |chain| ==> chain[i] in config.profile
    ensures |chain| <= |config.profile|
  {
    var names := set name | name in chain;
    Cardinality(chain);
    assert names <= config.profile.Keys;
    Subset(names, config.profile.Keys);
  }

  lemma {:induction false} Cardinality(names: seq<string>)
    requires Distinct(names)
    ensures |(set name | name in names)| == |names|
  {
    if names != [] {
      var front, last := names[..|names| - 1], names[|names| - 1];
      Cardinality(front);
      assert (set name | name in names) == (set name | name in front) + {last};
    }
  }

  lemma {:induction false} Subset(a: set<string>, b: set<string>)
    requires a <= b
    ensures |a| <= |b|
  {
    if a != {} {
      var x :| x in a;
      Subset(a - {x}, b - {x});
    }
  }

  lemma {:induction false} ChainEnds(config: Config, chain: seq<string>)
    requires chain != [] && Linked(config, chain) && config.profile[chain[|chain| - 1]].inherit == None
    ensures Ends(config, chain[0], |chain| - 1)
  {
    if |chain| > 1 {
      assert Linked(config, chain[1..]) by {
        assert forall i :: 0 <= i < |chain| - 1 ==> chain[1..][i] == chain[i + 1];
      }
      ChainEnds(config, chain[1..]);
    }
  }

  /** A chain whose last profile inherits one that there is not, or one of its own. */
  ghost predicate Fails(config: Config, chain: seq<string>) {
    && chain != [] && Linked(config, chain)
    && var last := config.profile[chain[|chain| - 1]].inherit;
       last.Some? && (last.value !in config.profile || last.value in chain)
  }

  lemma NeverLeads(config: Config, chain: seq<string>)
    requires Fails(config, chain)
    ensures !Leads(config, chain[0])
  {
    forall k: nat
      ensures !Ends(config, chain[0], k)
    {
      NeverEnds(config, chain, 0, k);
    }
  }

  lemma {:induction false} NeverEnds(config: Config, chain: seq<string>, i: nat, k: nat)
    requires Fails(config, chain) && i < |chain|
    ensures !Ends(config, chain[i], k)
    decreases k
  {
    var next := config.profile[chain[i]].inherit;
    if i < |chain| - 1 {
      assert next == Some(chain[i + 1]);
    }
    if k > 0 && next.value in config.profile {
      var j :| 0 <= j < |chain| && chain[j] == next.value;
      NeverEnds(config, chain, j, k - 1);
    }
  }

  /** There is no more than one chain. */
  lemma {:induction false} ChainIsUnique(config: Config, name: string, a: seq<string>, b: seq<string>)
    requires IsChain(config, name, a) && IsChain(config, name, b)
    ensures a == b
  {
    SameSoFar(config, a, b, 1);
  }

  lemma {:induction false} SameSoFar(config: Config, a: seq<string>, b: seq<string>, n: nat)
    requires a != [] && b != [] && IsChain(config, a[0], a) && IsChain(config, b[0], b)
    requires 1 <= n <= |a| && n <= |b| && a[..n] == b[..n]
    ensures a == b
    decreases |a| - n
  {
    assert a[n - 1] == a[..n][n - 1] == b[..n][n - 1] == b[n - 1];
    assert n < |a| ==> config.profile[a[n - 1]].inherit == Some(a[n]);
    assert n < |b| ==> config.profile[b[n - 1]].inherit == Some(b[n]);
    if n < |a| {
      assert a[..n + 1] == a[..n] + [a[n]] && b[..n + 1] == b[..n] + [b[n]];
      SameSoFar(config, a, b, n + 1);
    }
  }

  // The merge

  function Base(base: map<string, Entry>, key: string): map<string, Value> {
    if key in base && base[key].Table? then base[key].fields else map[]
  }

  /** What `values[key]` becomes. */
  function Laid(base: map<string, Entry>, key: string, entry: Entry): Entry {
    match entry
    case Table(fields) => Table(Base(base, key) + fields)
    case Plain(_) => entry
  }

  /** The entries under `keys`, over those in `base`. */
  function Over(base: map<string, Entry>, entries: map<string, Entry>, keys: set<string>): map<string, Entry>
    requires keys <= entries.Keys
  {
    map key | key in base.Keys + keys :: if key in keys then Laid(base, key, entries[key]) else base[key]
  }

  function TopLevel(config: Config): map<string, Entry> {
    map["connection" := Table(config.connection)]
  }

  function Merged(config: Config, chain: seq<string>): map<string, Entry>
    requires forall i :: 0 <= i < |chain| ==> chain[i] in config.profile
  {
    if chain == [] then TopLevel(config)
    else
      var entries := config.profile[chain[0]].entries;
      Over(Merged(config, chain[1..]), entries, entries.Keys)
  }

  /** One profile's entries over those of the profiles it inherits: tables field by field, in any order. */
  method LayOver(base: map<string, Entry>, current: map<string, Entry>) returns (values: map<string, Entry>)
    ensures values == Over(base, current, current.Keys)
  {
    values := base;
    var left := current.Keys;
    while left != {}
      invariant left <= current.Keys && values == Over(base, current, current.Keys - left)
    {
      var key :| key in left;
      var entry := current[key];
      if entry.Table? {
        var merged := if key in values && values[key].Table? then values[key].fields else map[];
        values := values[key := Table(merged + entry.fields)];
      } else {
        values := values[key := entry];
      }
      left := left - {key};
    }
    assert current.Keys - {} == current.Keys;
  }

  /** `resolve_profile`, up to the values it validates; None is for the top-level settings alone. */
  method ResolveProfile(config: Config, profileName: Option<string>)
    returns (r: Result<map<string, Entry>, ChainError>)
    ensures profileName.None? ==> r == Ok(TopLevel(config))
    ensures profileName.Some? ==>
              (r.Ok? <==> exists chain :: IsChain(config, profileName.value, chain))
    ensures r.Ok? && profileName.Some? ==>
              exists chain :: IsChain(config, profileName.value, chain) && r.value == Merged(config, chain)
    ensures r.Err? ==> profileName.Some? && ErrorFits(config, profileName.value, r.error)
  {
    var values := TopLevel(config);
    if profileName.None? {
      return Ok(values);
    }
    var inherited := InheritanceChain(config, profileName.value);
    if inherited.Err? {
      NoChain(config, profileName.value);
      return Err(inherited.error);
    }
    var chain := inherited.value;
    var i := |chain|;
    while i > 0
      invariant 0 <= i <= |chain| && values == Merged(config, chain[i..])
    {
      i := i - 1;
      values := LayOver(values, config.profile[chain[i]].entries);
      assert chain[i..][1..] == chain[i + 1..];
    }
    assert chain[0..] == chain;
    r := Ok(values);
  }

  lemma NoChain(config: Config, name: string)
    requires !Leads(config, name)
    ensures forall chain :: !IsChain(config, name, chain)
  {
    forall chain | IsChain(config, name, chain)
      ensures false
    {
      ChainEnds(config, chain);
    }
  }

  // What it means

  /** What a profile sets itself; None for a field it does not set. */
  function Own(profile: Profile, section: string, field: string): Option<Value> {
    if section !in profile.entries then None
    else
      match profile.entries[section]
      case Table(fields) => if field in fields then Some(fields[field]) else None
      case Plain(_) => None
  }

  function FieldOf(values: map<string, Entry>, section: string, field: string): Option<Value> {
    if section in values && values[section].Table? && field in values[section].fields
    then Some(values[section].fields[field]) else None
  }

  function TopLevelField(config: Config, section: string, field: string): Option<Value> {
    if section == "connection" && field in config.connection then Some(config.connection[field]) else None
  }

  /** How many of the chain come before the first that sets the field: all if none does. */
  function Nearest(config: Config, chain: seq<string>, section: string, field: string): (n: nat)
    requires forall i :: 0 <= i < |chain| ==> chain[i] in config.profile
    ensures n <= |chain|
    ensures forall i :: 0 <= i < n ==> Own(config.profile[chain[i]], section, field).None?
    ensures n < |chain| ==> Own(config.profile[chain[n]], section, field).Some?
  {
    if chain == [] || Own(config.profile[chain[0]], section, field).Some? then 0
    else 1 + Nearest(config, chain[1..], section, field)
  }

  /** Every field has the value of the nearest that sets it; else the top-level table's; else none, for the default. */
  lemma {:induction false} TheNearestSetsIt(config: Config, chain: seq<string>, section: string, field: string)
    requires WellTyped(config) && section in SECTIONS
    requires forall i :: 0 <= i < |chain| ==> chain[i] in config.profile
    ensures var n := Nearest(config, chain, section, field);
            FieldOf(Merged(config, chain), section, field) ==
              if n < |chain| then Own(config.profile[chain[n]], section, field)
              else TopLevelField(config, section, field)
    ensures section in Merged(config, chain) ==> Merged(config, chain)[section].Table?
  {
    if chain != [] {
      TheNearestSetsIt(config, chain[1..], section, field);
      var entries := config.profile[chain[0]].entries;
      assert section in entries ==> entries[section].Table?;
    }
  }

  function PlainOwn(profile: Profile, key: string): Option<Value> {
    if key in profile.entries && profile.entries[key].Plain? then Some(profile.entries[key].value) else None
  }

  function PlainNearest(config: Config, chain: seq<string>, key: string): (n: nat)
    requires forall i :: 0 <= i < |chain| ==> chain[i] in config.profile
    ensures n <= |chain|
    ensures forall i :: 0 <= i < n ==> PlainOwn(config.profile[chain[i]], key).None?
    ensures n < |chain| ==> PlainOwn(config.profile[chain[n]], key).Some?
  {
    if chain == [] || PlainOwn(config.profile[chain[0]], key).Some? then 0
    else 1 + PlainNearest(config, chain[1..], key)
  }

  /** And so has a value that is not a table's, such as the description. */
  lemma {:induction false} TheNearestSetsItPlain(config: Config, chain: seq<string>, key: string)
    requires WellTyped(config) && key !in SECTIONS
    requires forall i :: 0 <= i < |chain| ==> chain[i] in config.profile
    ensures var n := PlainNearest(config, chain, key);
            if n < |chain|
            then key in Merged(config, chain)
                 && Merged(config, chain)[key] == Plain(PlainOwn(config.profile[chain[n]], key).value)
            else key !in Merged(config, chain)
  {
    if chain != [] {
      TheNearestSetsItPlain(config, chain[1..], key);
      var entries := config.profile[chain[0]].entries;
      assert key in entries ==> entries[key].Plain?;
    }
  }

  // What `config show` says

  /** A layer: its name, and the fields it sets. */
  type Layer = (string, map<string, Value>)

  const TOP_LEVEL_CONNECTION := "[connection]"

  function Fields(profile: Profile, section: string): map<string, Value> {
    if section in profile.entries && profile.entries[section].Table? then profile.entries[section].fields else map[]
  }

  /** The profile's layers and then those it inherits, as `_profile_settings` puts them together. */
  function Layers(config: Config, chain: seq<string>, section: string): (layers: seq<Layer>)
    requires forall i :: 0 <= i < |chain| ==> chain[i] in config.profile
    ensures |layers| == |chain| + if section == "connection" then 1 else 0
    ensures forall i :: 0 <= i < |chain| ==> layers[i] == (chain[i], Fields(config.profile[chain[i]], section))
  {
    seq(|chain|, i requires 0 <= i < |chain| => (chain[i], Fields(config.profile[chain[i]], section)))
    + (if section == "connection" then [(TOP_LEVEL_CONNECTION, config.connection)] else [])
  }

  function FirstThatSets(layers: seq<Layer>, field: string): Option<string> {
    if layers == [] then None
    else if field in layers[0].1 then Some(layers[0].0)
    else FirstThatSets(layers[1..], field)
  }

  /** What is shown of one field: its value, None for the default, and where that comes from. */
  datatype Setting = Setting(value: Option<Value>, configured: bool, inheritedFrom: Option<string>)

  /** `_settings`, of one field of a resolved sub-config with the fields in `resolved` set. */
  function Shown(resolved: map<string, Value>, layers: seq<Layer>, field: string): Setting
    requires layers != []
  {
    var origin := if field in resolved then FirstThatSets(layers, field) else None;
    Setting(
      if field in resolved then Some(resolved[field]) else None,
      origin.Some?,
      if origin == Some(layers[0].0) then None else origin)
  }

  lemma {:induction false} FirstLayer(layers: seq<Layer>, field: string) returns (n: nat)
    ensures n <= |layers|
    ensures forall i :: 0 <= i < n ==> field !in layers[i].1
    ensures if n < |layers| then field in layers[n].1 && FirstThatSets(layers, field) == Some(layers[n].0)
            else FirstThatSets(layers, field) == None
  {
    if layers == [] || field in layers[0].1 {
      n := 0;
    } else {
      n := FirstLayer(layers[1..], field);
      n := n + 1;
    }
  }

  /** A profile's name is no table's header. */
  ghost predicate NamesAreProfiles(config: Config) {
    TOP_LEVEL_CONNECTION !in config.profile
  }

  /** `value` is what the chain's `i`th profile sets, and those before it do not. */
  ghost predicate SetBy(config: Config, chain: seq<string>, section: string, field: string, i: nat, value: Option<Value>)
    requires i < |chain| && forall j :: 0 <= j < |chain| ==> chain[j] in config.profile
  {
    && value == Own(config.profile[chain[i]], section, field)
    && forall j :: 0 <= j < i ==> Own(config.profile[chain[j]], section, field).None?
  }

  ghost predicate SetByNone(config: Config, chain: seq<string>, section: string, field: string)
    requires forall j :: 0 <= j < |chain| ==> chain[j] in config.profile
  {
    forall j :: 0 <= j < |chain| ==> Own(config.profile[chain[j]], section, field).None?
  }

  ghost predicate ComesFrom(
    config: Config, chain: seq<string>, section: string, field: string, value: Option<Value>, origin: Option<string>)
    requires chain != [] && forall j :: 0 <= j < |chain| ==> chain[j] in config.profile
  {
    match origin
    case None => SetBy(config, chain, section, field, 0, value)
    case Some(layer) =>
      if layer == "[connection]"
      then value == TopLevelField(config, section, field) && SetByNone(config, chain, section, field)
      else exists i :: 0 < i < |chain| && chain[i] == layer && SetBy(config, chain, section, field, i, value)
  }

  /**
   The value shown is the one set by the layer named: the profile itself if no layer
   is, one it inherits, or the top-level table; and a default is shown as one exactly
   if none sets the field.
   */
  lemma TheOriginIsWhereItCameFrom(config: Config, name: string, chain: seq<string>, section: string, field: string)
    requires WellTyped(config) && NamesAreProfiles(config) && section in SECTIONS && IsChain(config, name, chain)
    ensures var shown := Shown(Base(Merged(config, chain), section), Layers(config, chain, section), field);
            && shown.value == FieldOf(Merged(config, chain), section, field)
            && (shown.configured <==> shown.value.Some?)
            && (shown.configured ==> ComesFrom(config, chain, section, field, shown.value, shown.inheritedFrom))
  {
    TheNearestSetsIt(config, chain, section, field);
    OriginOf(config, name, chain, section, field);
  }

  lemma OriginOf(config: Config, name: string, chain: seq<string>, section: string, field: string)
    requires NamesAreProfiles(config) && IsChain(config, name, chain)
    ensures var origin := FirstThatSets(Layers(config, chain, section), field);
            var n := Nearest(config, chain, section, field);
            && (n < |chain| ==> origin == Some(chain[n]))
            && (n == |chain| ==>
                  origin == if TopLevelField(config, section, field).Some? then Some(TOP_LEVEL_CONNECTION) else None)
  {
    var layers := Layers(config, chain, section);
    var first := FirstLayer(layers, field);
    var n := Nearest(config, chain, section, field);
    LayersSet(config, chain, section, field);
    if n < |chain| {
      assert first == n;
    } else {
      assert first >= |chain|;
    }
  }

  lemma LayersSet(config: Config, chain: seq<string>, section: string, field: string)
    requires forall i :: 0 <= i < |chain| ==> chain[i] in config.profile
    ensures var layers := Layers(config, chain, section);
            forall i :: 0 <= i < |chain| ==>
              (field in layers[i].1 <==> Own(config.profile[chain[i]], section, field).Some?)
  {
  }

  // The same for a setting that is not a table's

  function PlainFields(entries: map<string, Entry>): map<string, Value> {
    map key | key in entries && entries[key].Plain? :: entries[key].value
  }

  function PlainLayers(config: Config, chain: seq<string>): (layers: seq<Layer>)
    requires forall i :: 0 <= i < |chain| ==> chain[i] in config.profile
    ensures |layers| == |chain|
  {
    seq(|chain|, i requires 0 <= i < |chain| => (chain[i], PlainFields(config.profile[chain[i]].entries)))
  }

  /** `value` is what the chain's `i`th profile sets, those before it do not, and it is named unless it is the first. */
  ghost predicate PlainComesFrom(
    config: Config, chain: seq<string>, key: string, value: Option<Value>, origin: Option<string>, i: nat)
    requires forall j :: 0 <= j < |chain| ==> chain[j] in config.profile
  {
    && i < |chain|
    && value == PlainOwn(config.profile[chain[i]], key)
    && (forall j :: 0 <= j < i ==> PlainOwn(config.profile[chain[j]], key).None?)
    && origin == if i == 0 then None else Some(chain[i])
  }

  lemma ThePlainOriginIsWhereItCameFrom(config: Config, name: string, chain: seq<string>, key: string)
    requires WellTyped(config) && key !in SECTIONS && IsChain(config, name, chain)
    ensures var shown := Shown(PlainFields(Merged(config, chain)), PlainLayers(config, chain), key);
            && (shown.configured <==> shown.value.Some?)
            && (shown.configured <==> exists i :: 0 <= i < |chain| && PlainOwn(config.profile[chain[i]], key).Some?)
            && (shown.configured ==>
                  exists i :: PlainComesFrom(config, chain, key, shown.value, shown.inheritedFrom, i))
  {
    TheNearestSetsItPlain(config, chain, key);
    var layers, n := PlainLayers(config, chain), PlainNearest(config, chain, key);
    var first := FirstLayer(layers, key);
    assert forall i :: 0 <= i < |chain| ==> (key in layers[i].1 <==> PlainOwn(config.profile[chain[i]], key).Some?);
    assert first == n;
    if n < |chain| {
      var shown := Shown(PlainFields(Merged(config, chain)), layers, key);
      assert PlainComesFrom(config, chain, key, shown.value, shown.inheritedFrom, n);
    }
  }
}
