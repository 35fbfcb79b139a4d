/** Machine constraints of juju/machine/constraints.py: what a provider registers, layers parsed from
    strings, and how collapsing layers masks conflicting settings. */
module Constraints {
  import opened Wrappers
  import opened Sorting
  import Strings = Text

  /** A converted value: numbers for cpu and mem, text for the rest. */
  datatype Value = Text(text: string) | Number(number: real)

  /** A raw default ("unset" is None), a converter that may refuse, and the test of candidate against benchmark. */
  datatype ConstraintType = ConstraintType(default_: Option<string>, convert: string -> Option<Value>,
                                           satisfies: (Value, Value) -> bool, visible: bool)

  type Registry = map<string, ConstraintType>
  type Conflicts = map<string, set<string>>

  /** The raw settings of one layer: None is an explicit "any", or a setting masked by a conflict. */
  type Data = map<string, Option<string>>

  datatype Error = Uninterpretable | UnknownConstraint | BadValue | Computed | Ambiguous | NotRegistered

  // ------------------------------------------------------- registered tables

  ghost predicate Symmetric(conflicts: Conflicts) {
    forall a, b :: a in conflicts && b in conflicts[a] ==> b in conflicts && a in conflicts[b]
  }

  /** No two conflicting constraints are both on by default. */
  ghost predicate DefaultsCompatible(registry: Registry, conflicts: Conflicts) {
    forall a, b :: a in conflicts && b in conflicts[a] && a in registry && b in registry
                   ==> registry[a].default_.None? || registry[b].default_.None?
  }

  /** register */
  function Registered(conflicts: Conflicts, name: string): Conflicts {
    conflicts[name := {}]
  }

  /** register_conflicts, for names that are all registered. */
  function WithConflicts(conflicts: Conflicts, reds: set<string>, blues: set<string>): Conflicts {
    map n | n in conflicts ::
      conflicts[n] + (if n in reds then blues else {}) + (if n in blues then reds else {})
  }

  /** Registering a name afresh forgets its conflicts, but not its mention among the others': the
      table stays symmetric exactly when no other constraint conflicts with it. */
  lemma RegisterKeepsSymmetricIff(conflicts: Conflicts, name: string)
    requires Symmetric(conflicts)
    ensures Symmetric(Registered(conflicts, name)) <==> (name in conflicts ==> conflicts[name] <= {name})
  {
    var after := Registered(conflicts, name);
    if name in conflicts && !(conflicts[name] <= {name}) {
      var b :| b in conflicts[name] && b != name;
      assert b in after && name in after[b] && b !in after[name];
    } else {
      forall a, b | a in after && b in after[a]
        ensures b in after && a in after[b]
      {
        assert a in conflicts && b in conflicts[a];
      }
    }
  }

  lemma ConflictsKeepSymmetric(conflicts: Conflicts, reds: set<string>, blues: set<string>)
    requires Symmetric(conflicts) && reds <= conflicts.Keys && blues <= conflicts.Keys
    ensures Symmetric(WithConflicts(conflicts, reds, blues))
  {
  }

  // ----------------------------------------------------------- parsed layers

  /** One "name=value" of the command line. */
  function ParseOne(registry: Registry, s: string): Result<(string, Option<string>), Error> {
    match Strings.FirstOf(s, '=')
    case None => Err(Uninterpretable)
    case Some(i) =>
      var name, text := s[..i], s[i + 1..];
      if name !in registry then Err(UnknownConstraint)
      else
        var value := if text == "any" then None else if text == "" then registry[name].default_ else Some(text);
        if value.Some? && registry[name].convert(value.value).None? then Err(BadValue)
        else if !registry[name].visible then Err(Computed)
        else Ok((name, value))
  }

  function ParseAll(registry: Registry, data: Data, strs: seq<string>): Result<Data, Error>
    decreases |strs|
  {
    if strs == [] then Ok(data)
    else match ParseOne(registry, strs[0])
      case Err(e) => Err(e)
      case Ok(p) => ParseAll(registry, data[p.0 := p.1], strs[1..])
  }

  function ConflictsOf(conflicts: Conflicts, n: string): set<string> {
    if n in conflicts then conflicts[n] else {}
  }

  /** Some setting of the layer conflicts with another entry of it. */
  ghost predicate IsAmbiguous(conflicts: Conflicts, data: Data) {
    exists n, c :: n in data && data[n].Some? && c in ConflictsOf(conflicts, n) && c in data
  }

  /** Everything in conflict with a setting of the layer. */
  function MaskedBy(conflicts: Conflicts, data: Data): set<string> {
    set n, c | n in data && data[n].Some? && c in ConflictsOf(conflicts, n) :: c
  }

  /** One setting's conflicts are masked, and make the layer ambiguous when they are entries of it. */
  lemma MaskedFrom(conflicts: Conflicts, data: Data, n: string)
    requires n in data && data[n].Some?
    ensures ConflictsOf(conflicts, n) <= MaskedBy(conflicts, data)
    ensures ConflictsOf(conflicts, n) * data.Keys != {} ==> IsAmbiguous(conflicts, data)
  {
    if ConflictsOf(conflicts, n) * data.Keys != {} {
      var c :| c in ConflictsOf(conflicts, n) * data.Keys;
    }
  }

  lemma AllMasked(conflicts: Conflicts, data: Data, names: seq<string>, found: set<string>)
    requires forall n :: n in data ==> n in names
    requires forall k :: 0 <= k < |names| ==> names[k] in data
    requires forall k :: 0 <= k < |names| && data[names[k]].Some? ==> ConflictsOf(conflicts, names[k]) <= found
    requires found <= MaskedBy(conflicts, data) && found !! data.Keys
    ensures found == MaskedBy(conflicts, data) && !IsAmbiguous(conflicts, data)
  {
    forall n, c | n in data && data[n].Some? && c in ConflictsOf(conflicts, n)
      ensures c in found
    {
      var k :| 0 <= k < |names| && names[k] == n;
    }
  }

  /** parse: the settings of the strings, and None for all they conflict with. */
  ghost function Parse(registry: Registry, conflicts: Conflicts, provider: string, strs: seq<string>): Result<Data,
                       Error> {
    match ParseAll(registry, map["provider-type" := Some(provider)], strs)
    case Err(e) => Err(e)
    case Ok(data) =>
      if IsAmbiguous(conflicts, data) then Err(Ambiguous)
      else Ok(data + map c | c in MaskedBy(conflicts, data) :: None)
  }

  /** Something given and set conflicts with n. */
  ghost predicate MaskedHere(conflicts: Conflicts, given: Data, n: string) {
    exists a :: a in given && given[a].Some? && a in conflicts && n in conflicts[a]
  }

  /** Said entry by entry, where given holds what the strings set: parsing fails for a bad string or an
      ambiguous layer; otherwise exactly the names given and those in conflict with something set are
      there, the former as given and the latter unset. */
  lemma ParsedLayerMeans(registry: Registry, conflicts: Conflicts, provider: string, strs: seq<string>, n: string)
    ensures var r := Parse(registry, conflicts, provider, strs);
            match ParseAll(registry, map["provider-type" := Some(provider)], strs)
            case Err(e) => r == Err(e)
            case Ok(given) =>
              && (r.Err? <==> IsAmbiguous(conflicts, given)) && (r.Err? ==> r == Err(Ambiguous))
              && (r.Ok? ==>
                    && (n in r.value <==> n in given || MaskedHere(conflicts, given, n))
                    && (n in r.value ==> r.value[n] == if n in given then given[n] else None))
  {
    match ParseAll(registry, map["provider-type" := Some(provider)], strs)
    case Err(_) =>
    case Ok(given) =>
      var r := Parse(registry, conflicts, provider, strs);
      if r.Ok? {
        assert n in MaskedBy(conflicts, given) <==> MaskedHere(conflicts, given, n);
        assert r.value == given + map c | c in MaskedBy(conflicts, given) :: None;
      }
  }

  /** Ambiguous: something set conflicts with anything given, unset or not. */
  lemma AmbiguousIff(conflicts: Conflicts, given: Data)
    ensures IsAmbiguous(conflicts, given) <==>
              exists a, b :: a in given && given[a].Some? && b in given && a in conflicts && b in conflicts[a]
  {
    if a, b :| a in given && given[a].Some? && b in given && a in conflicts && b in conflicts[a] {
      assert b in ConflictsOf(conflicts, a);
    }
    if IsAmbiguous(conflicts, given) {
      var a, b :| a in given && given[a].Some? && b in ConflictsOf(conflicts, a) && b in given;
      assert a in conflicts && b in conflicts[a];
    }
  }

  // -------------------------------------------------------- collapsing layers

  /** A layer that sets something has an explicit None for all its conflicts. */
  ghost predicate Masks(conflicts: Conflicts, data: Data) {
    forall n, c :: n in data && data[n].Some? && c in ConflictsOf(conflicts, n) ==> c in data && data[c] == None
  }

  /** data.get(name, default) */
  function Effective(registry: Registry, data: Data, n: string): Option<string> {
    if n in data then data[n] else if n in registry then registry[n].default_ else None
  }

  ghost predicate ConflictFree(registry: Registry, conflicts: Conflicts, data: Data) {
    forall a, b :: a in registry && b in registry && b in ConflictsOf(conflicts, a)
                   ==> Effective(registry, data, a).None? || Effective(registry, data, b).None?
  }

  /** What parse returns masks its conflicts. */
  lemma ParsedMasks(registry: Registry, conflicts: Conflicts, provider: string, strs: seq<string>)
    requires Parse(registry, conflicts, provider, strs).Ok?
    ensures Masks(conflicts, Parse(registry, conflicts, provider, strs).value)
  {
    var data := ParseAll(registry, map["provider-type" := Some(provider)], strs).value;
    var masked := MaskedBy(conflicts, data);
    var r := Parse(registry, conflicts, provider, strs).value;
    forall n, c | n in r && r[n].Some? && c in ConflictsOf(conflicts, n)
      ensures c in r && r[c] == None
    {
      assert n in data && data[n] == r[n];
      assert c in masked;
    }
  }

  /** update: the upper layer wins wherever it says something, even None. */
  lemma UpdateMasks(conflicts: Conflicts, lower: Data, upper: Data)
    requires Symmetric(conflicts)
    requires Masks(conflicts, lower) && Masks(conflicts, upper)
    ensures Masks(conflicts, lower + upper)
  {
    var d := lower + upper;
    forall n, c | n in d && d[n].Some? && c in ConflictsOf(conflicts, n)
      ensures c in d && d[c] == None
    {
      assert n in ConflictsOf(conflicts, c);
    }
  }

  /** Layers collapsed with update, the lowest first. */
  function Collapse(layers: seq<Data>): Data {
    if layers == [] then map[] else Collapse(layers[..|layers| - 1]) + layers[|layers| - 1]
  }

  /** Each entry of a collapse is the one of the highest layer that has it, unset or not. */
  lemma {:induction false} HighestLayerWins(layers: seq<Data>, n: string, i: nat)
    requires i < |layers| && n in layers[i] && forall j :: i < j < |layers| ==> n !in layers[j]
    ensures n in Collapse(layers) && Collapse(layers)[n] == layers[i][n]
    decreases |layers|
  {
    var last := |layers| - 1;
    if i < last { HighestLayerWins(layers[..last], n, i); }
  }

  lemma {:induction false} NoLayerSets(layers: seq<Data>, n: string)
    requires forall i :: 0 <= i < |layers| ==> n !in layers[i]
    ensures n !in Collapse(layers)
    decreases |layers|
  {
    if layers != [] {
      NoLayerSets(layers[..|layers| - 1], n);
    }
  }

  ghost predicate IsParsed(registry: Registry, conflicts: Conflicts, layer: Data) {
    exists provider, strs :: Parse(registry, conflicts, provider, strs) == Ok(layer)
  }

  ghost predicate AreParsed(registry: Registry, conflicts: Conflicts, layers: seq<Data>) {
    forall i :: 0 <= i < |layers| ==> IsParsed(registry, conflicts, layers[i])
  }

  lemma LayerMasks(registry: Registry, conflicts: Conflicts, layer: Data)
    requires IsParsed(registry, conflicts, layer)
    ensures Masks(conflicts, layer)
  {
    hide Parse;
    var provider, strs :| Parse(registry, conflicts, provider, strs) == Ok(layer);
    ParsedMasks(registry, conflicts, provider, strs);
  }

  lemma {:induction false} CollapseMasks(registry: Registry, conflicts: Conflicts, layers: seq<Data>)
    requires Symmetric(conflicts) && AreParsed(registry, conflicts, layers)
    ensures Masks(conflicts, Collapse(layers))
  {
    if layers != [] {
      hide IsParsed, Masks, Symmetric;
      var n := |layers| - 1;
      CollapseMasks(registry, conflicts, layers[..n]);
      LayerMasks(registry, conflicts, layers[n]);
      UpdateMasks(conflicts, Collapse(layers[..n]), layers[n]);
    }
  }

  /** However many parsed layers are collapsed, no two conflicting constraints are both effectively
      set, defaults included: exactly when no two conflicting constraints are both on by default. */
  lemma CollapsedIsConflictFreeIff(registry: Registry, conflicts: Conflicts)
    requires Symmetric(conflicts) && conflicts.Keys == registry.Keys
    ensures (forall layers :: AreParsed(registry, conflicts, layers) ==>
        ConflictFree(registry, conflicts, Collapse(layers)))
            <==> DefaultsCompatible(registry, conflicts)
  {
    if DefaultsCompatible(registry, conflicts) {
      forall layers | AreParsed(registry, conflicts, layers)
        ensures ConflictFree(registry, conflicts, Collapse(layers))
      {
        CollapseMasks(registry, conflicts, layers);
        MaskedIsConflictFree(registry, conflicts, Collapse(layers));
      }
    } else {
      var none: seq<Data> := [];
      assert AreParsed(registry, conflicts, none);
      assert !ConflictFree(registry, conflicts, Collapse(none)) by {
        var a, b :| a in conflicts && b in conflicts[a] && registry[a].default_.Some? && registry[b].default_.Some?;
        assert b in ConflictsOf(conflicts, a);
        assert Effective(registry, Collapse(none), a).Some? && Effective(registry, Collapse(none), b).Some?;
      }
    }
  }

  lemma MaskedIsConflictFree(registry: Registry, conflicts: Conflicts, data: Data)
    requires Symmetric(conflicts) && conflicts.Keys == registry.Keys
    requires DefaultsCompatible(registry, conflicts) && Masks(conflicts, data)
    ensures ConflictFree(registry, conflicts, data)
  {
    forall a, b | a in registry && b in registry && b in ConflictsOf(conflicts, a)
      ensures Effective(registry, data, a).None? || Effective(registry, data, b).None?
    {
      assert a in ConflictsOf(conflicts, b);
    }
  }

  // ------------------------------------------------------------ can_satisfy

  /** The converted value of a constraint; unset when the raw value is None. */
  function ValueOf(registry: Registry, data: Data, n: string): Option<Value> {
    var raw := Effective(registry, data, n);
    if n in registry && raw.Some? then registry[n].convert(raw.value) else None
  }

  predicate Complete(registry: Registry, data: Data) {
    ValueOf(registry, data, "provider-type").Some? && ValueOf(registry, data, "ubuntu-series").Some?
  }

  /** The unit cares about a constraint, and the machine does not give it. */
  predicate Fails(registry: Registry, machine: Data, unit_: Data, n: string)
    requires n in registry
  {
    && ValueOf(registry, unit_, n).Some?
    && (ValueOf(registry, machine, n).None?
        || !registry[n].satisfies(ValueOf(registry, machine, n).value, ValueOf(registry, unit_, n).value))
  }

  ghost predicate CanSatisfy(registry: Registry, machine: Data, unit_: Data) {
    && Complete(registry, machine) && Complete(registry, unit_)
    && forall n :: n in registry ==> !Fails(registry, machine, unit_, n)
  }

  ghost predicate ComparersArePreorders(registry: Registry) {
    forall n :: n in registry ==>
      && (forall a :: registry[n].satisfies(a, a))
      && (forall a, b, c :: registry[n].satisfies(a, b) && registry[n].satisfies(b, c) ==> registry[n].satisfies(a, c))
  }

  /** A machine made for some complete constraints satisfies them. */
  lemma SatisfiesItself(registry: Registry, data: Data)
    requires ComparersArePreorders(registry) && Complete(registry, data)
    ensures CanSatisfy(registry, data, data)
  {
  }

  /** What satisfies a machine's own constraints satisfies every unit that machine could take. */
  lemma SatisfactionIsTransitive(registry: Registry, a: Data, b: Data, c: Data)
    requires ComparersArePreorders(registry)
    requires CanSatisfy(registry, a, b) && CanSatisfy(registry, b, c)
    ensures CanSatisfy(registry, a, c)
  {
    forall n | n in registry
      ensures !Fails(registry, a, c, n)
    {
      FailsNowhere(registry, a, b, c, n);
    }
  }

  lemma FailsNowhere(registry: Registry, a: Data, b: Data, c: Data, n: string)
    requires ComparersArePreorders(registry) && n in registry
    requires !Fails(registry, a, b, n) && !Fails(registry, b, c, n)
    ensures !Fails(registry, a, c, n)
  {
    hide ValueOf;
    var f := registry[n].satisfies;
    var x, y, z := ValueOf(registry, a, n), ValueOf(registry, b, n), ValueOf(registry, c, n);
    if z.Some? {
      assert f(x.value, y.value) && f(y.value, z.value);
    }
  }

  // ------------------------------------------------------------ the objects

  /** c2 has, for the names listed, the listed others added. */
  ghost predicate Adds(c: Conflicts, c2: Conflicts, names: seq<string>, others: seq<string>) {
    && c2.Keys == c.Keys
    && forall n :: n in c2 ==> c2[n] == c[n] + if n in names then (set x | x in others) else {}
  }

  lemma BothAdded(c0: Conflicts, c1: Conflicts, c2: Conflicts, reds: seq<string>, blues: seq<string>)
    requires Adds(c0, c1, reds, blues) && Adds(c1, c2, blues, reds)
    ensures c2 == WithConflicts(c0, set x | x in reds, set x | x in blues)
  {
  }

  class ConstraintSet {
    const provider: string
    var registry: Registry
    var conflicts: Conflicts

    ghost predicate Valid()
      reads this
    {
      registry.Keys == conflicts.Keys && "provider-type" in registry && "ubuntu-series" in registry
    }

    constructor (provider: string)
      ensures Valid() && this.provider == provider && Symmetric(conflicts) && DefaultsCompatible(registry, conflicts)
      ensures ComparersArePreorders(registry)
      ensures registry == BUILTIN
      ensures forall n :: n in conflicts ==> conflicts[n] == {}
    {
      this.provider := provider;
      registry := map[];
      conflicts := map[];
      new;
      Register("ubuntu-series", PLAIN);
      Register("provider-type", PLAIN);
    }

    method Register(name: string, constraint: ConstraintType)
      modifies this
      ensures registry == old(registry)[name := constraint]
      ensures conflicts == Registered(old(conflicts), name)
    {
      registry := registry[name := constraint];
      conflicts := conflicts[name := {}];
    }

    /** register_conflicts; NotRegistered stands for the KeyError of an unknown name. */
    method RegisterConflicts(reds: seq<string>, blues: seq<string>) returns (r: Result<(), Error>)
      requires Valid()
      modifies this`conflicts
      ensures Valid()
      ensures var rs, bs := (set x | x in reds), (set x | x in blues);
              if rs + bs <= old(conflicts).Keys
              then r.Ok? && conflicts == WithConflicts(old(conflicts), rs, bs)
                   && (old(Symmetric(conflicts)) ==> Symmetric(conflicts))
              else r == Err(NotRegistered)
    {
      hide Symmetric, WithConflicts;
      ghost var rs, bs := (set x | x in reds), (set x | x in blues);
      ghost var c0 := conflicts;
      r := AddTo(reds, blues);
      if r.Ok? {
        ghost var c1 := conflicts;
        r := AddTo(blues, reds);
        if r.Ok? {
          BothAdded(c0, c1, conflicts, reds, blues);
          if Symmetric(c0) { ConflictsKeepSymmetric(c0, rs, bs); }
        }
      }
    }

    /** One of the two loops of register_conflicts. */
    method AddTo(names: seq<string>, others: seq<string>) returns (r: Result<(), Error>)
      requires Valid()
      modifies this`conflicts
      ensures Valid() && conflicts.Keys == old(conflicts).Keys
      ensures r.Ok? <==> (set x | x in names) <= old(conflicts).Keys
      ensures r.Ok? ==> Adds(old(conflicts), conflicts, names, others)
      ensures r.Err? ==> r == Err(NotRegistered)
    {
      for i := 0 to |names|
        invariant Valid() && conflicts.Keys == old(conflicts).Keys
        invariant forall k :: 0 <= k < i ==> names[k] in old(conflicts).Keys
        invariant forall n :: n in conflicts ==>
          conflicts[n] == old(conflicts)[n] + if n in names[..i] then (set x | x in others) else {}
      {
        if names[i] !in conflicts {
          assert names[i] in (set x | x in names);
          return Err(NotRegistered);
        }
        assert names[..i + 1] == names[..i] + [names[i]];
        conflicts := conflicts[names[i] := conflicts[names[i]] + (set x | x in others)];
      }
      assert names[..|names|] == names;
      r := Ok(());
    }

    /** parse */
    method ParseLayer(strs: seq<string>) returns (r: Result<Data, Error>)
      requires Valid()
      ensures r == Parse(registry, conflicts, provider, strs)
    {
      var data: Data := map["provider-type" := Some(provider)];
      ghost var data0 := data;
      for i := 0 to |strs|
        invariant ParseAll(registry, data0, strs) == ParseAll(registry, data, strs[i..])
      {
        assert strs[i..][1..] == strs[i + 1..];
        match ParseOne(registry, strs[i])
        case Err(e) => return Err(e);
        case Ok(p) => data := data[p.0 := p.1];
      }
      assert strs[|strs|..] == [];
      var masked := CollectConflicts(data);
      if masked.Err? { return Err(masked.error); }
      r := Ok(data + map c | c in masked.value :: None);
    }

    /** The loop of parse over sorted(data). */
    method CollectConflicts(data: Data) returns (r: Result<set<string>, Error>)
      ensures r == if IsAmbiguous(conflicts, data) then Err(Ambiguous) else Ok(MaskedBy(conflicts, data))
    {
      hide MaskedBy, IsAmbiguous;
      var names := Sorted(data.Keys);
      var found := {};
      for i := 0 to |names|
        invariant forall k :: 0 <= k < i && data[names[k]].Some? ==> ConflictsOf(conflicts, names[k]) <= found
        invariant found <= MaskedBy(conflicts, data) && found !! data.Keys
      {
        if data[names[i]].Some? {
          var mine := ConflictsOf(conflicts, names[i]);
          MaskedFrom(conflicts, data, names[i]);
          if mine * data.Keys != {} {
            return Err(Ambiguous);
          }
          found := found + mine;
        }
      }
      AllMasked(conflicts, data, names, found);
      r := Ok(found);
    }

    /** Constraints.can_satisfy, over the names in any order. */
    method CanPlace(machine: Data, unit_: Data) returns (r: bool)
      ensures r <==> CanSatisfy(registry, machine, unit_)
    {
      if !Complete(registry, machine) || !Complete(registry, unit_) { return false; }
      var todo := registry.Keys;
      while todo != {}
        invariant todo <= registry.Keys
        invariant forall n :: n in registry && n !in todo ==> !Fails(registry, machine, unit_, n)
        decreases |todo|
      {
        var n :| n in todo;
        if Fails(registry, machine, unit_, n) { return false; }
        todo := todo - {n};
      }
      r := true;
    }

    /** register_generics. `toNumber` is float(), None where it raises ValueError. Names may be registered
        already; what the set keeps then is for the lemmas below. */
    method RegisterGenerics(instanceTypes: seq<string>, toNumber: string -> Option<real>)
      requires Valid()
      modifies this
      ensures Valid()
      ensures registry == WithGenerics(old(registry), instanceTypes, toNumber)
      ensures conflicts == GenericConflicts(old(conflicts), instanceTypes != [])
    {
      hide WithConflicts, ComparersArePreorders;
      Register("arch", ARCH);
      Register("cpu", Cpu(toNumber));
      Register("mem", Mem(toNumber));
      if instanceTypes != [] {
        Register("instance-type", InstanceType(instanceTypes));
        SetsOfNames();
        var r := RegisterConflicts(["cpu", "mem"], ["instance-type"]);
      }
    }
  }

  // ------------------------------------------------- the generic constraints

  const PLAIN := ConstraintType(None, s => Some(Text(s)), (a, b) => a == b, false)

  /** What every set starts with. */
  const BUILTIN: Registry := map["ubuntu-series" := PLAIN, "provider-type" := PLAIN]

  const ARCH := ConstraintType(Some("amd64"), ConvertArch, (a, b) => a == b, true)

  function Cpu(toNumber: string -> Option<real>): ConstraintType {
    ConstraintType(Some("1"), s => ConvertCpu(s, toNumber), AtLeast, true)
  }

  function Mem(toNumber: string -> Option<real>): ConstraintType {
    ConstraintType(Some("512M"), s => ConvertMem(s, toNumber), AtLeast, true)
  }

  function InstanceType(names: seq<string>): ConstraintType {
    ConstraintType(None, s => if s in names then Some(Text(s)) else None, (a, b) => a == b, true)
  }

  function GenericNames(types: bool): set<string> {
    {"arch", "cpu", "mem"} + if types then {"instance-type"} else {}
  }

  function WithGenerics(registry: Registry, names: seq<string>, toNumber: string -> Option<real>): Registry {
    var scalars := registry["arch" := ARCH]["cpu" := Cpu(toNumber)]["mem" := Mem(toNumber)];
    if names == [] then scalars else scalars["instance-type" := InstanceType(names)]
  }

  function GenericConflicts(conflicts: Conflicts, types: bool): Conflicts {
    var scalars := Registered(Registered(Registered(conflicts, "arch"), "cpu"), "mem");
    if types then WithConflicts(Registered(scalars, "instance-type"), {"cpu", "mem"}, {"instance-type"}) else scalars
  }

  /** No other constraint conflicts with any of these. */
  ghost predicate Detached(conflicts: Conflicts, names: set<string>) {
    forall n :: n in conflicts && n !in names ==> conflicts[n] !! names
  }

  /** Conflicts after registering the generic constraints, name by name. */
  lemma GenericConflictsAre(c: Conflicts, types: bool)
    ensures var d := GenericConflicts(c, types);
            && d.Keys == c.Keys + GenericNames(types)
            && d["arch"] == {}
            && d["cpu"] == d["mem"] == (if types then {"instance-type"} else {})
            && (types ==> d["instance-type"] == {"cpu", "mem"})
            && (forall n :: n in c && n !in GenericNames(types) ==> d[n] == c[n])
  {
    DistinctNames();
  }

  /** The table stays symmetric exactly when no other constraint conflicts with a generic one: without
      instance types, a set that had them before does not. */
  lemma GenericConflictsSymmetricIff(c: Conflicts, types: bool)
    requires Symmetric(c)
    ensures Symmetric(GenericConflicts(c, types)) <==> Detached(c, GenericNames(types))
  {
    var d, g := GenericConflicts(c, types), GenericNames(types);
    DistinctNames();
    GenericConflictsAre(c, types);
    hide GenericConflicts;
    forall a | a in g
      ensures d[a] <= g
    {
    }
    if Detached(c, g) {
      forall a, b | a in d && b in d[a]
        ensures b in d && a in d[b]
      {
        if a !in g { assert b !in g && a in c[b]; }
      }
    } else {
      var a :| a in c && a !in g && !(c[a] !! g);
      var b :| b in c[a] && b in g;
      assert b in d[a] && a !in d[b];
    }
  }

  /** Default arch, cpu and mem cost no compatibility, since instance types are unset by default. */
  lemma GenericsKeepDefaults(registry: Registry, c: Conflicts, names: seq<string>, toNumber: string -> Option<real>)
    requires registry.Keys == c.Keys && DefaultsCompatible(registry, c) && Detached(c, GenericNames(names != []))
    ensures DefaultsCompatible(WithGenerics(registry, names, toNumber), GenericConflicts(c, names != []))
  {
    var r, d, g := WithGenerics(registry, names, toNumber), GenericConflicts(c, names != []), GenericNames(names != []);
    GenericConflictsAre(c, names != []);
    GenericsAre(registry, names, toNumber);
    hide GenericConflicts, WithGenerics;
    forall a, b | a in d && b in d[a] && a in r && b in r
      ensures r[a].default_.None? || r[b].default_.None?
    {
      if a !in g {
        assert b in c[a] && b !in g && r[a] == registry[a] && r[b] == registry[b];
      }
    }
  }

  lemma GenericsAre(registry: Registry, names: seq<string>, toNumber: string -> Option<real>)
    ensures var r := WithGenerics(registry, names, toNumber);
            && r.Keys == registry.Keys + GenericNames(names != [])
            && (names != [] ==> r["instance-type"].default_.None?)
            && (forall n :: n in registry && n !in GenericNames(names != []) ==> r[n] == registry[n])
  {
    DistinctNames();
  }

  /** All comparers registered are reflexive and transitive. */
  lemma GenericsArePreorders(registry: Registry, names: seq<string>, toNumber: string -> Option<real>)
    requires ComparersArePreorders(registry)
    ensures ComparersArePreorders(WithGenerics(registry, names, toNumber))
  {
  }

  /** So with the generic constraints in place, collapsed layers are free of conflicts, a machine made for some
      complete constraints satisfies them, and satisfaction carries over. */
  lemma GenericSetIsSound(registry: Registry, c: Conflicts, names: seq<string>, toNumber: string -> Option<real>)
    requires registry.Keys == c.Keys && Symmetric(c)
    requires DefaultsCompatible(registry, c) && ComparersArePreorders(registry)
    requires Detached(c, GenericNames(names != []))
    ensures var r, d := WithGenerics(registry, names, toNumber), GenericConflicts(c, names != []);
            && (forall layers :: AreParsed(r, d, layers) ==> ConflictFree(r, d, Collapse(layers)))
            && (forall data :: Complete(r, data) ==> CanSatisfy(r, data, data))
            && (forall x, y, z :: CanSatisfy(r, x, y) && CanSatisfy(r, y, z) ==> CanSatisfy(r, x, z))
  {
    var r, d := WithGenerics(registry, names, toNumber), GenericConflicts(c, names != []);
    GenericsAre(registry, names, toNumber);
    GenericConflictsAre(c, names != []);
    hide Symmetric, DefaultsCompatible, ComparersArePreorders, Detached, WithGenerics, GenericConflicts, AreParsed,
      ConflictFree, Collapse, CanSatisfy, Complete;
    GenericConflictsSymmetricIff(c, names != []);
    GenericsKeepDefaults(registry, c, names, toNumber);
    GenericsArePreorders(registry, names, toNumber);
    CollapsedIsConflictFreeIff(r, d);
    forall data | Complete(r, data)
      ensures CanSatisfy(r, data, data)
    {
      SatisfiesItself(r, data);
    }
    forall x, y, z | CanSatisfy(r, x, y) && CanSatisfy(r, y, z)
      ensures CanSatisfy(r, x, z)
    {
      SatisfactionIsTransitive(r, x, y, z);
    }
  }

  // ------------------------------------------------------ what satisfying means

  /** The text of a setting; None is "any". */
  function Setting(data: Data, n: string, default_: Option<string>): Option<string> {
    if n in data then data[n] else default_
  }

  /** The number a cpu setting asks for or gives, if any. */
  function CpuOf(data: Data, toNumber: string -> Option<real>): Option<real> {
    match Setting(data, "cpu", Some("1"))
    case None => None
    case Some(text) =>
      match toNumber(text) case Some(x) => if x < 0.0 then None else Some(x) case None => None
  }

  /** The megabytes of a mem setting, if any. */
  function MemOf(data: Data, toNumber: string -> Option<real>): Option<real> {
    match Setting(data, "mem", Some("512M"))
    case None => None
    case Some(text) =>
      match ConvertMem(text, toNumber) case Some(Number(x)) => Some(x) case _ => None
  }

  /** A number is met by one that is at least as big. */
  predicate Meets(have: Option<real>, want: Option<real>) {
    want.Some? ==> have.Some? && have.value >= want.value
  }

  /** A text is met by the same text, if it is one of those allowed. */
  predicate SameText(have: Option<string>, want: Option<string>, allowed: seq<string>) {
    want.Some? && want.value in allowed ==> have == want
  }

  /** A machine satisfies a unit under the generic constraints exactly when: both are complete; provider and
      series are the same; the machine's cpu and mem are at least the unit's, where the unit cares; and arch
      and instance type are the unit's, where it cares. */
  lemma SatisfyingIff(names: seq<string>, toNumber: string -> Option<real>, machine: Data, unit_: Data)
    ensures CanSatisfy(WithGenerics(BUILTIN, names, toNumber), machine, unit_) <==>
              && Setting(machine, "provider-type", None).Some? && Setting(machine, "ubuntu-series", None).Some?
              && Setting(machine, "provider-type", None) == Setting(unit_, "provider-type", None)
              && Setting(machine, "ubuntu-series", None) == Setting(unit_, "ubuntu-series", None)
              && Meets(CpuOf(machine, toNumber), CpuOf(unit_, toNumber))
              && Meets(MemOf(machine, toNumber), MemOf(unit_, toNumber))
              && SameText(Setting(machine, "arch", Some("amd64")), Setting(unit_, "arch", Some("amd64")),
                          ["i386", "amd64", "arm"])
              && SameText(Setting(machine, "instance-type", None), Setting(unit_, "instance-type", None), names)
  {
    var r := WithGenerics(BUILTIN, names, toNumber);
    SatisfyingByName(names, toNumber, machine, unit_);
    GenericEntries(names, toNumber);
    hide WithGenerics, CanSatisfy;
    TextFails(r, machine, unit_, "provider-type");
    TextFails(r, machine, unit_, "ubuntu-series");
    CpuFails(names, toNumber, machine, unit_);
    MemFails(names, toNumber, machine, unit_);
    ArchFails(names, toNumber, machine, unit_);
    if names != [] { InstanceTypeFails(names, toNumber, machine, unit_); }
    hide CpuOf, MemOf, Meets, ConvertMem, ConvertArch, Fails, ValueOf;
    if names == [] {
      assert SameText(Setting(machine, "instance-type", None), Setting(unit_, "instance-type", None), names);
    }
  }

  lemma SatisfyingByName(names: seq<string>, toNumber: string -> Option<real>, machine: Data, unit_: Data)
    ensures var r := WithGenerics(BUILTIN, names, toNumber);
            && {"provider-type", "ubuntu-series", "arch", "cpu", "mem"} <= r.Keys
            && (names != [] ==> "instance-type" in r)
            && (CanSatisfy(r, machine, unit_) <==>
                  && Complete(r, machine) && Complete(r, unit_)
                  && !Fails(r, machine, unit_, "provider-type") && !Fails(r, machine, unit_, "ubuntu-series")
                  && !Fails(r, machine, unit_, "arch") && !Fails(r, machine, unit_, "cpu")
                  && !Fails(r, machine, unit_, "mem")
                  && (names != [] ==> !Fails(r, machine, unit_, "instance-type")))
  {
    GenericEntries(names, toNumber);
    hide WithGenerics, Fails, Complete;
  }

  lemma GenericEntries(names: seq<string>, toNumber: string -> Option<real>)
    ensures var r := WithGenerics(BUILTIN, names, toNumber);
            && r.Keys == {"ubuntu-series", "provider-type"} + GenericNames(names != [])
            && r["ubuntu-series"] == r["provider-type"] == PLAIN
            && r["arch"] == ARCH && r["cpu"] == Cpu(toNumber) && r["mem"] == Mem(toNumber)
            && (names != [] ==> r["instance-type"] == InstanceType(names))
  {
    DistinctNames();
    assert "ubuntu-series" != "provider-type" && "ubuntu-series" !in GenericNames(true)
           && "provider-type" !in GenericNames(true);
  }

  lemma TextFails(r: Registry, machine: Data, unit_: Data, n: string)
    requires n in r && r[n] == PLAIN
    ensures ValueOf(r, machine, n).Some? <==> Setting(machine, n, None).Some?
    ensures ValueOf(r, unit_, n).Some? <==> Setting(unit_, n, None).Some?
    ensures Fails(r, machine, unit_, n) <==>
              Setting(unit_, n, None).Some? && Setting(machine, n, None) != Setting(unit_, n, None)
  {
  }

  lemma CpuFails(names: seq<string>, toNumber: string -> Option<real>, machine: Data, unit_: Data)
    ensures var r := WithGenerics(BUILTIN, names, toNumber);
            "cpu" in r &&
            (Fails(r, machine, unit_, "cpu") <==> !Meets(CpuOf(machine, toNumber), CpuOf(unit_, toNumber)))
  {
    GenericEntries(names, toNumber);
    hide WithGenerics;
  }

  lemma MemFails(names: seq<string>, toNumber: string -> Option<real>, machine: Data, unit_: Data)
    ensures var r := WithGenerics(BUILTIN, names, toNumber);
            "mem" in r &&
            (Fails(r, machine, unit_, "mem") <==> !Meets(MemOf(machine, toNumber), MemOf(unit_, toNumber)))
  {
    GenericEntries(names, toNumber);
    hide WithGenerics;
  }

  lemma ArchFails(names: seq<string>, toNumber: string -> Option<real>, machine: Data, unit_: Data)
    ensures var r := WithGenerics(BUILTIN, names, toNumber);
            "arch" in r && (Fails(r, machine, unit_, "arch") <==>
              !SameText(Setting(machine, "arch", Some("amd64")), Setting(unit_, "arch", Some("amd64")),
                        ["i386", "amd64", "arm"]))
  {
    GenericEntries(names, toNumber);
    hide WithGenerics;
  }

  lemma InstanceTypeFails(names: seq<string>, toNumber: string -> Option<real>, machine: Data, unit_: Data)
    requires names != []
    ensures var r := WithGenerics(BUILTIN, names, toNumber);
            "instance-type" in r && (Fails(r, machine, unit_, "instance-type") <==>
              !SameText(Setting(machine, "instance-type", None), Setting(unit_, "instance-type", None), names))
  {
    GenericEntries(names, toNumber);
    hide WithGenerics;
  }

  /** mem values: megabytes as they are or with an M, gigabytes with a G, terabytes with a T; never negative. */
  lemma MemSuffixes(digits: string, toNumber: string -> Option<real>, x: real)
    requires digits != [] && digits[|digits| - 1] !in "MGT" && toNumber(digits) == Some(x)
    ensures x >= 0.0 ==>
      && ConvertMem(digits, toNumber) == Some(Number(x))
      && ConvertMem(digits + "M", toNumber) == Some(Number(x))
      && ConvertMem(digits + "G", toNumber) == Some(Number(1024.0 * x))
      && ConvertMem(digits + "T", toNumber) == Some(Number(1048576.0 * x))
    ensures x < 0.0 ==>
      ConvertMem(digits, toNumber).None? && ConvertMem(digits + "M", toNumber).None?
      && ConvertMem(digits + "G", toNumber).None? && ConvertMem(digits + "T", toNumber).None?
  {
    forall c: char
      ensures (digits + [c])[..|digits|] == digits && (digits + [c])[|digits|] == c
    {
    }
    assert digits + "M" == digits + ['M'] && digits + "G" == digits + ['G'] && digits + "T" == digits + ['T'];
  }

  // -------------------------------------------------------- what parsing means

  /** "name=text" sets the name, if it is known, for users to set, and the text converts: to the text, to
      nothing for "any", to the default for no text. Only the first "=" counts. */
  lemma ParseOneMeans(registry: Registry, name: string, text: string)
    requires '=' !in name
    ensures var r := ParseOne(registry, name + "=" + text);
            && (r.Ok? ==> r.value.0 == name && name in registry && registry[name].visible)
            && (r.Ok? ==> (text == "any" ==> r.value.1 == None)
                          && (text == "" ==> r.value.1 == registry[name].default_)
                          && (text != "any" && text != "" ==> r.value.1 == Some(text)))
            && (name in registry ==>
                  var c := registry[name];
                  && (text == "any" ==> r.Ok? == c.visible)
                  && (text == "" && c.default_.None? ==> r.Ok? == c.visible)
                  && (text == "" && c.default_.Some? ==> r.Ok? == (c.visible && c.convert(c.default_.value).Some?))
                  && (text != "any" && text != "" ==> r.Ok? == (c.visible && c.convert(text).Some?)))
            && (r == Err(UnknownConstraint) <==> name !in registry)
            && (r == Err(Computed) ==> !registry[name].visible)
            && r != Err(Uninterpretable)
  {
    Strings.FirstAt(name, '=', text);
    var s := name + ['='] + text;
    assert name + "=" + text == s && s[..|name|] == name && s[|name| + 1..] == text;
  }

  /** The string parses, and sets n. */
  predicate Sets(registry: Registry, s: string, n: string) {
    ParseOne(registry, s).Ok? && ParseOne(registry, s).value.0 == n
  }

  /** Every string must parse. */
  lemma {:induction false} AllParseIff(registry: Registry, data: Data, strs: seq<string>)
    ensures ParseAll(registry, data, strs).Ok? <==> forall i :: 0 <= i < |strs| ==> ParseOne(registry, strs[i]).Ok?
    decreases |strs|
  {
    hide ParseOne;
    if strs != [] {
      if ParseOne(registry, strs[0]).Ok? {
        var p := ParseOne(registry, strs[0]).value;
        AllParseIff(registry, data[p.0 := p.1], strs[1..]);
      }
      assert forall i :: 0 < i < |strs| ==> strs[i] == strs[1..][i - 1];
      assert forall i :: 0 <= i < |strs[1..]| ==> strs[1..][i] == strs[i + 1];
    }
  }

  /** A name that no string sets is as it was. */
  lemma {:induction false} NoneSets(registry: Registry, data: Data, strs: seq<string>, n: string)
    requires ParseAll(registry, data, strs).Ok?
    requires forall i :: 0 <= i < |strs| ==> !Sets(registry, strs[i], n)
    ensures var d := ParseAll(registry, data, strs).value; (n in d <==> n in data) && (n in d ==> d[n] == data[n])
    decreases |strs|
  {
    hide ParseOne;
    if strs != [] {
      assert !Sets(registry, strs[0], n);
      assert forall i :: 0 <= i < |strs[1..]| ==> strs[1..][i] == strs[i + 1];
      var p := ParseOne(registry, strs[0]).value;
      NoneSets(registry, data[p.0 := p.1], strs[1..], n);
    }
  }

  /** Of several strings for one name the last one counts. */
  lemma {:induction false} LastSets(registry: Registry, data: Data, strs: seq<string>, n: string, i: nat)
    requires ParseAll(registry, data, strs).Ok?
    requires i < |strs| && Sets(registry, strs[i], n) && forall j :: i < j < |strs| ==> !Sets(registry, strs[j], n)
    ensures var d := ParseAll(registry, data, strs).value; n in d && d[n] == ParseOne(registry, strs[i]).value.1
    decreases |strs|
  {
    hide ParseOne;
    var p := ParseOne(registry, strs[0]).value;
    assert forall j :: 0 <= j < |strs[1..]| ==> strs[1..][j] == strs[j + 1];
    if i == 0 {
      NoneSets(registry, data[p.0 := p.1], strs[1..], n);
    } else {
      assert strs[1..][i - 1] == strs[i];
      LastSets(registry, data[p.0 := p.1], strs[1..], n, i - 1);
    }
  }

  lemma DistinctNames()
    ensures "cpu" != "mem" && "cpu" != "instance-type" && "mem" != "instance-type"
    ensures "arch" != "cpu" && "arch" != "mem" && "arch" != "instance-type"
  {
  }

  lemma SetsOfNames()
    ensures (set x | x in ["cpu", "mem"]) == {"cpu", "mem"} && (set x | x in ["instance-type"]) == {"instance-type"}
  {
  }

  function ConvertArch(s: string): Option<Value> {
    if s in ["i386", "amd64", "arm"] then Some(Text(s)) else None
  }

  function NonNegative(x: Option<real>): Option<Value> {
    if x.Some? && x.value >= 0.0 then Some(Number(x.value)) else None
  }

  function ConvertCpu(s: string, toNumber: string -> Option<real>): Option<Value> {
    NonNegative(toNumber(s))
  }

  function ConvertMem(s: string, toNumber: string -> Option<real>): Option<Value> {
    if s == [] then None
    else
      var suffix := s[|s| - 1];
      var scale := if suffix == 'M' then 1.0 else if suffix == 'G' then 1024.0 else 1024.0 * 1024.0;
      if suffix !in "MGT" then NonNegative(toNumber(s))
      else match toNumber(s[..|s| - 1])
        case None => None
        case Some(x) => NonNegative(Some(x * scale))
  }

  predicate AtLeast(a: Value, b: Value) {
    a == b || (a.Number? && b.Number? && a.number >= b.number)
  }
}
