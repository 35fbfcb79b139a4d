/** The topology of juju/state/topology.py as a value: its entities, what every mutator does,
    and what all of them keep. */
module Topology {
  import opened Wrappers
  import opened Text

  datatype UnitInfo = UnitInfo(sequence: nat, container: Option<string>, machine: Option<string>)
  datatype Service = Service(name: string, units: map<string, UnitInfo>)
  datatype RelationService = RelationService(role: string, name: string)
  datatype Relation = Relation(interface_: string, scope: string, services: map<string, RelationService>)

  /** The nested dictionary; a missing section is an empty one. */
  datatype State = State(machines: set<string>, services: map<string, Service>,
                         unitSequence: map<string, nat>, relations: map<string, Relation>)

  const EMPTY := State({}, map[], map[], map[])

  datatype Error = DuplicateMachine | MachineNotFound | MachineInUse
                 | DuplicateService | NameInUse | ServiceNotFound | ServiceInRelation
                 | UnitExists | UnitNotFound | NoContainerRelation | NoSequence | AlreadyAssigned | NotAssigned
                 | DuplicateRelation | RelationNotFound | AlreadyInRelation | RoleTaken | NotInRelation
                 | BadUnitName

  datatype Op =
    | AddMachine(machine: string)
    | RemoveMachine(machine: string)
    | AddService(service: string, name: string)
    | RemoveService(service: string)
    | AddServiceUnit(service: string, unit_: string, container: Option<string>)
    | RemoveServiceUnit(service: string, unit_: string)
    | AssignUnit(service: string, unit_: string, machine: string)
    | UnassignUnit(service: string, unit_: string)
    | AddRelation(relation: string, interface_: string, scope: string)
    | RemoveRelation(relation: string)
    | AssignService(relation: string, service: string, name: string, role: string)
    | UnassignService(relation: string, service: string)

  // ------------------------------------------------------------------ lookups

  predicate HasUnit(st: State, s: string, u: string) {
    s in st.services && u in st.services[s].units
  }

  /** Unit u of service s sits on machine m. */
  predicate OnMachine(st: State, s: string, u: string, m: string) {
    HasUnit(st, s, u) && st.services[s].units[u].machine == Some(m)
  }

  ghost predicate MachineHasUnits(st: State, m: string) {
    exists s, u :: OnMachine(st, s, u, m)
  }

  ghost predicate NameUsed(st: State, name: string) {
    exists s :: s in st.services && st.services[s].name == name
  }

  ghost predicate UnitKnown(st: State, u: string) {
    exists s :: HasUnit(st, s, u)
  }

  predicate RelationHasService(st: State, r: string, s: string) {
    r in st.relations && s in st.relations[r].services
  }

  function RelationsOf(st: State, s: string): set<string> {
    set r | r in st.relations && s in st.relations[r].services
  }

  ghost predicate InSomeRelation(st: State, s: string) {
    exists r :: RelationHasService(st, r, s)
  }

  /** Some container-scoped relation joins service s and a service that has the unit `container`. */
  ghost predicate ContainerRelated(st: State, s: string, container: string) {
    exists r, p :: RelationHasService(st, r, s) && RelationHasService(st, r, p)
                   && HasUnit(st, p, container) && st.relations[r].scope == "container"
  }

  ghost predicate RoleUsed(st: State, r: string, role: string)
    requires r in st.relations
  {
    exists s :: s in st.relations[r].services && st.relations[r].services[s].role == role
  }

  // ----------------------------------------------------------------- mutators

  function WithUnits(st: State, s: string, units: map<string, UnitInfo>): State
    requires s in st.services
  {
    st.(services := st.services[s := st.services[s].(units := units)])
  }

  function WithUnit(st: State, s: string, u: string, info: UnitInfo): State
    requires s in st.services
  {
    WithUnits(st, s, st.services[s].units[u := info])
  }

  function WithMembers(st: State, r: string, services: map<string, RelationService>): State
    requires r in st.relations
  {
    st.(relations := st.relations[r := st.relations[r].(services := services)])
  }

  ghost function Apply(st: State, op: Op): Result<State, Error> {
    match op
    case AddMachine(m) =>
      if m in st.machines then Err(DuplicateMachine) else Ok(st.(machines := st.machines + {m}))
    case RemoveMachine(m) =>
      if m !in st.machines then Err(MachineNotFound)
      else if MachineHasUnits(st, m) then Err(MachineInUse)
      else Ok(st.(machines := st.machines - {m}))
    case AddService(s, name) =>
      if s in st.services then Err(DuplicateService)
      else if NameUsed(st, name) then Err(NameInUse)
      else Ok(st.(services := st.services[s := Service(name, map[])],
                  unitSequence := if name in st.unitSequence then st.unitSequence else st.unitSequence[name := 0]))
    case RemoveService(s) =>
      if s !in st.services then Err(ServiceNotFound)
      else if InSomeRelation(st, s) then Err(ServiceInRelation)
      else Ok(st.(services := st.services - {s}))
    case AddServiceUnit(s, u, container) =>
      if s !in st.services then Err(ServiceNotFound)
      else if UnitKnown(st, u) then Err(UnitExists)
      else if container.Some? && !UnitKnown(st, container.value) then Err(UnitNotFound)
      else if container.Some? && !ContainerRelated(st, s, container.value) then Err(NoContainerRelation)
      else
        var name := st.services[s].name;
        if name !in st.unitSequence then Err(NoSequence)
        else Ok(WithUnit(st, s, u, UnitInfo(st.unitSequence[name], container, None))
                .(unitSequence := st.unitSequence[name := st.unitSequence[name] + 1]))
    case RemoveServiceUnit(s, u) =>
      if s !in st.services then Err(ServiceNotFound)
      else if u !in st.services[s].units then Err(UnitNotFound)
      else Ok(WithUnits(st, s, st.services[s].units - {u}))
    case AssignUnit(s, u, m) =>
      if s !in st.services then Err(ServiceNotFound)
      else if u !in st.services[s].units then Err(UnitNotFound)
      else if m !in st.machines then Err(MachineNotFound)
      else if st.services[s].units[u].machine.Some? then Err(AlreadyAssigned)
      else Ok(WithUnit(st, s, u, st.services[s].units[u].(machine := Some(m))))
    case UnassignUnit(s, u) =>
      if s !in st.services then Err(ServiceNotFound)
      else if u !in st.services[s].units then Err(UnitNotFound)
      else if st.services[s].units[u].machine.None? then Err(NotAssigned)
      else Ok(WithUnit(st, s, u, st.services[s].units[u].(machine := None)))
    case AddRelation(r, interface_, scope) =>
      if r in st.relations then Err(DuplicateRelation)
      else Ok(st.(relations := st.relations[r := Relation(interface_, scope, map[])]))
    case RemoveRelation(r) =>
      if r !in st.relations then Err(RelationNotFound) else Ok(st.(relations := st.relations - {r}))
    case AssignService(r, s, name, role) =>
      if s !in st.services then Err(ServiceNotFound)
      else if r !in st.relations then Err(RelationNotFound)
      else if s in st.relations[r].services then Err(AlreadyInRelation)
      else if RoleUsed(st, r, role) then Err(RoleTaken)
      else Ok(WithMembers(st, r, st.relations[r].services[s := RelationService(role, name)]))
    case UnassignService(r, s) =>
      if s !in st.services then Err(ServiceNotFound)
      else if r !in st.relations then Err(RelationNotFound)
      else if s !in st.relations[r].services then Err(NotInRelation)
      else Ok(WithMembers(st, r, st.relations[r].services - {s}))
  }

  // ---------------------------------------------------------- the invariant

  /** Units sit on known machines. */
  ghost predicate MachinesExist(st: State) {
    forall s, u, m :: OnMachine(st, s, u, m) ==> m in st.machines
  }

  /** Services in relations are known. */
  ghost predicate MembersExist(st: State) {
    forall r, s :: RelationHasService(st, r, s) ==> s in st.services
  }

  ghost predicate NamesDistinct(st: State) {
    forall s, t :: s in st.services && t in st.services && st.services[s].name == st.services[t].name ==> s == t
  }

  /** A unit id lives in one service. */
  ghost predicate UnitsDistinct(st: State) {
    forall s, t, u :: HasUnit(st, s, u) && HasUnit(st, t, u) ==> s == t
  }

  /** Sequence numbers are below their service name's counter. */
  ghost predicate SequencesCounted(st: State) {
    && (forall s :: s in st.services ==> st.services[s].name in st.unitSequence)
    && (forall s, u :: HasUnit(st, s, u) ==> st.services[s].units[u].sequence < st.unitSequence[st.services[s].name])
  }

  /** ... and distinct within a service. */
  ghost predicate SequencesDistinct(st: State) {
    forall s, u, v ::
      HasUnit(st, s, u) && HasUnit(st, s, v) && st.services[s].units[u].sequence == st.services[s].units[v].sequence
      ==> u == v
  }

  ghost predicate RolesDistinct(st: State) {
    forall r, s, t ::
      RelationHasService(st, r, s) && RelationHasService(st, r, t)
      && st.relations[r].services[s].role == st.relations[r].services[t].role
      ==> s == t
  }

  ghost predicate Inv(st: State) {
    && MachinesExist(st) && MembersExist(st) && NamesDistinct(st) && UnitsDistinct(st)
    && SequencesCounted(st) && SequencesDistinct(st) && RolesDistinct(st)
  }

  lemma EmptyInv()
    ensures Inv(EMPTY)
  {
  }

  /** Only assignment and machine removal can matter to the machines of units. */
  lemma KeepsMachines(st: State, op: Op)
    requires MachinesExist(st) && Apply(st, op).Ok?
    ensures MachinesExist(Apply(st, op).value)
  {
    var t := Apply(st, op).value;
    forall s, u, m | OnMachine(t, s, u, m)
      ensures m in t.machines
    {
      if !(op.AssignUnit? && op.service == s && op.unit_ == u) {
        assert OnMachine(st, s, u, m);
        assert MachineHasUnits(st, m);
      }
    }
  }

  lemma KeepsMembers(st: State, op: Op)
    requires MembersExist(st) && Apply(st, op).Ok?
    ensures MembersExist(Apply(st, op).value)
  {
    var t := Apply(st, op).value;
    forall r, s | RelationHasService(t, r, s)
      ensures s in t.services
    {
      if !(op.AssignService? && op.relation == r && op.service == s) {
        assert RelationHasService(st, r, s);
        assert InSomeRelation(st, s);
      }
    }
  }

  lemma KeepsNames(st: State, op: Op)
    requires NamesDistinct(st) && Apply(st, op).Ok?
    ensures NamesDistinct(Apply(st, op).value)
  {
  }

  lemma KeepsUnits(st: State, op: Op)
    requires UnitsDistinct(st) && Apply(st, op).Ok?
    ensures UnitsDistinct(Apply(st, op).value)
  {
    var t := Apply(st, op).value;
    forall s, v, u | HasUnit(t, s, u) && HasUnit(t, v, u)
      ensures s == v
    {
      if !(op.AddServiceUnit? && op.unit_ == u) {
        assert HasUnit(st, s, u) && HasUnit(st, v, u);
      } else {
        assert !HasUnit(st, s, u) && !HasUnit(st, v, u);
      }
    }
  }

  /** A unit keeps its number, or is new and takes its service's counter. */
  lemma UnitAfter(st: State, op: Op, s: string, u: string)
    requires Apply(st, op).Ok? && HasUnit(Apply(st, op).value, s, u)
    ensures var t := Apply(st, op).value;
            && s in st.services && t.services[s].name == st.services[s].name
            && if HasUnit(st, s, u) then t.services[s].units[u].sequence == st.services[s].units[u].sequence
               else op.AddServiceUnit? && op.service == s && op.unit_ == u
                    && st.services[s].name in st.unitSequence
                    && t.services[s].units[u].sequence == st.unitSequence[st.services[s].name]
  {
  }

  lemma ServiceAfter(st: State, op: Op, s: string)
    requires Apply(st, op).Ok? && s in Apply(st, op).value.services
    ensures var t := Apply(st, op).value;
            if s in st.services then t.services[s].name == st.services[s].name
            else op.AddService? && t.services[s].name in t.unitSequence
  {
  }

  lemma KeepsSequences(st: State, op: Op)
    requires SequencesCounted(st) && SequencesDistinct(st) && Apply(st, op).Ok?
    ensures SequencesCounted(Apply(st, op).value) && SequencesDistinct(Apply(st, op).value)
  {
    hide Apply;
    var t := Apply(st, op).value;
    CountersGrow(st, op);
    forall s | s in t.services
      ensures t.services[s].name in t.unitSequence
    {
      ServiceAfter(st, op, s);
    }
    forall s, u | HasUnit(t, s, u)
      ensures t.services[s].units[u].sequence < t.unitSequence[t.services[s].name]
    {
      UnitAfter(st, op, s, u);
      if !HasUnit(st, s, u) {
        assert IssuedBy(st, op)[0] in IssuedBy(st, op);
      }
    }
    forall s, u, v | HasUnit(t, s, u) && HasUnit(t, s, v)
        && t.services[s].units[u].sequence == t.services[s].units[v].sequence
      ensures u == v
    {
      UnitAfter(st, op, s, u);
      UnitAfter(st, op, s, v);
    }
  }

  lemma KeepsRoles(st: State, op: Op)
    requires RolesDistinct(st) && Apply(st, op).Ok?
    ensures RolesDistinct(Apply(st, op).value)
  {
    var t := Apply(st, op).value;
    forall r, s, v | RelationHasService(t, r, s) && RelationHasService(t, r, v)
                     && t.relations[r].services[s].role == t.relations[r].services[v].role
      ensures s == v
    {
      if op.AssignService? && op.relation == r {
        assert !RoleUsed(st, r, op.role);
        if s != op.service { assert RelationHasService(st, r, s); }
        if v != op.service { assert RelationHasService(st, r, v); }
      } else {
        assert RelationHasService(st, r, s) && RelationHasService(st, r, v);
      }
    }
  }

  /** Every mutator keeps the joint invariant. */
  lemma ApplyKeepsInv(st: State, op: Op)
    requires Inv(st) && Apply(st, op).Ok?
    ensures Inv(Apply(st, op).value)
  {
    hide Apply, MachinesExist, MembersExist, NamesDistinct, UnitsDistinct, SequencesCounted, SequencesDistinct,
      RolesDistinct;
    KeepsMachines(st, op);
    KeepsMembers(st, op);
    KeepsNames(st, op);
    KeepsUnits(st, op);
    KeepsSequences(st, op);
    KeepsRoles(st, op);
  }

  // --------------------------------------------------------------- whole runs

  /** A failed operation leaves the topology alone. */
  ghost function After(st: State, op: Op): State {
    if Apply(st, op).Ok? then Apply(st, op).value else st
  }

  /** The service name and sequence number that an operation gives out. */
  ghost function IssuedBy(st: State, op: Op): seq<(string, nat)> {
    if op.AddServiceUnit? && Apply(st, op).Ok?
    then [(st.services[op.service].name, st.unitSequence[st.services[op.service].name])]
    else []
  }

  ghost function Issued(st: State, ops: seq<Op>): seq<(string, nat)>
    decreases |ops|
  {
    if ops == [] then [] else IssuedBy(st, ops[0]) + Issued(After(st, ops[0]), ops[1..])
  }

  ghost function Reached(st: State, ops: seq<Op>): State
    decreases |ops|
  {
    if ops == [] then st else Reached(After(st, ops[0]), ops[1..])
  }

  lemma {:induction false} RunKeepsInv(st: State, ops: seq<Op>)
    requires Inv(st)
    ensures Inv(Reached(st, ops))
    decreases |ops|
  {
    if ops != [] {
      if Apply(st, ops[0]).Ok? { ApplyKeepsInv(st, ops[0]); }
      RunKeepsInv(After(st, ops[0]), ops[1..]);
    }
  }

  /** Counters are never lost and never go down, not even when their service goes. */
  lemma CountersGrow(st: State, op: Op)
    ensures forall n :: n in st.unitSequence ==>
        n in After(st, op).unitSequence && st.unitSequence[n] <= After(st, op).unitSequence[n]
    ensures forall n, k :: (n, k) in IssuedBy(st, op) ==>
              n in st.unitSequence && k == st.unitSequence[n]
              && n in After(st, op).unitSequence && k < After(st, op).unitSequence[n]
  {
  }

  /** What a run gives out was not given out before it: it is at or above the counters at its start. */
  lemma {:induction false} IssuedIsFresh(st: State, ops: seq<Op>, n: string, k: nat)
    requires (n, k) in Issued(st, ops)
    ensures n in st.unitSequence ==> k >= st.unitSequence[n]
    decreases |ops|
  {
    CountersGrow(st, ops[0]);
    if (n, k) !in IssuedBy(st, ops[0]) {
      IssuedIsFresh(After(st, ops[0]), ops[1..], n, k);
    }
  }

  /** Over any run, removing and re-adding services included, no service name and sequence
      number is given out twice. */
  lemma {:induction false} NeverIssuedTwice(st: State, ops: seq<Op>, i: nat, j: nat)
    requires i < j < |Issued(st, ops)|
    ensures Issued(st, ops)[i] != Issued(st, ops)[j]
    decreases |ops|
  {
    var first := IssuedBy(st, ops[0]);
    var st' := After(st, ops[0]);
    var rest := Issued(st', ops[1..]);
    if i >= |first| {
      NeverIssuedTwice(st', ops[1..], i - |first|, j - |first|);
    } else {
      var (n, k) := rest[j - |first|];
      assert (n, k) in rest;
      IssuedIsFresh(st', ops[1..], n, k);
      CountersGrow(st, ops[0]);
      assert first[i] in first;
    }
  }

  /** "%s/%s" */
  function UnitName(service: string, sequence: nat): string {
    service + "/" + Decimal(sequence)
  }

  /** The user-visible name determines service name and sequence number, slashes or not. */
  lemma UnitNameIsInjective(s: string, i: nat, t: string, j: nat)
    requires UnitName(s, i) == UnitName(t, j)
    ensures s == t && i == j
  {
    DecimalHasNoSlash(i);
    DecimalHasNoSlash(j);
    LastAt(s, '/', Decimal(i));
    LastAt(t, '/', Decimal(j));
    var n := s + ['/'] + Decimal(i);
    assert n == UnitName(s, i) && n == t + ['/'] + Decimal(j);
    assert n[..|s|] == s && n[..|t|] == t;
    assert n[|s| + 1..] == Decimal(i) && n[|t| + 1..] == Decimal(j);
    NumberOfDecimal(i);
    NumberOfDecimal(j);
  }

  lemma DecimalHasNoSlash(i: nat)
    ensures '/' !in Decimal(i)
  {
    var d := Decimal(i);
    assert forall k :: 0 <= k < |d| ==> IsDigit(d[k]);
  }

  /** No unit name is ever issued twice. */
  lemma NoUnitNameTwice(ops: seq<Op>, i: nat, j: nat)
    requires i < j < |Issued(EMPTY, ops)|
    ensures var a, b := Issued(EMPTY, ops)[i], Issued(EMPTY, ops)[j]; UnitName(a.0, a.1) != UnitName(b.0, b.1)
  {
    var a, b := Issued(EMPTY, ops)[i], Issued(EMPTY, ops)[j];
    NeverIssuedTwice(EMPTY, ops, i, j);
    if UnitName(a.0, a.1) == UnitName(b.0, b.1) {
      UnitNameIsInjective(a.0, a.1, b.0, b.1);
    }
  }

  // ------------------------------------------------------------- unit names

  /** find_service_with_name: any service of that name. */
  ghost function ServiceWithName(st: State, name: string): (r: Option<string>)
    ensures r.Some? ==> r.value in st.services && st.services[r.value].name == name
    ensures r.None? ==> !NameUsed(st, name)
  {
    if NameUsed(st, name) then var s :| s in st.services && st.services[s].name == name; Some(s) else None
  }

  /** find_service_unit_with_sequence: any unit of that number. */
  ghost function UnitWithSequence(st: State, s: string, sequence: nat): (r: Option<string>)
    requires s in st.services
    ensures r.Some? ==> HasUnit(st, s, r.value) && st.services[s].units[r.value].sequence == sequence
    ensures r.None? ==> forall u :: HasUnit(st, s, u) ==> st.services[s].units[u].sequence != sequence
  {
    if exists u :: HasUnit(st, s, u) && st.services[s].units[u].sequence == sequence
    then var u :| HasUnit(st, s, u) && st.services[s].units[u].sequence == sequence; Some(u)
    else None
  }

  /** get_service_unit_name_from_id */
  ghost function NameFromId(st: State, u: string): Result<string, Error> {
    if UnitKnown(st, u) then
      var s :| HasUnit(st, s, u);
      Ok(UnitName(st.services[s].name, st.services[s].units[u].sequence))
    else Err(UnitNotFound)
  }

  /** get_service_unit_id_from_name; BadUnitName is the ValueError of unpacking or of int(). */
  ghost function IdFromName(st: State, name: string): Result<Option<string>, Error> {
    var parts := Split(name, '/');
    if |parts| != 2 || !IsNumber(parts[1]) then Err(BadUnitName)
    else
      match ServiceWithName(st, parts[0])
      case None => Err(ServiceNotFound)
      case Some(s) => Ok(UnitWithSequence(st, s, NumberOf(parts[1])))
  }

  /** Looking a unit's name up gives the unit back, exactly when the service name has no slash. */
  lemma NameLookupIff(st: State, s: string, u: string)
    requires Inv(st) && HasUnit(st, s, u)
    ensures NameFromId(st, u).Ok?
    ensures IdFromName(st, NameFromId(st, u).value) == Ok(Some(u)) <==> '/' !in st.services[s].name
  {
    var service := st.services[s].name;
    var sequence := st.services[s].units[u].sequence;
    var number := Decimal(sequence);
    assert NameFromId(st, u) == Ok(UnitName(service, sequence));
    assert UnitName(service, sequence) == service + ['/'] + number;
    DecimalHasNoSlash(sequence);
    NumberOfDecimal(sequence);
    SplitOne(number, '/');
    if '/' in service {
      SplitCounts(service, number);
    } else {
      SplitAt(service, '/', number);
      assert Split(UnitName(service, sequence), '/') == [service, number];
      var t := ServiceWithName(st, service);
      assert t == Some(s);
      var v := UnitWithSequence(st, s, sequence);
      assert v == Some(u);
    }
  }

  /** A slash in front makes three parts or more. */
  lemma SplitCounts(a: string, b: string)
    requires '/' in a
    ensures |Split(a + ['/'] + b, '/')| >= 3
  {
    var i := FirstOf(a, '/').value;
    assert a == a[..i] + ['/'] + a[i + 1..];
    var rest := a[i + 1..] + ['/'] + b;
    assert a + ['/'] + b == a[..i] + ['/'] + rest;
    SplitAt(a[..i], '/', rest);
    assert rest[|a[i + 1..]|] == '/';
    assert |Split(rest, '/')| >= 2;
  }
}
