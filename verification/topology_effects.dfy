/** What each topology mutator makes true and what it leaves as it was, said by lookups: every entry a reader
    can ask for is as before, except those the operation is about. */
module TopologyEffects {
  import opened Wrappers
  import opened Topology

  // ------------------------------------------------------------------ lookups

  predicate KnownMachine(st: State, m: string) { m in st.machines }

  function ServiceName(st: State, s: string): Option<string> {
    if s in st.services then Some(st.services[s].name) else None
  }

  /** The record of a unit: its sequence number, container and machine. */
  function Record(st: State, s: string, u: string): Option<UnitInfo> {
    if HasUnit(st, s, u) then Some(st.services[s].units[u]) else None
  }

  /** The next sequence number of a service name. */
  function Counter(st: State, name: string): Option<nat> {
    if name in st.unitSequence then Some(st.unitSequence[name]) else None
  }

  /** Interface and scope of a relation. */
  function Terms(st: State, r: string): Option<(string, string)> {
    if r in st.relations then Some((st.relations[r].interface_, st.relations[r].scope)) else None
  }

  /** What a relation records of a service: role and name. */
  function Member(st: State, r: string, s: string): Option<RelationService> {
    if RelationHasService(st, r, s) then Some(st.relations[r].services[s]) else None
  }

  /** The lookups are all there is to a topology. */
  lemma LookupsDecide(a: State, b: State)
    requires forall m :: KnownMachine(a, m) <==> KnownMachine(b, m)
    requires forall s :: ServiceName(a, s) == ServiceName(b, s)
    requires forall s, u :: Record(a, s, u) == Record(b, s, u)
    requires forall n :: Counter(a, n) == Counter(b, n)
    requires forall r :: Terms(a, r) == Terms(b, r)
    requires forall r, s :: Member(a, r, s) == Member(b, r, s)
    ensures a == b
  {
    assert a.machines == b.machines by {
      assert forall m :: m in a.machines <==> KnownMachine(a, m);
      assert forall m :: m in b.machines <==> KnownMachine(b, m);
    }
    CountersDecide(a, b);
    ServicesDecide(a, b);
    RelationsDecide(a, b);
  }

  lemma CountersDecide(a: State, b: State)
    requires forall n :: Counter(a, n) == Counter(b, n)
    ensures a.unitSequence == b.unitSequence
  {
    assert forall n :: n in a.unitSequence <==> Counter(a, n).Some?;
    assert forall n :: n in b.unitSequence <==> Counter(b, n).Some?;
    assert forall n :: n in a.unitSequence ==> a.unitSequence[n] == Counter(a, n).value;
  }

  lemma ServicesDecide(a: State, b: State)
    requires forall s :: ServiceName(a, s) == ServiceName(b, s)
    requires forall s, u :: Record(a, s, u) == Record(b, s, u)
    ensures a.services == b.services
  {
    assert forall s :: s in a.services <==> ServiceName(a, s).Some?;
    assert forall s :: s in b.services <==> ServiceName(b, s).Some?;
    forall s | s in a.services
      ensures a.services[s] == b.services[s]
    {
      var x, y := a.services[s].units, b.services[s].units;
      assert ServiceName(a, s) == ServiceName(b, s);
      forall u
        ensures u in x <==> u in y
        ensures u in x ==> x[u] == y[u]
      {
        assert Record(a, s, u) == Record(b, s, u);
      }
      assert x == y;
    }
  }

  lemma RelationsDecide(a: State, b: State)
    requires forall r :: Terms(a, r) == Terms(b, r)
    requires forall r, s :: Member(a, r, s) == Member(b, r, s)
    ensures a.relations == b.relations
  {
    assert forall r :: r in a.relations <==> Terms(a, r).Some?;
    assert forall r :: r in b.relations <==> Terms(b, r).Some?;
    forall r | r in a.relations
      ensures a.relations[r] == b.relations[r]
    {
      var x, y := a.relations[r].services, b.relations[r].services;
      assert Terms(a, r) == Terms(b, r);
      forall s
        ensures s in x <==> s in y
        ensures s in x ==> x[s] == y[s]
      {
        assert Member(a, r, s) == Member(b, r, s);
      }
      assert x == y;
    }
  }

  // ------------------------------------------------------------------ effects

  /** Machines are known by being added and until they are removed. */
  lemma MachinesAfter(st: State, op: Op, m: string)
    requires Apply(st, op).Ok?
    ensures KnownMachine(Apply(st, op).value, m) <==>
              op == AddMachine(m) || (KnownMachine(st, m) && op != RemoveMachine(m))
  {
  }

  /** Service names change only for the service added or removed. */
  lemma ServiceNameAfter(st: State, op: Op, s: string)
    requires Apply(st, op).Ok?
    ensures ServiceName(Apply(st, op).value, s) ==
              if op.AddService? && op.service == s then Some(op.name)
              else if op == RemoveService(s) then None
              else ServiceName(st, s)
  {
  }

  /** Unit records change only for the unit added, removed, assigned or unassigned, and go with their service. A
      new unit takes its service name's counter and the container it was given, and has no machine; assigning
      and unassigning change the machine alone. */
  lemma RecordAfter(st: State, op: Op, s: string, u: string)
    requires Apply(st, op).Ok?
    ensures var was, now := Record(st, s, u), Record(Apply(st, op).value, s, u);
            match op
            case AddServiceUnit(t, v, container) =>
              if t == s && v == u
              then was.None? && ServiceName(st, s).Some? && Counter(st, ServiceName(st, s).value).Some?
                   && now == Some(UnitInfo(Counter(st, ServiceName(st, s).value).value, container, None))
              else now == was
            case RemoveServiceUnit(t, v) => now == if t == s && v == u then None else was
            case RemoveService(t) => now == if t == s then None else was
            case AssignUnit(t, v, m) =>
              if t == s && v == u
              then was.Some? && was.value.machine.None? && now == Some(was.value.(machine := Some(m)))
              else now == was
            case UnassignUnit(t, v) =>
              if t == s && v == u
              then was.Some? && was.value.machine.Some? && now == Some(was.value.(machine := None))
              else now == was
            case _ => now == was
  {
  }

  /** A counter starts at 0 with its service name, goes up by one with each unit, and never goes away. */
  lemma CounterAfter(st: State, op: Op, n: string)
    requires Apply(st, op).Ok?
    ensures var was, now := Counter(st, n), Counter(Apply(st, op).value, n);
            match op
            case AddService(_, name) => now == if name == n && was.None? then Some(0) else was
            case AddServiceUnit(s, _, _) =>
              if ServiceName(st, s) == Some(n) then was.Some? && now == Some(was.value + 1) else now == was
            case _ => now == was
  {
  }

  /** Interface and scope change only for the relation added or removed. */
  lemma TermsAfter(st: State, op: Op, r: string)
    requires Apply(st, op).Ok?
    ensures Terms(Apply(st, op).value, r) ==
              if op.AddRelation? && op.relation == r then Some((op.interface_, op.scope))
              else if op == RemoveRelation(r) then None
              else Terms(st, r)
  {
  }

  /** Members change only for the pair assigned or unassigned, and go with their relation. */
  lemma MemberAfter(st: State, op: Op, r: string, s: string)
    requires Apply(st, op).Ok?
    ensures Member(Apply(st, op).value, r, s) ==
              if op.AssignService? && op.relation == r && op.service == s then Some(RelationService(op.role, op.name))
              else if op == UnassignService(r, s) || op == RemoveRelation(r) then None
              else Member(st, r, s)
  {
  }

  /** Exactly when each mutator goes through; otherwise it raises and changes nothing. */
  lemma AppliesIff(st: State, op: Op)
    ensures Apply(st, op).Ok? <==>
              match op
              case AddMachine(m) => !KnownMachine(st, m)
              case RemoveMachine(m) => KnownMachine(st, m) && forall s, u :: !OnMachine(st, s, u, m)
              case AddService(s, name) =>
                ServiceName(st, s).None? && forall t :: ServiceName(st, t) != Some(name)
              case RemoveService(s) => ServiceName(st, s).Some? && forall r :: Member(st, r, s).None?
              case AddServiceUnit(s, u, container) =>
                && ServiceName(st, s).Some? && Counter(st, ServiceName(st, s).value).Some?
                && (forall t :: Record(st, t, u).None?)
                && (container.Some? ==>
                      exists r, p :: && Member(st, r, s).Some? && Member(st, r, p).Some?
                                     && Record(st, p, container.value).Some?
                                     && Terms(st, r).value.1 == "container")
              case RemoveServiceUnit(s, u) => Record(st, s, u).Some?
              case AssignUnit(s, u, m) =>
                Record(st, s, u).Some? && KnownMachine(st, m) && Record(st, s, u).value.machine.None?
              case UnassignUnit(s, u) => Record(st, s, u).Some? && Record(st, s, u).value.machine.Some?
              case AddRelation(r, _, _) => Terms(st, r).None?
              case RemoveRelation(r) => Terms(st, r).Some?
              case AssignService(r, s, _, role) =>
                && ServiceName(st, s).Some? && Terms(st, r).Some? && Member(st, r, s).None?
                && forall t :: Member(st, r, t).Some? ==> Member(st, r, t).value.role != role
              case UnassignService(r, s) => ServiceName(st, s).Some? && Member(st, r, s).Some?
    ensures Apply(st, op).Err? ==> After(st, op) == st
  {
    match op
    case RemoveMachine(m) =>
      assert MachineHasUnits(st, m) <==> exists s, u :: OnMachine(st, s, u, m);
    case AddService(s, name) =>
      assert NameUsed(st, name) <==> exists t :: ServiceName(st, t) == Some(name) by {
        if NameUsed(st, name) {
          var t :| t in st.services && st.services[t].name == name;
          assert ServiceName(st, t) == Some(name);
        }
        if t :| ServiceName(st, t) == Some(name) { assert t in st.services; }
      }
    case RemoveService(s) => RelatedIff(st, s);
    case AddServiceUnit(s, u, container) =>
      KnownIff(st, u);
      if container.Some? {
        KnownIff(st, container.value);
        ContainerIff(st, s, container.value);
      }
    case AssignService(r, s, _, role) =>
      if r in st.relations { RoleIff(st, r, role); }
    case _ =>
  }

  /** Each error tells the truth about the topology it was raised on. */
  lemma ErrorSays(st: State, op: Op)
    requires Apply(st, op).Err?
    ensures match Apply(st, op).error
            case DuplicateMachine => op.AddMachine? && KnownMachine(st, op.machine)
            case MachineNotFound => (op.RemoveMachine? || op.AssignUnit?) && !KnownMachine(st, op.machine)
            case MachineInUse => op.RemoveMachine? && exists s, u :: OnMachine(st, s, u, op.machine)
            case DuplicateService => op.AddService? && ServiceName(st, op.service).Some?
            case NameInUse => op.AddService? && exists t :: ServiceName(st, t) == Some(op.name)
            case ServiceNotFound =>
              && !op.AddMachine? && !op.RemoveMachine? && !op.AddService? && !op.AddRelation? && !op.RemoveRelation?
              && ServiceName(st, op.service).None?
            case ServiceInRelation => op.RemoveService? && exists r :: Member(st, r, op.service).Some?
            case UnitExists => op.AddServiceUnit? && exists t :: Record(st, t, op.unit_).Some?
            case UnitNotFound =>
              if op.AddServiceUnit?
              then op.container.Some? && forall t :: Record(st, t, op.container.value).None?
              else (op.RemoveServiceUnit? || op.AssignUnit? || op.UnassignUnit?)
                   && Record(st, op.service, op.unit_).None?
            case NoContainerRelation =>
              op.AddServiceUnit? && op.container.Some? && !ContainerRelated(st, op.service, op.container.value)
            case NoSequence => op.AddServiceUnit? && ServiceName(st, op.service).Some?
                               && Counter(st, ServiceName(st, op.service).value).None?
            case AlreadyAssigned =>
              var was := if op.AssignUnit? then Record(st, op.service, op.unit_) else None;
              was.Some? && was.value.machine.Some?
            case NotAssigned =>
              var was := if op.UnassignUnit? then Record(st, op.service, op.unit_) else None;
              was.Some? && was.value.machine.None?
            case DuplicateRelation => op.AddRelation? && Terms(st, op.relation).Some?
            case RelationNotFound =>
              (op.RemoveRelation? || op.AssignService? || op.UnassignService?) && Terms(st, op.relation).None?
            case AlreadyInRelation => op.AssignService? && Member(st, op.relation, op.service).Some?
            case RoleTaken =>
              op.AssignService? && exists t :: Member(st, op.relation, t).Some?
                                               && Member(st, op.relation, t).value.role == op.role
            case NotInRelation => op.UnassignService? && Member(st, op.relation, op.service).None?
            case BadUnitName => false
  {
    match op
    case AddService(_, name) =>
      if t :| t in st.services && st.services[t].name == name { assert ServiceName(st, t) == Some(name); }
    case RemoveService(s) => RelatedIff(st, s);
    case AddServiceUnit(_, u, container) =>
      KnownIff(st, u);
      if container.Some? { KnownIff(st, container.value); }
    case AssignService(r, _, _, role) => if r in st.relations { RoleIff(st, r, role); }
    case _ =>
  }

  lemma RelatedIff(st: State, s: string)
    ensures InSomeRelation(st, s) <==> exists r :: Member(st, r, s).Some?
  {
    if InSomeRelation(st, s) {
      var r :| RelationHasService(st, r, s);
      assert Member(st, r, s).Some?;
    }
    if r :| Member(st, r, s).Some? { assert RelationHasService(st, r, s); }
  }

  lemma KnownIff(st: State, u: string)
    ensures UnitKnown(st, u) <==> exists s :: Record(st, s, u).Some?
  {
    if UnitKnown(st, u) {
      var s :| HasUnit(st, s, u);
      assert Record(st, s, u).Some?;
    }
    if s :| Record(st, s, u).Some? { assert HasUnit(st, s, u); }
  }

  lemma ContainerIff(st: State, s: string, c: string)
    ensures ContainerRelated(st, s, c) <==>
              exists r, p :: && Member(st, r, s).Some? && Member(st, r, p).Some?
                             && Record(st, p, c).Some? && Terms(st, r).value.1 == "container"
    ensures ContainerRelated(st, s, c) ==> UnitKnown(st, c)
  {
    if ContainerRelated(st, s, c) {
      var r, p :| RelationHasService(st, r, s) && RelationHasService(st, r, p)
                  && HasUnit(st, p, c) && st.relations[r].scope == "container";
      assert Member(st, r, s).Some? && Member(st, r, p).Some? && Record(st, p, c).Some?;
    }
    if r, p :| && Member(st, r, s).Some? && Member(st, r, p).Some?
               && Record(st, p, c).Some? && Terms(st, r).value.1 == "container" {
      assert RelationHasService(st, r, s) && RelationHasService(st, r, p) && HasUnit(st, p, c);
    }
  }

  lemma RoleIff(st: State, r: string, role: string)
    requires r in st.relations
    ensures RoleUsed(st, r, role) <==> exists t :: Member(st, r, t).Some? && Member(st, r, t).value.role == role
  {
    if RoleUsed(st, r, role) {
      var t :| t in st.relations[r].services && st.relations[r].services[t].role == role;
      assert Member(st, r, t).Some?;
    }
    if t :| Member(st, r, t).Some? && Member(st, r, t).value.role == role {
      assert t in st.relations[r].services;
    }
  }
}
