/** InternalTopology: the object of juju/state/topology.py whose mutators change one nested dictionary
    in place and whose lookups walk it. */
module InternalTopologies {
  import opened Wrappers
  import opened Text
  import opened Topology

  class InternalTopology {
    var state: State

    constructor ()
      ensures state == EMPTY && Inv(state)
    {
      state := EMPTY;
    }

    /** What a mutator did is what the operation does to the value, or nothing and an error. */
    ghost predicate Did(before: State, op: Op, r: Result<(), Error>)
      reads this
    {
      match Apply(before, op)
      case Ok(after) => r == Ok(()) && state == after
      case Err(e) => r == Err(e) && state == before
    }

    // -------------------------------------------------------------- machines

    method AddMachine(m: string) returns (r: Result<(), Error>)
      modifies this
      ensures Did(old(state), Op.AddMachine(m), r)
    {
      if m in state.machines { return Err(DuplicateMachine); }
      state := state.(machines := state.machines + {m});
      r := Ok(());
    }

    /** machine_has_units, for a known machine. */
    method MachineHasUnits(m: string) returns (r: Result<bool, Error>)
      ensures r == if m in state.machines then Ok(Topology.MachineHasUnits(state, m)) else Err(MachineNotFound)
    {
      if m !in state.machines { return Err(MachineNotFound); }
      var services := state.services.Keys;
      while services != {}
        invariant services <= state.services.Keys
        invariant forall s, u :: s !in services ==> !OnMachine(state, s, u, m)
        decreases |services|
      {
        var s :| s in services;
        var units := state.services[s].units.Keys;
        while units != {}
          invariant units <= state.services[s].units.Keys
          invariant forall u :: u !in units ==> !OnMachine(state, s, u, m)
          decreases |units|
        {
          var u :| u in units;
          if state.services[s].units[u].machine == Some(m) {
            assert OnMachine(state, s, u, m);
            return Ok(true);
          }
          units := units - {u};
        }
        services := services - {s};
      }
      r := Ok(false);
    }

    method RemoveMachine(m: string) returns (r: Result<(), Error>)
      modifies this
      ensures Did(old(state), Op.RemoveMachine(m), r)
    {
      var used := MachineHasUnits(m);
      if used.Err? { return Err(used.error); }
      if used.value { return Err(MachineInUse); }
      state := state.(machines := state.machines - {m});
      r := Ok(());
    }

    // -------------------------------------------------------------- services

    /** find_service_with_name */
    method FindServiceWithName(name: string) returns (r: Option<string>)
      ensures r.Some? ==> r.value in state.services && state.services[r.value].name == name
      ensures r.None? <==> !NameUsed(state, name)
      ensures NamesDistinct(state) ==> r == ServiceWithName(state, name)
    {
      var services := state.services.Keys;
      while services != {}
        invariant services <= state.services.Keys
        invariant forall s :: s in state.services && s !in services ==> state.services[s].name != name
        decreases |services|
      {
        var s :| s in services;
        if state.services[s].name == name { return Some(s); }
        services := services - {s};
      }
      r := None;
    }

    method AddService(s: string, name: string) returns (r: Result<(), Error>)
      modifies this
      ensures Did(old(state), Op.AddService(s, name), r)
    {
      if s in state.services { return Err(DuplicateService); }
      var taken := FindServiceWithName(name);
      if taken.Some? { return Err(NameInUse); }
      state := state.(services := state.services[s := Service(name, map[])]);
      if name !in state.unitSequence {
        state := state.(unitSequence := state.unitSequence[name := 0]);
      }
      r := Ok(());
    }

    /** get_relations_for_service: the ids of the relations listed. */
    method RelationsForService(s: string) returns (r: Result<set<string>, Error>)
      ensures r == if s in state.services then Ok(RelationsOf(state, s)) else Err(ServiceNotFound)
    {
      if s !in state.services { return Err(ServiceNotFound); }
      var found := {};
      var relations := state.relations.Keys;
      while relations != {}
        invariant relations <= state.relations.Keys
        invariant found == set x | x in state.relations && x !in relations && RelationHasService(state, x, s)
        decreases |relations|
      {
        var x :| x in relations;
        if s in state.relations[x].services { found := found + {x}; }
        relations := relations - {x};
      }
      assert found == RelationsOf(state, s);
      r := Ok(found);
    }

    method RemoveService(s: string) returns (r: Result<(), Error>)
      modifies this
      ensures Did(old(state), Op.RemoveService(s), r)
    {
      if s !in state.services { return Err(ServiceNotFound); }
      var relations := RelationsForService(s);
      if relations.value != {} {
        var x :| x in relations.value;
        assert RelationHasService(state, x, s);
        return Err(ServiceInRelation);
      }
      assert forall x :: RelationHasService(state, x, s) ==> x in relations.value;
      state := state.(services := state.services - {s});
      r := Ok(());
    }

    // ----------------------------------------------------------------- units

    /** get_service_unit_service; None stands for the error that the unit is not found. */
    method ServiceOfUnit(u: string) returns (r: Option<string>)
      ensures r.Some? ==> HasUnit(state, r.value, u)
      ensures r.None? <==> !UnitKnown(state, u)
    {
      var services := state.services.Keys;
      while services != {}
        invariant services <= state.services.Keys
        invariant forall s :: s !in services ==> !HasUnit(state, s, u)
        decreases |services|
      {
        var s :| s in services;
        if u in state.services[s].units {
          assert HasUnit(state, s, u);
          return Some(s);
        }
        services := services - {s};
      }
      r := None;
    }

    /** The walk of add_service_unit over the relations of a known service s, looking for a
        container-scoped one that the principal's service p shares. */
    method FindContainerRelation(s: string, p: string) returns (r: bool)
      requires s in state.services
      ensures r <==> exists x :: RelationHasService(state, x, s) && RelationHasService(state, x, p)
                                 && state.relations[x].scope == "container"
    {
      var listed := RelationsForService(s);
      var relations := listed.value;
      while relations != {}
        invariant relations <= listed.value
        invariant forall x :: x in listed.value && x !in relations ==>
          !(RelationHasService(state, x, p) && state.relations[x].scope == "container")
        decreases |relations|
      {
        var x :| x in relations;
        if p in state.relations[x].services && state.relations[x].scope == "container" {
          assert RelationHasService(state, x, s) && RelationHasService(state, x, p);
          return true;
        }
        relations := relations - {x};
      }
      assert forall x :: RelationHasService(state, x, s) ==> x in listed.value;
      r := false;
    }

    /** add_service_unit. With unit ids in one service only, the container's service is the one. */
    method AddServiceUnit(s: string, u: string, container: Option<string>) returns (r: Result<nat, Error>)
      requires UnitsDistinct(state)
      modifies this
      ensures match Apply(old(state), Op.AddServiceUnit(s, u, container))
              case Ok(after) => state == after && r == Ok(IssuedBy(old(state), Op.AddServiceUnit(s, u, container))[0].1)
              case Err(e) => state == old(state) && r == Err(e)
    {
      if s !in state.services { return Err(ServiceNotFound); }
      var owner := ServiceOfUnit(u);
      if owner.Some? { return Err(UnitExists); }
      if container.Some? {
        var principal := ServiceOfUnit(container.value);
        if principal.None? { return Err(UnitNotFound); }
        var found := FindContainerRelation(s, principal.value);
        assert found <==> ContainerRelated(state, s, container.value);
        if !found { return Err(NoContainerRelation); }
      }
      var name := state.services[s].name;
      if name !in state.unitSequence { return Err(NoSequence); }
      var sequence := state.unitSequence[name];
      state := WithUnit(state, s, u, UnitInfo(sequence, container, None));
      state := state.(unitSequence := state.unitSequence[name := sequence + 1]);
      r := Ok(sequence);
    }

    method RemoveServiceUnit(s: string, u: string) returns (r: Result<(), Error>)
      modifies this
      ensures Did(old(state), Op.RemoveServiceUnit(s, u), r)
    {
      if s !in state.services { return Err(ServiceNotFound); }
      if u !in state.services[s].units { return Err(UnitNotFound); }
      state := WithUnits(state, s, state.services[s].units - {u});
      r := Ok(());
    }

    method AssignUnit(s: string, u: string, m: string) returns (r: Result<(), Error>)
      modifies this
      ensures Did(old(state), Op.AssignUnit(s, u, m), r)
    {
      if s !in state.services { return Err(ServiceNotFound); }
      if u !in state.services[s].units { return Err(UnitNotFound); }
      if m !in state.machines { return Err(MachineNotFound); }
      var info := state.services[s].units[u];
      if info.machine.Some? { return Err(AlreadyAssigned); }
      state := WithUnit(state, s, u, info.(machine := Some(m)));
      r := Ok(());
    }

    method UnassignUnit(s: string, u: string) returns (r: Result<(), Error>)
      modifies this
      ensures Did(old(state), Op.UnassignUnit(s, u), r)
    {
      if s !in state.services { return Err(ServiceNotFound); }
      if u !in state.services[s].units { return Err(UnitNotFound); }
      var info := state.services[s].units[u];
      if info.machine.None? { return Err(NotAssigned); }
      state := WithUnit(state, s, u, info.(machine := None));
      r := Ok(());
    }

    // ------------------------------------------------------------- relations

    method AddRelation(x: string, interface_: string, scope: string) returns (r: Result<(), Error>)
      modifies this
      ensures Did(old(state), Op.AddRelation(x, interface_, scope), r)
    {
      if x in state.relations { return Err(DuplicateRelation); }
      state := state.(relations := state.relations[x := Relation(interface_, scope, map[])]);
      r := Ok(());
    }

    method RemoveRelation(x: string) returns (r: Result<(), Error>)
      modifies this
      ensures Did(old(state), Op.RemoveRelation(x), r)
    {
      if x !in state.relations { return Err(RelationNotFound); }
      state := state.(relations := state.relations - {x});
      r := Ok(());
    }

    /** assign_service_to_relation: one walk looks for the service itself and for its role. Which
        error comes first depends on the order of the walk when both apply. */
    method AssignService(x: string, s: string, name: string, role: string) returns (r: Result<(), Error>)
      modifies this
      ensures match Apply(old(state), Op.AssignService(x, s, name, role))
              case Ok(after) => r == Ok(()) && state == after
              case Err(e) => state == old(state) && r.Err?
                             && (r.error == e
                                 || (e == AlreadyInRelation && r.error == RoleTaken && RoleUsed(state, x, role)))
    {
      if s !in state.services { return Err(ServiceNotFound); }
      if x !in state.relations { return Err(RelationNotFound); }
      var members := state.relations[x].services;
      var todo := members.Keys;
      while todo != {}
        invariant todo <= members.Keys
        invariant forall t :: t in members && t !in todo ==> t != s && members[t].role != role
        decreases |todo|
      {
        var t :| t in todo;
        if t == s { return Err(AlreadyInRelation); }
        if members[t].role == role { return Err(RoleTaken); }
        todo := todo - {t};
      }
      state := WithMembers(state, x, members[s := RelationService(role, name)]);
      r := Ok(());
    }

    method UnassignService(x: string, s: string) returns (r: Result<(), Error>)
      modifies this
      ensures Did(old(state), Op.UnassignService(x, s), r)
    {
      if s !in state.services { return Err(ServiceNotFound); }
      if x !in state.relations { return Err(RelationNotFound); }
      if s !in state.relations[x].services { return Err(NotInRelation); }
      state := WithMembers(state, x, state.relations[x].services - {s});
      r := Ok(());
    }

    // ----------------------------------------------------------------- names

    /** find_service_unit_with_sequence */
    method FindUnitWithSequence(s: string, sequence: nat) returns (r: Option<string>)
      requires s in state.services && SequencesDistinct(state)
      ensures r == UnitWithSequence(state, s, sequence)
    {
      var units := state.services[s].units;
      var todo := units.Keys;
      while todo != {}
        invariant todo <= units.Keys
        invariant forall u :: u in units && u !in todo ==> units[u].sequence != sequence
        decreases |todo|
      {
        var u :| u in todo;
        if units[u].sequence == sequence {
          assert HasUnit(state, s, u);
          return Some(u);
        }
        todo := todo - {u};
      }
      r := None;
    }

    /** get_service_unit_name_from_id */
    method UnitNameFromId(u: string) returns (r: Result<string, Error>)
      requires UnitsDistinct(state)
      ensures r == NameFromId(state, u)
    {
      var s := ServiceOfUnit(u);
      if s.None? { return Err(UnitNotFound); }
      var info := state.services[s.value].units[u];
      r := Ok(UnitName(state.services[s.value].name, info.sequence));
    }

    /** get_service_unit_id_from_name */
    method UnitIdFromName(name: string) returns (r: Result<Option<string>, Error>)
      requires NamesDistinct(state) && SequencesDistinct(state)
      ensures r == IdFromName(state, name)
    {
      var parts := Split(name, '/');
      if |parts| != 2 || !IsNumber(parts[1]) { return Err(BadUnitName); }
      var s := FindServiceWithName(parts[0]);
      if s.None? { return Err(ServiceNotFound); }
      var u := FindUnitWithSequence(s.value, NumberOf(parts[1]));
      r := Ok(u);
    }
  }
}
