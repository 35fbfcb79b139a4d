/** The workflow of one relation of a unit: the RelationWorkflow table and actions of juju/unit/workflow.py,
    driving the watcher and the hook scheduler of UnitRelationLifecycle in juju/unit/lifecycle.py. */
module RelationWorkflow {
  import opened Wrappers
  import opened StateMachine
  import Runs = StateMachineRuns

  /** Unset is the state before the first transition. */
  datatype State = Unset | Up | Down | InError | Departed

  datatype Id = DoStart | DoStop | DoRestart | DoError | DoReset | DoDepart | DoDownDepart | DoErrorDepart

  type Edge = Transition<State, Id>

  const TRANSITIONS: seq<Edge> := [
    Transition(DoStart, Unset, Up, None, true, None),
    Transition(DoStop, Up, Down, None, false, None),
    Transition(DoRestart, Down, Up, None, false, Some("retry")),
    Transition(DoError, Up, InError, None, false, None),
    Transition(DoReset, InError, Up, None, false, None),
    Transition(DoDepart, Up, Departed, None, false, None),
    Transition(DoDownDepart, Down, Departed, None, false, None),
    Transition(DoErrorDepart, InError, Departed, None, false, None)]

  const TABLE: Table<State, Id> := Build(TRANSITIONS)

  function Source(id: Id): State {
    match id
    case DoStart => Unset
    case DoStop | DoError | DoDepart => Up
    case DoRestart | DoDownDepart => Down
    case DoReset | DoErrorDepart => InError
  }

  function Destination(id: Id): State {
    match id
    case DoStart | DoRestart | DoReset => Up
    case DoStop => Down
    case DoError => InError
    case DoDepart | DoDownDepart | DoErrorDepart => Departed
  }

  function TransitionOf(id: Id): Edge {
    match id
    case DoStart => TRANSITIONS[0] case DoStop => TRANSITIONS[1]
    case DoRestart => TRANSITIONS[2] case DoError => TRANSITIONS[3]
    case DoReset => TRANSITIONS[4] case DoDepart => TRANSITIONS[5]
    case DoDownDepart => TRANSITIONS[6] case DoErrorDepart => TRANSITIONS[7]
  }

  lemma Endpoints(id: Id)
    ensures var t := TransitionOf(id);
            && t in TRANSITIONS && t.id == id && t.source == Source(id) && t.destination == Destination(id)
            && t.error.None? && (t.automatic <==> id == DoStart)
  {
  }

  lemma Endpoint(t: Edge)
    requires t in TRANSITIONS
    ensures t == TransitionOf(t.id)
  {
  }

  lemma TableEdges()
    ensures Valid(TABLE)
    ensures forall id :: id in TABLE.transitions && TABLE.transitions[id] == TransitionOf(id)
    ensures forall s, id :: Available(TABLE, s, id) <==> s == TransitionOf(id).source
  {
    hide Build, Valid, Available, TRANSITIONS, TransitionOf;
    forall t | t in TRANSITIONS
      ensures t == TransitionOf(t.id)
    {
      Endpoint(t);
    }
    forall id
      ensures TransitionOf(id) in TRANSITIONS && TransitionOf(id).id == id
    {
      Endpoints(id);
    }
    TotalTable(TRANSITIONS, TransitionOf);
  }

  /** What the built table holds. */
  lemma TableHolds()
    ensures Valid(TABLE)
    ensures forall id :: id in TABLE.transitions
                         && TABLE.transitions[id].source == Source(id)
                             && TABLE.transitions[id].destination == Destination(id)
                         && TABLE.transitions[id].error.None?
    ensures forall s, id :: Available(TABLE, s, id) <==> s == Source(id)
    ensures forall s :: s in TABLE.sources
    ensures forall s :: Automatic(TABLE, s) == if s == Unset then Some(DoStart) else None
  {
    TableEdges();
    hide TABLE, TRANSITIONS, Automatic, TransitionOf;
    forall id
      ensures TransitionOf(id).source == Source(id) && TransitionOf(id).destination == Destination(id)
      ensures TransitionOf(id).error.None? && (TransitionOf(id).automatic <==> id == DoStart)
    {
      Endpoints(id);
    }
    forall s
      ensures s in TABLE.sources && Automatic(TABLE, s) == if s == Unset then Some(DoStart) else None
    {
      var id := match s case Unset => DoStart case Up => DoStop case Down => DoRestart
          case InError => DoReset case Departed => DoDepart;
      assert s == Source(id) || s == Destination(id);
      AutomaticIs(TABLE, s, if s == Unset then Some(DoStart) else None);
    }
  }

  /** No transition leads back to the initial state and none has an error transition, so at most the
      first firing is followed by another. */
  lemma TableIsAcyclic()
    ensures Acyclic(TABLE)
  {
    hide TABLE, TRANSITIONS;
    TableHolds();
    var rank: Id -> nat := id => 0;
    assert Ranked(TABLE, rank);
    AcyclicIff(TABLE);
  }

  /** In the relation workflow transition_state always keeps its word: true means that the state asked for
      is reached. */
  lemma TrueMeansThereInRelation(saved: Saved<State, Id>, target: State)
    ensures Valid(TABLE) && Acyclic(TABLE) && TrueMeansThere(TABLE, saved, target)
  {
    hide TABLE, TRANSITIONS, FirstTo, Automatic, Acyclic, TrueMeansThere;
    TableHolds();
    TableIsAcyclic();
    TrueMeansThereIff(TABLE, saved, target);
    var edge := FirstTo(TABLE, TABLE.sources[saved.state], target);
    if edge.Some? {
      assert Available(TABLE, saved.state, edge.value);
    }
  }

  // ------------------------------------------------------------- the lifecycle

  /** Is the watcher running, and the scheduler? */
  datatype Flags = Flags(watching: bool, executing: bool)

  function Started(f: Flags, watches: bool, scheduler: bool): Flags {
    Flags(f.watching || watches, f.executing || scheduler)
  }

  function Stopped(f: Flags, watches: bool): Flags {
    Flags(f.watching && !watches, false)
  }

  /** What the do_ method of a transition makes of the flags. None of them fails: the one hook they
      run, on departure, has its errors caught. */
  function Act(id: Id, f: Flags): Flags {
    match id
    case DoStart | DoRestart => Started(f, true, true)
    case DoReset => Started(f, false, true)
    case DoStop => Stopped(f, true)
    case DoError => Stopped(f, false)
    case DoDepart | DoDownDepart | DoErrorDepart => Stopped(f, true)
  }

  /** The flags that synchronize sets up for a state. */
  function Expected(s: State): Flags {
    Flags(s == Up || s == InError, s == Up)
  }

  class UnitRelationLifecycle {
    var watching: bool
    var executing: bool

    constructor ()
      ensures !watching && !executing
    {
      watching, executing := false, false;
    }

    function Value(): Flags
      reads this
    {
      Flags(watching, executing)
    }

    method Start(startWatches: bool, startScheduler: bool)
      modifies this
      ensures Value() == Started(old(Value()), startWatches, startScheduler)
    {
      if startScheduler && !executing { executing := true; }
      if startWatches && !watching { watching := true; }
    }

    method Stop(stopWatches: bool)
      modifies this
      ensures Value() == Stopped(old(Value()), stopWatches)
    {
      if stopWatches && watching { watching := false; }
      if executing { executing := false; }
    }

    /** The do_ methods of RelationWorkflowState. */
    method Do(id: Id)
      modifies this
      ensures Value() == Act(id, old(Value()))
    {
      match id {
        case DoStart | DoRestart => Start(true, true);
        case DoReset => Start(false, true);
        case DoStop => Stop(true);
        case DoError => Stop(false);
        case DoDepart | DoDownDepart | DoErrorDepart => Stop(true);
      }
    }

    /** The part of synchronize before the transition in flight is taken up. */
    method Prepare(s: State)
      modifies this
      ensures Value() == Expected(s)
    {
      var watches, scheduler;
      match s {
        case Up => watches, scheduler := true, true;
        case Unset | Down | Departed => watches, scheduler := false, false;
        case InError => watches, scheduler := true, false;
      }
      Stop(true);
      if watches || scheduler { Start(watches, scheduler); }
    }
  }

  /** A workflow and its lifecycle, moved together while the workflow lock is held. */
  class RelationWorkflowState {
    const workflow: WorkflowState<State, Id>
    const lifecycle: UnitRelationLifecycle

    constructor (workflow: WorkflowState<State, Id>, lifecycle: UnitRelationLifecycle)
      ensures this.workflow == workflow && this.lifecycle == lifecycle
    {
      this.workflow, this.lifecycle := workflow, lifecycle;
    }

    /** Nothing in flight, and the flags of the state. */
    ghost predicate AtRest()
      reads workflow, lifecycle
    {
      workflow.table == TABLE && workflow.saved.inflight.None? && lifecycle.Value() == Expected(workflow.saved.state)
    }

    /** fire_transition, with its action carried out. */
    method FireTransition(id: Id, variables: Variables) returns (r: Result<bool, StateMachine.Error>)
      requires workflow.table == TABLE && lifecycle.Value() == Expected(workflow.saved.state)
      modifies workflow, lifecycle
      ensures if Source(id) == old(workflow.saved.state)
              then r == Ok(true) && workflow.saved == Saved(Destination(id), variables, None) && AtRest()
              else r == Err(InvalidTransition) && workflow.saved == old(workflow.saved) && unchanged(lifecycle)
    {
      hide TABLE, TRANSITIONS;
      TableHolds();
      if !Available(workflow.table, workflow.saved.state, id) { return Err(InvalidTransition); }
      workflow.SetInflight(Some(id));
      lifecycle.Do(id);
      workflow.SetState(Destination(id), variables);
      var next := workflow.FindAutomatic();
      assert next.None?;
      r := Ok(true);
    }

    /** transition_state: the first edge to the target, if there is one. */
    method TransitionState(target: State) returns (r: bool)
      requires AtRest()
      modifies workflow, lifecycle
      ensures AtRest()
      ensures r <==> exists id :: Source(id) == old(workflow.saved.state) && Destination(id) == target
      ensures workflow.saved.state == if r then target else old(workflow.saved.state)
    {
      hide TABLE, TRANSITIONS;
      TableHolds();
      var ids := workflow.table.sources[workflow.saved.state];
      for i := 0 to |ids|
        invariant AtRest() && workflow.saved == old(workflow.saved)
        invariant forall k :: 0 <= k < i ==> Destination(ids[k]) != target
      {
        assert Available(TABLE, workflow.saved.state, ids[i]);
        if workflow.table.transitions[ids[i]].destination == target {
          var fired := FireTransition(ids[i], map[]);
          return true;
        }
      }
      assert forall id :: Available(TABLE, workflow.saved.state, id) ==> id in ids;
      r := false;
    }

    /** on_hook_error: taken up in the up state only. */
    method OnHookError(variables: Variables) returns (r: Result<bool, StateMachine.Error>)
      requires AtRest()
      modifies workflow, lifecycle
      ensures AtRest()
      ensures if old(workflow.saved.state) == Up then r == Ok(true) && workflow.saved == Saved(InError, variables, None)
              else r == Err(InvalidTransition) && workflow.saved == old(workflow.saved)
    {
      r := FireTransition(DoError, variables);
    }

    /** synchronize: from any record with a fitting transition in flight, and whatever was running. */
    method Synchronize()
      requires workflow.table == TABLE && InflightFits(TABLE, workflow.saved)
      modifies workflow, lifecycle
      ensures AtRest()
      ensures workflow.saved.state ==
                match old(workflow.saved).inflight
                case Some(id) => Destination(id)
                case None => if old(workflow.saved.state) == Unset then Up else old(workflow.saved.state)
    {
      hide TABLE, TRANSITIONS;
      TableHolds();
      lifecycle.Prepare(workflow.saved.state);
      var next := workflow.saved.inflight;
      if next.None? { next := workflow.FindAutomatic(); }
      if next.Some? { var fired := FireTransition(next.value, map[]); }
    }
  }

  // ------------------------------------------------------------------ the runs

  /** Rebuilt: the process came back after the service relation had gone, and made the workflow anew without
      synchronizing it. Departing: the service relation is gone, hooks are stopped, and the depart transition
      is still to come. ShuttingDown: the process is ending and the lifecycle was stopped under the workflow. */
  datatype Phase = Normal | Rebuilt | Departing | ShuttingDown

  datatype Relation = Relation(engine: Runs.Machine<State, Id>, flags: Flags, phase: Phase)

  datatype Event =
    | HookError(variables: Variables)
    | UnitStops
    | UnitStarts
    | Resolved
    | DepartBegins
    | DepartFires
    | ShutDown
    | Work(variables: Variables)
    | Crash
    | CrashAndRebuild

  function StateOf(r: Relation): State { r.engine.saved.state }

  predicate Unlocked(r: Relation) { r.engine.pc.Idle? }

  /** transition_state: the first edge to the target, if there is one. */
  function Toward(s: State, target: State): Option<Id>
    requires s in TABLE.sources && Valid(TABLE)
  {
    FirstTo(TABLE, TABLE.sources[s], target)
  }

  ghost function Call(r: Relation, id: Option<Id>, variables: Variables): Relation {
    match id case None => r case Some(id) => r.(engine := Runs.Next(TABLE, r.engine, Runs.Call(id, variables)))
  }

  ghost function CallToward(r: Relation, target: State): Relation {
    TableHolds();
    Call(r, Toward(StateOf(r), target), map[])
  }

  /** The unit lifecycle still treats the relation as one of its own. */
  predicate Current(r: Relation) { r.phase.Normal? || r.phase.Rebuilt? }

  predicate InErrorTransition(pc: Runs.Pc<Id>) {
    !pc.Idle? && pc.id == DoError
  }

  predicate IsDepart(id: Id) {
    Destination(id) == Departed
  }

  /** One atomic step. The unit lifecycle's run lock keeps its own callbacks apart; a hook error only
      waits for the workflow lock. */
  ghost function Next(r: Relation, e: Event): Relation {
    match e
    case HookError(variables) => if Unlocked(r) then Call(r, Some(DoError), variables) else r
    case UnitStops => if Unlocked(r) && Current(r) then CallToward(r, Down) else r
    case UnitStarts =>
      if Unlocked(r) && Current(r) && StateOf(r) == Down then CallToward(r, Up) else r
    case Resolved =>
      if Unlocked(r) && Current(r) && StateOf(r) != Up then CallToward(r, Up) else r
    case DepartBegins =>
      if Current(r) && (Unlocked(r) || InErrorTransition(r.engine.pc))
      then r.(flags := Stopped(r.flags, true), phase := Departing) else r
    case DepartFires =>
      if !Unlocked(r) || !r.phase.Departing? then r
      else
        TableHolds();
        if Toward(StateOf(r), Departed).None? then r.(phase := Normal) else CallToward(r, Departed)
    case ShutDown =>
      if Current(r) then r.(flags := Stopped(r.flags, true), phase := ShuttingDown) else r
    case Work(variables) =>
      (match r.engine.pc
       case Idle => r
       case Checking(_, _) => r.(engine := Runs.Next(TABLE, r.engine, Runs.Check))
       case Acting(id, _) =>
         Relation(Runs.Next(TABLE, r.engine, Runs.Finish(Done(variables))), Act(id, r.flags),
                  if IsDepart(id) && r.phase.Departing? then Normal else r.phase))
    case Crash => Relation(Runs.Next(TABLE, r.engine, Runs.Restart), Expected(StateOf(r)), Normal)
    case CrashAndRebuild => Relation(r.engine.(pc := Runs.Idle), Flags(false, false), Rebuilt)
  }

  ghost function Run(r: Relation, events: seq<Event>): Relation
    decreases |events|
  {
    if events == [] then r else Run(Next(r, events[0]), events[1..])
  }

  /** A process that has just started on a stored record. */
  ghost function Boot(saved: Saved<State, Id>): Relation {
    Next(Relation(Runs.Start(saved), Flags(false, false), Normal), Crash)
  }

  /** Nothing runs in f that does not run in g. */
  predicate Within(f: Flags, g: Flags) {
    (f.watching ==> g.watching) && (f.executing ==> g.executing)
  }

  /** While unlocked the flags are those of the state; a running action started from those of its source. */
  ghost predicate Inv(r: Relation) {
    && Runs.MarkerFits(TABLE, r.engine)
    && (!r.engine.pc.Idle? && r.engine.pc.id != DoError ==> Source(r.engine.pc.id) == StateOf(r))
    && (r.engine.pc.Acting? ==> Source(r.engine.pc.id) == StateOf(r))
    && (r.phase.Normal? ==> r.flags == Expected(StateOf(r)))
    && (r.phase.Rebuilt? ==> Within(r.flags, Expected(StateOf(r))))
    && (r.phase.Departing? ==>
          && r.flags == Flags(false, false)
          && (r.engine.pc.Idle? || InErrorTransition(r.engine.pc) || IsDepart(r.engine.pc.id)))
  }

  lemma CallKeeps(r: Relation, id: Id, variables: Variables)
    requires Inv(r) && Unlocked(r)
    requires (id == DoError || (Source(id) == StateOf(r) && (r.phase.Departing? ==> IsDepart(id))))
    ensures Inv(Call(r, Some(id), variables))
  {
  }

  lemma TowardKeeps(r: Relation, target: State)
    requires Inv(r) && Unlocked(r) && (r.phase.Departing? ==> target == Departed)
    ensures Inv(CallToward(r, target))
  {
    hide TABLE, TRANSITIONS;
    TableHolds();
    var id := Toward(StateOf(r), target);
    if id.Some? {
      assert Available(TABLE, StateOf(r), id.value);
      CallKeeps(r, id.value, map[]);
    }
  }

  lemma WorkKeeps(r: Relation, variables: Variables)
    requires Inv(r)
    ensures Inv(Next(r, Work(variables)))
  {
    match r.engine.pc
    case Checking(_, _) => CheckKeeps(r, variables);
    case Acting(_, _) => ActKeeps(r, variables);
    case Idle =>
  }

  lemma CheckKeeps(r: Relation, variables: Variables)
    requires Inv(r) && r.engine.pc.Checking?
    ensures Inv(Next(r, Work(variables)))
  {
    hide TABLE, TRANSITIONS;
    TableHolds();
    Runs.NextKeepsMarker(TABLE, r.engine, Runs.Check);
  }

  lemma ActKeeps(r: Relation, variables: Variables)
    requires Inv(r) && r.engine.pc.Acting?
    ensures Inv(Next(r, Work(variables)))
  {
    hide TABLE, TRANSITIONS;
    TableHolds();
    Runs.NextKeepsMarker(TABLE, r.engine, Runs.Finish(Done(variables)));
  }

  lemma CrashKeeps(r: Relation)
    requires Runs.MarkerFits(TABLE, r.engine)
    ensures Inv(Next(r, Crash))
  {
    hide TABLE, TRANSITIONS;
    TableHolds();
    Runs.NextKeepsMarker(TABLE, r.engine, Runs.Restart);
  }

  lemma NextKeeps(r: Relation, e: Event)
    requires Inv(r)
    ensures Inv(Next(r, e))
  {
    match e
    case HookError(variables) => if Unlocked(r) { CallKeeps(r, DoError, variables); }
    case UnitStops => if Unlocked(r) && Current(r) { TowardKeeps(r, Down); }
    case UnitStarts => if Unlocked(r) && Current(r) { TowardKeeps(r, Up); }
    case Resolved => if Unlocked(r) && Current(r) { TowardKeeps(r, Up); }
    case DepartBegins =>
    case DepartFires =>
      if Unlocked(r) && r.phase.Departing? {
        TowardKeeps(r, Departed);
        StaysPut(StateOf(r));
      }
    case ShutDown =>
    case Work(variables) => WorkKeeps(r, variables);
    case Crash => CrashKeeps(r);
    case CrashAndRebuild =>
  }

  /** Where there is no way to the departed state, nothing is running anyway. */
  lemma StaysPut(s: State)
    ensures Valid(TABLE) && s in TABLE.sources
    ensures Toward(s, Departed).None? ==> Expected(s) == Flags(false, false)
  {
    hide TABLE, TRANSITIONS;
    TableHolds();
    assert Available(TABLE, Up, DoDepart) && Available(TABLE, InError, DoErrorDepart);
  }

  lemma TowardIs(s: State, target: State)
    ensures Valid(TABLE) && s in TABLE.sources
    ensures forall id :: Source(id) == s && Destination(id) == target ==> Toward(s, target).Some?
    ensures var found := Toward(s, target);
            found.Some? ==> Source(found.value) == s && Destination(found.value) == target
  {
    hide TABLE, TRANSITIONS, FirstTo, Source, Destination, Automatic;
    TableHolds();
    forall id | Source(id) == s && Destination(id) == target
      ensures Toward(s, target).Some?
    {
      assert Available(TABLE, s, id);
    }
    if Toward(s, target).Some? {
      assert Available(TABLE, s, Toward(s, target).value);
    }
  }

  /** Where one can go at all: the pairs of states that transition_state connects. */
  lemma EdgesAre(s: State, target: State)
    ensures Valid(TABLE) && s in TABLE.sources
    ensures Toward(s, target).Some? <==>
              match s
              case Unset => target == Up
              case Up => target in {Down, InError, Departed}
              case Down => target in {Up, Departed}
              case InError => target in {Up, Departed}
              case Departed => false
  {
    hide TABLE, TRANSITIONS, Toward;
    TowardIs(s, target);
    assert Source(DoStart) == Unset && Source(DoStop) == Up && Source(DoError) == Up && Source(DoDepart) == Up;
    assert Source(DoRestart) == Down && Source(DoDownDepart) == Down;
    assert Source(DoReset) == InError && Source(DoErrorDepart) == InError;
  }

  /** A transition called and left to itself ends in its destination, or where it was if it does not start
      there. */
  lemma CallArrives(r: Relation, id: Id, variables: Variables, v: Variables, w: Variables)
    requires StateOf(r) in TABLE.sources && Unlocked(r)
    ensures var after := Next(Next(Call(r, Some(id), variables), Work(v)), Work(w));
            && Unlocked(after)
            && StateOf(after) == (if Source(id) == StateOf(r) then Destination(id) else StateOf(r))
            && after.phase == if Source(id) == StateOf(r) && IsDepart(id) && r.phase.Departing? then Normal else r.phase
  {
    hide TABLE, TRANSITIONS, Automatic, FirstTo, Source;
    TableHolds();
    var r1 := Call(r, Some(id), variables);
    assert r1.engine.pc == Runs.Checking(id, variables);
    var r2 := Next(r1, Work(v));
    if Source(id) == StateOf(r) {
      assert Available(TABLE, StateOf(r), id);
      assert r2.engine.pc == Runs.Acting(id, variables) && StateOf(r2) == StateOf(r) && r2.phase == r.phase;
      assert Destination(id) != Unset;
    } else {
      assert !Available(TABLE, StateOf(r), id);
    }
  }

  lemma TowardArrives(r: Relation, target: State, v: Variables, w: Variables)
    requires StateOf(r) in TABLE.sources && Unlocked(r)
    ensures var after := Next(Next(CallToward(r, target), Work(v)), Work(w));
            && Unlocked(after)
            && StateOf(after) ==
                 (match StateOf(r)
                  case Unset => if target == Up then Up else Unset
                  case Up => if target in {Down, InError, Departed} then target else Up
                  case Down => if target in {Up, Departed} then target else Down
                  case InError => if target in {Up, Departed} then target else InError
                  case Departed => Departed)
            && after.phase == if target == Departed && StateOf(after) != StateOf(r) && r.phase.Departing?
                              then Normal else r.phase
  {
    hide TABLE, TRANSITIONS, Toward, Source;
    EdgesAre(StateOf(r), target);
    TowardIs(StateOf(r), target);
    var id := Toward(StateOf(r), target);
    if id.Some? { CallArrives(r, id.value, map[], v, w); }
  }

  lemma ErrorArrives(r: Relation, variables: Variables, v: Variables, w: Variables)
    requires StateOf(r) in TABLE.sources && Unlocked(r)
    ensures var after := Next(Next(Call(r, Some(DoError), variables), Work(v)), Work(w));
            Unlocked(after) && StateOf(after) == if StateOf(r) == Up then InError else StateOf(r)
  {
    CallArrives(r, DoError, variables, v, w);
  }

  /** What each request comes to, left to itself: a unit that stops takes its relations up down, one that starts
      brings those down up, a resolved relation comes up, a hook error is recorded where the relation
      is up, and a departure ends in the departed state. Everything else stays where it was. */
  lemma RequestsArrive(r: Relation, e: Event, v: Variables, w: Variables)
    requires Unlocked(r) && !e.Crash?
    requires if e.DepartFires? then r.phase.Departing? else Current(r) || e.HookError?
    ensures var after := Next(Next(Next(r, e), Work(v)), Work(w));
            && Unlocked(after)
            && (e.DepartFires? ==> after.phase.Normal?)
            && var was := StateOf(r);
               StateOf(after) ==
                 match e
                 case UnitStops => if was == Up then Down else was
                 case UnitStarts => if was == Down then Up else was
                 case Resolved => if was == Departed then was else Up
                 case HookError(_) => if was == Up then InError else was
                 case DepartFires => if was == Unset then was else Departed
                 case _ => was
  {
    hide TABLE, TRANSITIONS, CallToward, Call, Automatic, FirstTo, Source, Destination;
    EdgesAre(StateOf(r), Departed);
    match e
    case UnitStops => TowardArrives(r, Down, v, w);
    case UnitStarts | Resolved => TowardArrives(r, Up, v, w);
    case HookError(variables) => ErrorArrives(r, variables, v, w);
    case DepartFires => TowardArrives(r, Departed, v, w);
    case _ =>
  }

  lemma {:induction false} RunKeeps(r: Relation, events: seq<Event>)
    requires Inv(r)
    ensures Inv(Run(r, events))
    decreases |events|
  {
    hide Next, Inv;
    if events != [] {
      NextKeeps(r, events[0]);
      RunKeeps(Next(r, events[0]), events[1..]);
    }
  }

  // -------------------------------------------------------------- the theorems

  /** In every run, crashes at any store boundary included: whenever the workflow lock is free in a normal
      process, the watcher runs iff the state is up or error and the scheduler iff it is up. Once a departure
      has begun neither runs, locked or not; and in a workflow made anew nothing runs that should not. */
  lemma FlagsFollowState(saved: Saved<State, Id>, events: seq<Event>)
    requires InflightFits(TABLE, saved)
    ensures var r := Run(Boot(saved), events);
            && (Unlocked(r) && r.phase.Normal? ==>
                  && (r.flags.watching <==> StateOf(r) == Up || StateOf(r) == InError)
                  && (r.flags.executing <==> StateOf(r) == Up))
            && (r.phase.Departing? ==> !r.flags.watching && !r.flags.executing)
            && (Unlocked(r) && r.phase.Rebuilt? ==>
                  && (r.flags.watching ==> StateOf(r) == Up || StateOf(r) == InError)
                  && (r.flags.executing ==> StateOf(r) == Up))
  {
    hide Run, Next;
    hide TABLE, TRANSITIONS;
    TableHolds();
    CrashKeeps(Relation(Runs.Start(saved), Flags(false, false), Normal));
    RunKeeps(Boot(saved), events);
  }

  lemma NextStaysDeparted(r: Relation, e: Event)
    requires Inv(r) && StateOf(r) == Departed
    ensures StateOf(Next(r, e)) == Departed
  {
    hide TABLE, TRANSITIONS;
    TableHolds();
  }

  /** The departed state is never left, and neither crash nor hook error starts anything in it. */
  lemma {:induction false} DepartedForGood(r: Relation, events: seq<Event>)
    requires Inv(r) && StateOf(r) == Departed
    ensures StateOf(Run(r, events)) == Departed
    ensures !Run(r, events).phase.ShuttingDown? ==> Run(r, events).flags == Flags(false, false)
    decreases |events|
  {
    hide Next;
    if events != [] {
      NextStaysDeparted(r, events[0]);
      NextKeeps(r, events[0]);
      DepartedForGood(Next(r, events[0]), events[1..]);
    }
  }

  /** The step raises, whatever was raised before it. */
  ghost predicate Raises(r: Relation, e: Event) {
    Next(r.(engine := r.engine.(raised := None)), e).engine.raised.Some?
  }

  /** An invalid transition is raised exactly for a hook error reported after the relation left the up
      state, and then it changes nothing else. */
  lemma LateErrorsRaiseIff(r: Relation, e: Event)
    requires Inv(r)
    ensures Raises(r, e) <==> e.Work? && r.engine.pc.Checking? && r.engine.pc.id == DoError && StateOf(r) != Up
    ensures Raises(r, e) ==> Next(r, e) == r.(engine := r.engine.(pc := Runs.Idle, raised := Some(InvalidTransition)))
  {
    hide TABLE, TRANSITIONS;
    TableHolds();
  }

  /** It does happen: the unit stops while a hook is in progress, which then fails. */
  lemma LateErrorHappens() returns (events: seq<Event>)
    ensures var r := Run(Boot(Saved(Up, map[], None)), events);
            Raises(r, Work(map[])) && StateOf(r) == Down && r.phase.Normal?
  {
    var calm := Work(map[]);
    events := [UnitStops] + ([calm] + ([calm] + ([HookError(map[])] + [])));
    var r1, r3, r4 := StopThenError();
    hide Next, Boot;
    var r0 := Boot(Saved(Up, map[], None));
    assert Run(r4, []) == r4;
    RunCons(r3, HookError(map[]), []);
    RunCons(Next(r1, calm), calm, [HookError(map[])] + []);
    RunCons(r1, calm, [calm] + ([HookError(map[])] + []));
    RunCons(r0, UnitStops, [calm] + ([calm] + ([HookError(map[])] + [])));
  }

  lemma StopThenError() returns (r1: Relation, r3: Relation, r4: Relation)
    ensures r1 == Next(Boot(Saved(Up, map[], None)), UnitStops)
    ensures r3 == Next(Next(r1, Work(map[])), Work(map[])) && r4 == Next(r3, HookError(map[]))
    ensures Raises(r4, Work(map[])) && StateOf(r4) == Down && r4.phase.Normal?
  {
    hide TABLE, TRANSITIONS, Automatic;
    TableHolds();
    hide FirstTo;
    var r0 := Boot(Saved(Up, map[], None));
    StopLeadsDown();
    assert Available(TABLE, Up, DoStop);
    r1 := Next(r0, UnitStops);
    assert r1.engine.pc == Runs.Checking(DoStop, map[]);
    var r2 := Next(r1, Work(map[]));
    assert r2.engine.pc == Runs.Acting(DoStop, map[]);
    r3 := Next(r2, Work(map[]));
    assert r3.engine.pc.Idle? && StateOf(r3) == Down;
    r4 := Next(r3, HookError(map[]));
    assert r4.engine.pc == Runs.Checking(DoError, map[]);
  }

  lemma StopLeadsDown()
    ensures Valid(TABLE) && Up in TABLE.sources && Toward(Up, Down) == Some(DoStop)
  {
    hide TABLE, TRANSITIONS, FirstTo;
    TableHolds();
    var id := Toward(Up, Down);
    assert Available(TABLE, Up, DoStop) && TABLE.transitions[DoStop].destination == Down;
    assert id.Some?;
    assert Available(TABLE, Up, id.value);
  }

  lemma RunCons(r: Relation, e: Event, rest: seq<Event>)
    ensures Run(r, [e] + rest) == Run(Next(r, e), rest)
  {
    assert ([e] + rest)[1..] == rest;
  }
}
