/** Whole runs of a unit agent: its callbacks in juju/agents/unit.py fire transitions, actions work, break
    or meet an assert, and the process may die at any store boundary and come back. */
module UnitRuns {
  import opened Wrappers
  import opened StateMachine
  import opened UnitWorkflow
  import Runs = StateMachineRuns

  datatype Unit = Unit(engine: Runs.Machine<State, Id>, life: Life, fault: Option<Fault>)

  datatype Event =
    | ConfigChanged
    | UpgradeFlag
    | Resolved(hooks: bool)
    | StopCalled
    | Work(luck: Luck)
    | Crash

  function StateOf(u: Unit): State { u.engine.saved.state }

  predicate Unlocked(u: Unit) { u.engine.pc.Idle? }

  /** The transition that a callback fires, if any. */
  function Chosen(s: State, e: Event): Option<Id> {
    match e
    case ConfigChanged => if s == Started then Some(Configure) else None
    case UpgradeFlag => if s == Started then Some(UpgradeCharm) else None
    case Resolved(hooks) => if s == Started then None else RetryOf(s, hooks)
    case StopCalled => if s == Started then Some(Stop) else None
    case Work(_) | Crash => None
  }

  ghost function Called(u: Unit, e: Event): Unit {
    match Chosen(StateOf(u), e)
    case None => u
    case Some(id) => u.(engine := Runs.Next(TABLE, u.engine, Runs.Call(id, map[])))
  }

  ghost function AfterWork(u: Unit, luck: Luck): Unit {
    match u.engine.pc
    case Idle => u
    case Checking(_, _) => u.(engine := Runs.Next(TABLE, u.engine, Runs.Check))
    case Acting(id, _) =>
      var (life, ending) := Act(id, u.life, luck);
      match ending
      case Worked => Unit(Runs.Next(TABLE, u.engine, Runs.Finish(Done(map[]))), life, u.fault)
      case Broke => Unit(Runs.Next(TABLE, u.engine, Runs.Finish(Failed)), life, u.fault)
      case Stuck(f) => Unit(u.engine, life, Some(f))
  }

  /** One atomic step; after a fault there are none. */
  ghost function Next(u: Unit, e: Event): Unit {
    if u.fault.Some? then u
    else
      match e
      case Work(luck) => AfterWork(u, luck)
      case Crash => Unit(Runs.Next(TABLE, u.engine, Runs.Restart), Wanted(u.engine.saved), None)
      case _ => if Unlocked(u) then Called(u, e) else u
  }

  ghost function Run(u: Unit, events: seq<Event>): Unit
    decreases |events|
  {
    if events == [] then u else Run(Next(u, events[0]), events[1..])
  }

  /** A process that has just started on a stored record. */
  ghost function Boot(saved: Saved<State, Id>): Unit {
    Next(Unit(Runs.Start(saved), Life(false, false), None), Crash)
  }

  // ------------------------------------------------------------- the invariant

  /** The flags of a settled unit. */
  ghost predicate Settled(s: State, l: Life) {
    && (l.running <==> s == Started || s == CharmUpgradeError || s == StopError)
    && (s != CharmUpgradeError ==> l.executor)
  }

  /** The flags with which a transition may begin. */
  ghost predicate Ready(id: Id, l: Life) {
    match id
    case UpgradeCharm | UpgradeCharmError | RetryUpgradeCharmError | RetryUpgradeCharm | RetryUpgradeCharmHook =>
        l.running
    case ErrorRetryConfigure => l.running && l.executor
    case _ => Settled(Source(id), l)
  }

  lemma SettledIsReady(s: State, l: Life, id: Id)
    requires Settled(s, l) && Source(id) == s && id != ErrorRetryConfigure
    ensures Ready(id, l)
  {
  }

  /** No action meets a fault; each leaves the flags that its destination or its error transition needs. */
  lemma ActIsSound(id: Id, l: Life, luck: Luck)
    requires Ready(id, l)
    ensures var (after, ending) := Act(id, l, luck);
            && !ending.Stuck?
            && (ending.Worked? ==> Settled(Destination(id), after))
            && (ending.Broke? && OnError(id).Some? ==> Ready(OnError(id).value, after))
            && (ending.Broke? && OnError(id).None? ==> Settled(Source(id), after))
  {
  }

  ghost predicate Inv(u: Unit) {
    && u.fault.None?
    && Runs.MarkerFits(TABLE, u.engine)
    && u.engine.raised.None?
    && (u.engine.pc.Idle? ==> Settled(StateOf(u), u.life))
    && (!u.engine.pc.Idle? ==> Source(u.engine.pc.id) == StateOf(u) && Ready(u.engine.pc.id, u.life))
  }

  lemma CallKeeps(u: Unit, e: Event)
    requires Inv(u) && Unlocked(u)
    ensures Inv(Called(u, e))
  {
    hide TABLE, TRANSITIONS, Settled, Ready;
    var id := Chosen(StateOf(u), e);
    if id.Some? {
      SettledIsReady(StateOf(u), u.life, id.value);
    }
  }

  lemma CheckKeeps(u: Unit)
    requires Inv(u) && u.engine.pc.Checking?
    ensures Inv(u.(engine := Runs.Next(TABLE, u.engine, Runs.Check)))
  {
    hide TABLE, TRANSITIONS, Settled, Ready, Source;
    TableHolds();
    Runs.NextKeepsMarker(TABLE, u.engine, Runs.Check);
  }

  /** What the engine does with the end of an action. */
  lemma EngineAfter(m: Runs.Machine<State, Id>, outcome: Outcome)
    requires Runs.MarkerFits(TABLE, m) && m.pc.Acting? && Source(m.pc.id) == m.saved.state
    ensures var after := Runs.Next(TABLE, m, Runs.Finish(outcome));
            && Runs.MarkerFits(TABLE, after) && after.raised == m.raised
            && after.pc == Runs.Then(if outcome.Failed? then OnError(m.pc.id) else AutomaticIn(Destination(m.pc.id)))
            && after.saved.state == if outcome.Failed? then Source(m.pc.id) else Destination(m.pc.id)
  {
    hide TABLE, TRANSITIONS, Source, Destination, OnError, AutomaticIn, Automatic;
    TableHolds();
    StateHolds(Destination(m.pc.id));
    Runs.NextKeepsMarker(TABLE, m, Runs.Finish(outcome));
  }

  lemma AutomaticIsReady(s: State, l: Life)
    requires Settled(s, l) && AutomaticIn(s).Some?
    ensures Source(AutomaticIn(s).value) == s && Ready(AutomaticIn(s).value, l)
  {
  }

  lemma WorkKeeps(u: Unit, luck: Luck)
    requires Inv(u)
    ensures Inv(AfterWork(u, luck))
  {
    if u.engine.pc.Checking? {
      CheckKeeps(u);
    } else if u.engine.pc.Acting? {
      hide TABLE, TRANSITIONS, Source, Destination, OnError, AutomaticIn, Settled, Ready, Act, Runs.Next,
        Runs.MarkerFits;
      var id := u.engine.pc.id;
      ActIsSound(id, u.life, luck);
      var (life, ending) := Act(id, u.life, luck);
      EngineAfter(u.engine, if ending.Worked? then Done(map[]) else Failed);
      if ending.Worked? {
        if AutomaticIn(Destination(id)).Some? { AutomaticIsReady(Destination(id), life); }
      } else if OnError(id).Some? {
        ErrorsShareSource(id);
      }
    }
  }

  // ------------------------------------------------------------------- crashes

  /** A record that a new process can take up: not stopped in error, and not in the middle of going
      back to a configuration error. */
  predicate SafeRecord(saved: Saved<State, Id>) {
    saved.state != StopError && saved.inflight != Some(ErrorRetryConfigure)
  }

  lemma WantedIsSound(saved: Saved<State, Id>)
    requires SafeRecord(saved)
    ensures saved.inflight.None? ==> Settled(saved.state, Wanted(saved))
    ensures saved.inflight.Some? && Source(saved.inflight.value) == saved.state ==>
        Ready(saved.inflight.value, Wanted(saved))
  {
  }

  lemma RestartKeeps(u: Unit)
    requires Runs.MarkerFits(TABLE, u.engine) && u.engine.raised.None? && u.fault.None? && SafeRecord(u.engine.saved)
    ensures Inv(Next(u, Crash))
  {
    hide TABLE, TRANSITIONS, Settled, Ready, Wanted, SafeRecord, AutomaticIn, Source, Automatic;
    TableHolds();
    StateHolds(StateOf(u));
    WantedIsSound(u.engine.saved);
    Runs.NextKeepsMarker(TABLE, u.engine, Runs.Restart);
    if u.engine.saved.inflight.None? && AutomaticIn(StateOf(u)).Some? {
      AutomaticIsReady(StateOf(u), Wanted(u.engine.saved));
    }
  }

  /** Every crash of the run happens on a safe record. */
  ghost predicate SafeRun(u: Unit, events: seq<Event>)
    decreases |events|
  {
    events == [] || ((events[0].Crash? ==> SafeRecord(u.engine.saved)) && SafeRun(Next(u, events[0]), events[1..]))
  }

  lemma NextKeeps(u: Unit, e: Event)
    requires Inv(u) && (e.Crash? ==> SafeRecord(u.engine.saved))
    ensures Inv(Next(u, e))
  {
    match e
    case Work(luck) => WorkKeeps(u, luck);
    case Crash => RestartKeeps(u);
    case _ => if Unlocked(u) { CallKeeps(u, e); }
  }

  lemma {:induction false} RunKeeps(u: Unit, events: seq<Event>)
    requires Inv(u) && SafeRun(u, events)
    ensures Inv(Run(u, events))
    decreases |events|
  {
    hide Next, Inv, SafeRecord;
    if events != [] {
      NextKeeps(u, events[0]);
      RunKeeps(Next(u, events[0]), events[1..]);
    }
  }

  // -------------------------------------------------------------- the theorems

  /** In every run whose crashes find a safe record, no assert of lifecycle or executor fails, no hook
      waits for a stopped executor and no invalid transition is raised; and at each unlocked point the
      lifecycle runs iff the state is started, charm_upgrade_error or stop_error, and the executor runs
      in every state other than charm_upgrade_error. */
  lemma FlagsFollowState(saved: Saved<State, Id>, events: seq<Event>)
    requires InflightFits(TABLE, saved) && SafeRecord(saved) && SafeRun(Boot(saved), events)
    ensures var u := Run(Boot(saved), events);
            && u.fault.None? && u.engine.raised.None?
            && (Unlocked(u) ==>
                  && (u.life.running <==>
                      StateOf(u) == Started || StateOf(u) == CharmUpgradeError || StateOf(u) == StopError)
                  && (StateOf(u) != CharmUpgradeError ==> u.life.executor))
  {
    hide Run, Next, SafeRun, TABLE, TRANSITIONS;
    BootFits(saved);
    RestartKeeps(Unit(Runs.Start(saved), Life(false, false), None));
    RunKeeps(Boot(saved), events);
  }

  lemma BootFits(saved: Saved<State, Id>)
    requires InflightFits(TABLE, saved)
    ensures Runs.MarkerFits(TABLE, Runs.Start(saved))
  {
    hide TABLE, TRANSITIONS;
    StateHolds(saved.state);
  }

  ghost predicate CrashFree(events: seq<Event>) {
    forall e :: e in events ==> !e.Crash?
  }

  lemma {:induction false} CrashFreeIsSafe(u: Unit, events: seq<Event>)
    requires CrashFree(events)
    ensures SafeRun(u, events)
    decreases |events|
  {
    hide Next, SafeRecord;
    if events != [] {
      assert events[0] in events;
      CrashFreeIsSafe(Next(u, events[0]), events[1..]);
    }
  }

  /** Without crashes that holds from the first start of a unit on, whatever fails on the way. */
  lemma CrashFreeFlags(events: seq<Event>)
    requires CrashFree(events)
    ensures var u := Run(Boot(Saved(Unset, map[], None)), events);
            && u.fault.None? && u.engine.raised.None?
            && (Unlocked(u) ==> Settled(StateOf(u), u.life))
  {
    hide Run, Next, SafeRun, TABLE, TRANSITIONS;
    CrashFreeIsSafe(Boot(Saved(Unset, map[], None)), events);
    FlagsFollowState(Saved(Unset, map[], None), events);
  }

  /** A record is taken up without a fault, whatever follows, exactly when it is safe: otherwise the
      lifecycle was not started although the next action stops it. */
  lemma RestartIsSafeIff(saved: Saved<State, Id>)
    requires InflightFits(TABLE, saved)
    ensures (forall events :: CrashFree(events) ==> Run(Boot(saved), events).fault.None?) <==> SafeRecord(saved)
  {
    if SafeRecord(saved) {
      forall events | CrashFree(events)
        ensures Run(Boot(saved), events).fault.None?
      {
        CrashFreeIsSafe(Boot(saved), events);
        FlagsFollowState(saved, events);
      }
    } else {
      var events := UnsafeFaults(saved);
    }
  }

  /** The run that an unsafe record leads into. */
  lemma UnsafeFaults(saved: Saved<State, Id>) returns (events: seq<Event>)
    requires InflightFits(TABLE, saved) && !SafeRecord(saved)
    ensures CrashFree(events) && Run(Boot(saved), events).fault == Some(AlreadyStopped)
  {
    var luck := Luck(false, false, false, false);
    var work := [Work(luck), Work(luck)];
    var u := Boot(saved);
    UnsafeBoot(saved);
    hide Act, Wanted, Boot, TABLE, TRANSITIONS;
    if saved.inflight.Some? {
      events := work;
      StopsTwice(u, saved.inflight.value, luck);
    } else {
      events := [Resolved(false)] + work;
      StopsTwice(Next(u, Resolved(false)), RetryStop, luck);
      assert events[1..] == work;
    }
  }

  lemma UnsafeBoot(saved: Saved<State, Id>)
    requires InflightFits(TABLE, saved) && !SafeRecord(saved)
    ensures var u := Boot(saved);
            && StateOf(u) == saved.state && u.life == Life(false, true) && u.fault.None?
            && (saved.inflight.Some? ==>
                  && u.engine.pc == Runs.Checking(saved.inflight.value, map[])
                  && saved.inflight.value in {RetryStop, RetryStopHook, ErrorRetryConfigure}
                  && Source(saved.inflight.value) == saved.state)
            && (saved.inflight.None? ==> saved.state == StopError && u.engine.pc.Idle?)
  {
    hide TABLE, TRANSITIONS, Automatic;
    TableHolds();
    StateHolds(saved.state);
  }

  lemma StopsTwice(u: Unit, id: Id, luck: Luck)
    requires u.engine.pc == Runs.Checking(id, map[]) && id in {RetryStop, RetryStopHook, ErrorRetryConfigure}
    requires Source(id) == StateOf(u) && u.life == Life(false, true) && u.fault.None?
    ensures Run(u, [Work(luck), Work(luck)]).fault == Some(AlreadyStopped)
  {
    hide TABLE, TRANSITIONS;
    TableHolds();
    var events := [Work(luck), Work(luck)];
    assert Available(TABLE, StateOf(u), id);
    var v := Next(u, Work(luck));
    assert v.engine.pc == Runs.Acting(id, map[]) && v.life == u.life;
    var x := Next(v, Work(luck));
    assert x.fault == Some(AlreadyStopped);
    assert Run(x, []) == x;
    assert events[1..] == [Work(luck)] && events[1..][1..] == [];
    assert Run(v, events[1..]) == x;
  }

  // -------------------------------------------------------- no crash, but a stop

  /** UnitAgent.stop */
  function AgentStop(l: Life): Ending {
    var quiet := if l.running then LifeStop(l, false, Luck(false, false, false, false)) else (l, Worked);
    if quiet.1 != Worked then quiet.1 else if !l.executor then Stuck(ExecutorStopped) else Worked
  }

  /** A settled agent stops without a failed assert exactly when its executor is not paused; and it is
      paused in no state other than charm_upgrade_error. */
  lemma AgentStopsIff(u: Unit)
    requires Inv(u) && Unlocked(u)
    ensures AgentStop(u.life) == Worked <==> u.life.executor
    ensures AgentStop(u.life) == Stuck(ExecutorStopped) ==> StateOf(u) == CharmUpgradeError
  {
  }

  predicate IsUpgrade(id: Id) {
    id in {UpgradeCharm, RetryUpgradeCharm, RetryUpgradeCharmHook}
  }

  /** An upgrade that got past its preparation breaks: in putting the charm in place, or in the hook,
      which a retry without hooks runs only for a new charm. */
  predicate UpgradeFails(id: Id, luck: Luck) {
    (luck.ready && luck.replaceFails) || ((luck.ready || id != RetryUpgradeCharm) && luck.hookFails)
  }

  /** What a step decides about the executor, if anything: a new process sets it up for its record, and an
      upgrade past its preparation leaves it running or paused as it works or breaks. */
  ghost function Decision(u: Unit, e: Event): Option<bool> {
    match e
    case Crash => Some(Wanted(u.engine.saved).executor)
    case Work(luck) =>
      if u.engine.pc.Acting? && IsUpgrade(u.engine.pc.id) && !luck.prepareFails
      then Some(!UpgradeFails(u.engine.pc.id, luck))
      else None
    case _ => None
  }

  ghost function LastDecision(u: Unit, events: seq<Event>): Option<bool>
    decreases |events|
  {
    if events == [] then None
    else
      var later := LastDecision(Next(u, events[0]), events[1..]);
      if later.Some? then later else Decision(u, events[0])
  }

  lemma DecisionHolds(u: Unit, e: Event)
    requires Inv(u) && (e.Crash? ==> SafeRecord(u.engine.saved))
    ensures Next(u, e).life.executor == match Decision(u, e) case None => u.life.executor case Some(d) => d
  {
    hide TABLE, TRANSITIONS, Runs.Next;
    if u.engine.pc.Acting? && e.Work? {
      ActIsSound(u.engine.pc.id, u.life, e.luck);
    }
  }

  lemma {:induction false} LastDecisionHolds(u: Unit, events: seq<Event>)
    requires Inv(u) && SafeRun(u, events)
    ensures Run(u, events).life.executor == match LastDecision(u, events) case None => u.life.executor case Some(d) => d
    decreases |events|
  {
    hide Next, Inv, SafeRecord, Decision;
    if events != [] {
      NextKeeps(u, events[0]);
      DecisionHolds(u, events[0]);
      LastDecisionHolds(Next(u, events[0]), events[1..]);
    }
  }

  /** Over whole runs: at an unlocked point the agent can be stopped exactly when the last upgrade attempt
      past its preparation worked, or, with none since the process started, the record it started on was
      neither in charm_upgrade_error nor in the middle of an upgrade. */
  lemma AgentStopsAfterRunIff(saved: Saved<State, Id>, events: seq<Event>)
    requires InflightFits(TABLE, saved) && SafeRecord(saved) && SafeRun(Boot(saved), events)
    requires Unlocked(Run(Boot(saved), events))
    ensures AgentStop(Run(Boot(saved), events).life) == Worked <==>
              match LastDecision(Boot(saved), events)
              case Some(d) => d
              case None =>
                saved.state != CharmUpgradeError && !(saved.state == Started && saved.inflight == Some(UpgradeCharm))
  {
    hide Run, Next, SafeRun, LastDecision, TABLE, TRANSITIONS;
    BootFits(saved);
    RestartKeeps(Unit(Runs.Start(saved), Life(false, false), None));
    BootLife(saved);
    RunKeeps(Boot(saved), events);
    LastDecisionHolds(Boot(saved), events);
    AgentStopsIff(Run(Boot(saved), events));
  }

  lemma BootLife(saved: Saved<State, Id>)
    ensures Boot(saved).life == Wanted(saved)
  {
  }

  /** There it does not, once the charm could not be replaced: the executor is paused already. */
  lemma PausedAgentCannotStop(u: Unit) returns (events: seq<Event>)
    requires Inv(u) && Unlocked(u) && StateOf(u) == Started
    ensures var v := Run(u, events);
            && CrashFree(events) && Unlocked(v) && StateOf(v) == CharmUpgradeError && v.fault.None?
            && AgentStop(v.life) == Stuck(ExecutorStopped)
  {
    hide TABLE, TRANSITIONS, Next;
    var w := Work(Luck(false, false, true, true));
    var u1, u2 := UpgradeBreaks(u, w.luck);
    var s2 := [w] + ([w] + []);
    var s4 := [w] + ([w] + s2);
    events := [UpgradeFlag] + s4;
    var u5 := ErrorIsRecorded(u2, w.luck);
    assert Run(u5, []) == u5;
    RunCons(Next(u2, w), w, []);
    RunCons(u2, w, [w] + []);
    RunCons(Next(u1, w), w, s2);
    RunCons(u1, w, [w] + s2);
    RunCons(u, UpgradeFlag, s4);
  }

  /** A charm that cannot be replaced leaves the executor paused. */
  lemma UpgradeBreaks(u: Unit, luck: Luck) returns (u1: Unit, u2: Unit)
    requires Inv(u) && Unlocked(u) && StateOf(u) == Started && luck == Luck(false, false, true, true)
    ensures u1 == Next(u, UpgradeFlag) && u2 == Next(Next(u1, Work(luck)), Work(luck))
    ensures u2.engine.pc == Runs.Checking(UpgradeCharmError, map[]) && u2.life == Life(true, false)
    ensures StateOf(u2) == Started && u2.fault.None?
  {
    hide TABLE, TRANSITIONS, Automatic;
    TableHolds();
    assert Available(TABLE, Started, UpgradeCharm);
    u1 := Next(u, UpgradeFlag);
    var mid := Next(u1, Work(luck));
    assert mid.engine.pc == Runs.Acting(UpgradeCharm, map[]) && mid.life == u.life;
    u2 := Next(mid, Work(luck));
  }

  lemma ErrorIsRecorded(u: Unit, luck: Luck) returns (v: Unit)
    requires u.engine.pc == Runs.Checking(UpgradeCharmError, map[]) && StateOf(u) == Started && u.fault.None?
    ensures v == Next(Next(u, Work(luck)), Work(luck))
    ensures v.engine.pc.Idle? && StateOf(v) == CharmUpgradeError && v.life == u.life && v.fault.None?
  {
    hide TABLE, TRANSITIONS, Automatic;
    TableHolds();
    StateHolds(CharmUpgradeError);
    assert Available(TABLE, Started, UpgradeCharmError);
    var mid := Next(u, Work(luck));
    assert mid.engine.pc == Runs.Acting(UpgradeCharmError, map[]) && mid.life == u.life;
    v := Next(mid, Work(luck));
  }

  lemma RunCons(u: Unit, e: Event, rest: seq<Event>)
    ensures Run(u, [e] + rest) == Run(Next(u, e), rest)
  {
    assert ([e] + rest)[1..] == rest;
  }

  // ------------------------------------------------------- the objects in place

  /** Since the history was h, records were stored, the first of them with id in flight. */
  ghost predicate Began(h: seq<Saved<State, Id>>, now: seq<Saved<State, Id>>, id: Id) {
    |now| > |h| && now[..|h|] == h && now[|h|].inflight == Some(id)
  }

  lemma BeganWith(h: seq<Saved<State, Id>>, id: Id, record: Saved<State, Id>)
    requires record.inflight == Some(id)
    ensures Began(h, h + [record], id)
  {
    assert (h + [record])[..|h|] == h;
  }

  lemma BeganGoesOn(h: seq<Saved<State, Id>>, mid: seq<Saved<State, Id>>, id: Id, record: Saved<State, Id>)
    requires Began(h, mid, id)
    ensures Began(h, mid + [record], id)
  {
    assert (mid + [record])[..|h|] == mid[..|h|];
  }

  lemma BeganThen(h: seq<Saved<State, Id>>, mid: seq<Saved<State, Id>>, id: Id, now: seq<Saved<State, Id>>, next: Id)
    requires Began(h, mid, id) && Began(mid, now, next)
    ensures Began(h, now, id)
  {
    assert now[..|h|] == now[..|mid|][..|h|];
    assert now[|h|] == now[..|mid|][|h|];
  }

  /** A workflow and the lifecycle it drives, moved together while the workflow lock is held. What the
      environment decides may differ from action to action. */
  class UnitWorkflowState {
    const workflow: WorkflowState<State, Id>
    const lifecycle: UnitLifecycle

    constructor (workflow: WorkflowState<State, Id>, lifecycle: UnitLifecycle)
      ensures this.workflow == workflow && this.lifecycle == lifecycle
    {
      this.workflow, this.lifecycle := workflow, lifecycle;
    }

    /** Nothing in flight, and settled flags. */
    ghost predicate AtRest()
      reads workflow, lifecycle, lifecycle.executor
    {
      workflow.table == TABLE && workflow.saved.inflight.None? && Settled(workflow.saved.state, lifecycle.Value())
    }

    /** fire_transition, with its actions carried out. Whatever breaks, no assert fails and the unit
        comes to rest; the answer is whether the first action worked. If it did, the destination was
        reached, to be left at once only by an automatic transition; if not, the unit is where the error
        transition leads, or, without one, where it was. */
    method FireTransition(id: Id, luck: Id -> Luck) returns (worked: bool)
      requires workflow.table == TABLE && workflow.saved.state == Source(id) && Ready(id, lifecycle.Value())
      modifies workflow, lifecycle, lifecycle.executor
      ensures AtRest()
      ensures worked <==> Act(id, old(lifecycle.Value()), luck(id)).1.Worked?
      ensures workflow.saved.state in EndsOf(id)
      ensures Began(old(workflow.history), workflow.history, id)
      ensures worked && AutomaticIn(Destination(id)).None? ==> workflow.saved.state == Destination(id)
      ensures !worked ==>
        workflow.saved.state == if OnError(id).Some? then Destination(OnError(id).value) else Source(id)
      decreases RankOf(id)
    {
      hide TABLE, TRANSITIONS, Act, Ready, Settled, Source, Destination, OnError, AutomaticIn, RankOf, EndsOf, Began;
      TableHolds();
      StateHolds(Destination(id));
      EndsAlong(id);
      ghost var h := workflow.history;
      workflow.SetInflight(Some(id));
      BeganWith(h, id, workflow.saved);
      ActIsSound(id, lifecycle.Value(), luck(id));
      var ending := lifecycle.Do(id, luck(id));
      if ending.Broke? {
        var error := workflow.table.transitions[id].error;
        if error.Some? {
          ErrorsShareSource(id);
          RanksDescend(id, error.value);
          ErrorsWork(id, lifecycle.Value(), luck(error.value));
          ghost var mid := workflow.history;
          var _ := FireTransition(error.value, luck);
          BeganThen(h, mid, id, workflow.history, error.value);
        } else {
          BeganGoesOn(h, workflow.history, id, workflow.saved.(inflight := None));
          workflow.SetInflight(None);
        }
        return false;
      }
      ghost var mid := workflow.history;
      workflow.SetState(workflow.table.transitions[id].destination, map[]);
      BeganGoesOn(h, mid, id, workflow.saved);
      var next := workflow.FindAutomatic();
      if next.Some? {
        AutomaticIsReady(Destination(id), lifecycle.Value());
        RanksDescend(id, next.value);
        mid := workflow.history;
        var _ := FireTransition(next.value, luck);
        BeganThen(h, mid, id, workflow.history, next.value);
      }
      worked := true;
    }

    /** synchronize, in a new process or again in a running one, from any safe record. */
    method Synchronize(luck: Id -> Luck)
      requires workflow.table == TABLE && InflightFits(TABLE, workflow.saved) && SafeRecord(workflow.saved)
      modifies workflow, lifecycle, lifecycle.executor
      ensures AtRest()
    {
      hide TABLE, TRANSITIONS, Ready, Settled, Source, Wanted, SafeRecord;
      TableHolds();
      StateHolds(workflow.saved.state);
      WantedIsSound(workflow.saved);
      lifecycle.Prepare(workflow.saved);
      var next := workflow.saved.inflight;
      if next.None? {
        next := workflow.FindAutomatic();
        if next.Some? { AutomaticIsReady(workflow.saved.state, lifecycle.Value()); }
      }
      if next.Some? { var _ := FireTransition(next.value, luck); }
    }

    /** cb_watch_config_changed, cb_watch_upgrade_flag, cb_watch_resolved and a call of stop. */
    method Callback(e: Event, luck: Id -> Luck)
      requires AtRest()
      modifies workflow, lifecycle, lifecycle.executor
      ensures AtRest()
      ensures var was, h := old(workflow.saved.state), old(workflow.history);
              var hist := workflow.history;
              var quiet := workflow.saved == old(workflow.saved) && hist == h
                           && lifecycle.Value() == old(lifecycle.Value());
              var now := workflow.saved.state;
              match e
              case ConfigChanged =>
                if was == Started then Began(h, hist, Configure) && now in {Started, ConfigureError} else quiet
              case UpgradeFlag =>
                if was == Started then Began(h, hist, UpgradeCharm) && now in {Started, CharmUpgradeError} else quiet
              case StopCalled =>
                if was == Started then Began(h, hist, Stop) && now in {Stopped, StopError} else quiet
              case Resolved(hooks) =>
                (match was
                 case InstallError =>
                   Began(h, hist, if hooks then RetryInstallHook else RetryInstall)
                  && now in {Started, StartError, InstallError}
                 case StartError =>
                   Began(h, hist, if hooks then RetryStartHook else RetryStart) && now in {Started, StartError}
                 case StopError =>
                   Began(h, hist, if hooks then RetryStopHook else RetryStop) && now in {Stopped, StopError}
                 case CharmUpgradeError =>
                   Began(h, hist, if hooks then RetryUpgradeCharmHook else RetryUpgradeCharm)
                   && now in {Started, CharmUpgradeError}
                 case ConfigureError =>
                   Began(h, hist, if hooks then RetryConfigureHook else RetryConfigure)
                   && now in {Started, ConfigureError}
                 case _ => quiet)
              case _ => quiet
    {
      hide TABLE, TRANSITIONS, Settled, Ready, Act;
      var id := Chosen(workflow.saved.state, e);
      if id.Some? {
        SettledIsReady(workflow.saved.state, lifecycle.Value(), id.value);
        var _ := FireTransition(id.value, luck);
      }
    }
  }

  /** Error transitions always work, and nothing fires by itself where they lead. */
  lemma ErrorsWork(id: Id, l: Life, luck: Luck)
    requires OnError(id).Some? && Ready(OnError(id).value, l)
    ensures Act(OnError(id).value, l, luck).1 == Worked
    ensures AutomaticIn(Destination(OnError(id).value)).None?
  {
  }

  /** Exactly which actions run hooks, and what else can break: an action begun with the right flags fails
      when a hook that it runs fails, or an upgrade in its preparation or in putting the charm in place. */
  lemma ActBreaksIff(id: Id, l: Life, luck: Luck)
    requires Ready(id, l)
    ensures Act(id, l, luck).1.Broke? <==>
              || (luck.hookFails && id in {Install, RetryInstallHook, Start, RetryStartHook, Stop, RetryStopHook,
                                           Configure, RetryConfigureHook})
              || (id in {UpgradeCharm, RetryUpgradeCharm, RetryUpgradeCharmHook}
                  && (luck.prepareFails || (luck.ready && (luck.replaceFails || luck.hookFails))
                      || (id != RetryUpgradeCharm && luck.hookFails)))
  {
  }

  /** Where firing a transition can end: error and automatic transitions included. */
  function EndsOf(id: Id): set<State> {
    match id
    case Install => {Started, StartError, InstallError}
    case RetryInstall | RetryInstallHook => {Started, StartError, InstallError}
    case ErrorInstall => {InstallError}
    case Start => {Started, StartError}
    case ErrorStart => {StartError}
    case RetryStart | RetryStartHook => {Started, StartError}
    case Stop | RetryStop | RetryStopHook => {Stopped, StopError}
    case ErrorStop => {StopError}
    case UpgradeCharm | RetryUpgradeCharm | RetryUpgradeCharmHook => {Started, CharmUpgradeError}
    case UpgradeCharmError | RetryUpgradeCharmError => {CharmUpgradeError}
    case Configure | RetryConfigure | RetryConfigureHook => {Started, ConfigureError}
    case ErrorConfigure | ErrorRetryConfigure => {ConfigureError}
  }

  lemma EndsAlong(id: Id)
    ensures OnError(id).None? ==> Source(id) in EndsOf(id) || forall l, luck :: !Act(id, l, luck).1.Broke?
    ensures OnError(id).Some? ==> EndsOf(OnError(id).value) <= EndsOf(id)
    ensures AutomaticIn(Destination(id)).None? ==> Destination(id) in EndsOf(id)
    ensures AutomaticIn(Destination(id)).Some? ==> EndsOf(AutomaticIn(Destination(id)).value) <= EndsOf(id)
  {
  }

  /** Firing available transitions of the unit workflow raises nothing, whichever of its actions fail. */
  lemma NeverRaises(acting: set<Id>)
    ensures Runs.NeverRaises(TABLE, acting)
  {
    hide TABLE, TRANSITIONS, Source, Destination, OnError;
    TableHolds();
    forall id | OnError(id).Some?
      ensures Source(OnError(id).value) == Source(id)
    {
      ErrorsShareSource(id);
    }
    Runs.NeverRaisesIff(TABLE, acting);
  }
}
