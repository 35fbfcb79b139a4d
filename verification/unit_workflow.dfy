/** The UnitWorkflow table of juju/unit/workflow.py and the actions of UnitLifecycle in
    juju/unit/lifecycle.py, with the asserts of the lifecycle and of HookExecutor in juju/hooks/executor.py. */
module UnitWorkflow {
  import opened Wrappers
  import opened StateMachine

  /** Unset is the state before the first transition. */
  datatype State = Unset | Installed | InstallError | Started | StartError | Stopped | StopError
                 | CharmUpgradeError | ConfigureError

  datatype Id =
    | Install | ErrorInstall | RetryInstall | RetryInstallHook
    | Start | ErrorStart | RetryStart | RetryStartHook
    | Stop | ErrorStop | RetryStop | RetryStopHook
    | UpgradeCharm | UpgradeCharmError | RetryUpgradeCharmError | RetryUpgradeCharm | RetryUpgradeCharmHook
    | Configure | ErrorConfigure | ErrorRetryConfigure | RetryConfigure | RetryConfigureHook

  type Edge = Transition<State, Id>

  const RETRY := "retry"
  const RETRY_HOOK := "retry_hook"

  const TRANSITIONS: seq<Edge> := [
    Transition(Install, Unset, Installed, Some(ErrorInstall), true, None),
    Transition(ErrorInstall, Unset, InstallError, None, false, None),
    Transition(RetryInstall, InstallError, Installed, None, false, Some(RETRY)),
    Transition(RetryInstallHook, InstallError, Installed, None, false, Some(RETRY_HOOK)),
    Transition(Start, Installed, Started, Some(ErrorStart), true, None),
    Transition(ErrorStart, Installed, StartError, None, false, None),
    Transition(RetryStart, StartError, Started, None, false, Some(RETRY)),
    Transition(RetryStartHook, StartError, Started, None, false, Some(RETRY_HOOK)),
    Transition(Stop, Started, Stopped, Some(ErrorStop), false, None),
    Transition(ErrorStop, Started, StopError, None, false, None),
    Transition(RetryStop, StopError, Stopped, None, false, Some(RETRY)),
    Transition(RetryStopHook, StopError, Stopped, None, false, Some(RETRY_HOOK)),
    Transition(UpgradeCharm, Started, Started, Some(UpgradeCharmError), false, None),
    Transition(UpgradeCharmError, Started, CharmUpgradeError, None, false, None),
    Transition(RetryUpgradeCharmError, CharmUpgradeError, CharmUpgradeError, None, false, None),
    Transition(RetryUpgradeCharm, CharmUpgradeError, Started, Some(RetryUpgradeCharmError), false, Some(RETRY)),
    Transition(RetryUpgradeCharmHook, CharmUpgradeError, Started, Some(RetryUpgradeCharmError),
        false, Some(RETRY_HOOK)),
    Transition(Configure, Started, Started, Some(ErrorConfigure), false, None),
    Transition(ErrorConfigure, Started, ConfigureError, None, false, None),
    Transition(ErrorRetryConfigure, ConfigureError, ConfigureError, None, false, None),
    Transition(RetryConfigure, ConfigureError, Started, Some(ErrorRetryConfigure), false, Some(RETRY)),
    Transition(RetryConfigureHook, ConfigureError, Started, Some(ErrorRetryConfigure), false, Some(RETRY_HOOK))]

  const TABLE: Table<State, Id> := Build(TRANSITIONS)

  function Position(id: Id): (i: nat)
    ensures i < |TRANSITIONS|
  {
    match id
    case Install => 0 case ErrorInstall => 1 case RetryInstall => 2 case RetryInstallHook => 3
    case Start => 4 case ErrorStart => 5 case RetryStart => 6 case RetryStartHook => 7
    case Stop => 8 case ErrorStop => 9 case RetryStop => 10 case RetryStopHook => 11
    case UpgradeCharm => 12 case UpgradeCharmError => 13 case RetryUpgradeCharmError => 14
    case RetryUpgradeCharm => 15 case RetryUpgradeCharmHook => 16
    case Configure => 17 case ErrorConfigure => 18 case ErrorRetryConfigure => 19
    case RetryConfigure => 20 case RetryConfigureHook => 21
  }

  function Source(id: Id): State {
    match id
    case Install | ErrorInstall => Unset
    case RetryInstall | RetryInstallHook => InstallError
    case Start | ErrorStart => Installed
    case RetryStart | RetryStartHook => StartError
    case Stop | ErrorStop | UpgradeCharm | UpgradeCharmError | Configure | ErrorConfigure => Started
    case RetryStop | RetryStopHook => StopError
    case RetryUpgradeCharmError | RetryUpgradeCharm | RetryUpgradeCharmHook => CharmUpgradeError
    case ErrorRetryConfigure | RetryConfigure | RetryConfigureHook => ConfigureError
  }

  function Destination(id: Id): State {
    match id
    case Install | RetryInstall | RetryInstallHook => Installed
    case ErrorInstall => InstallError
    case ErrorStart => StartError
    case Stop | RetryStop | RetryStopHook => Stopped
    case ErrorStop => StopError
    case UpgradeCharmError | RetryUpgradeCharmError => CharmUpgradeError
    case ErrorConfigure | ErrorRetryConfigure => ConfigureError
    case Start | RetryStart | RetryStartHook | UpgradeCharm | RetryUpgradeCharm | RetryUpgradeCharmHook
       | Configure | RetryConfigure | RetryConfigureHook => Started
  }

  function OnError(id: Id): Option<Id> {
    match id
    case Install => Some(ErrorInstall)
    case Start => Some(ErrorStart)
    case Stop => Some(ErrorStop)
    case UpgradeCharm => Some(UpgradeCharmError)
    case RetryUpgradeCharm | RetryUpgradeCharmHook => Some(RetryUpgradeCharmError)
    case Configure => Some(ErrorConfigure)
    case RetryConfigure | RetryConfigureHook => Some(ErrorRetryConfigure)
    case _ => None
  }

  function Alias(id: Id): Option<string> {
    match id
    case RetryInstall | RetryStart | RetryStop | RetryUpgradeCharm | RetryConfigure => Some(RETRY)
    case RetryInstallHook | RetryStartHook | RetryStopHook | RetryUpgradeCharmHook | RetryConfigureHook =>
        Some(RETRY_HOOK)
    case _ => None
  }

  function AutomaticIn(s: State): Option<Id> {
    match s case Unset => Some(Install) case Installed => Some(Start) case _ => None
  }

  /** The entry of an id, spelled out. */
  function Entry(id: Id): Edge {
    Transition(id, Source(id), Destination(id), OnError(id), AutomaticIn(Source(id)) == Some(id), Alias(id))
  }

  lemma Endpoints(id: Id)
    ensures TRANSITIONS[Position(id)] == Entry(id)
  {
  }

  lemma Positions(i: nat)
    requires i < |TRANSITIONS|
    ensures Position(TRANSITIONS[i].id) == i
  {
  }

  /** What the built table holds. */
  lemma TableHolds()
    ensures Valid(TABLE)
    ensures forall id :: id in TABLE.transitions && TABLE.transitions[id] == Entry(id)
    ensures forall s, id :: Available(TABLE, s, id) <==> s == Source(id)
  {
    hide Build, Valid, Available, TRANSITIONS, Source, Destination, OnError, Alias, AutomaticIn, Position;
    forall t | t in TRANSITIONS
      ensures t == Entry(t.id)
    {
      var i :| 0 <= i < |TRANSITIONS| && TRANSITIONS[i] == t;
      Positions(i);
      Endpoints(t.id);
    }
    forall id
      ensures Entry(id) in TRANSITIONS && Entry(id).id == id
    {
      Endpoints(id);
    }
    TotalTable(TRANSITIONS, Entry);
    forall s, id
      ensures Available(TABLE, s, id) <==> s == Source(id)
    {
      assert Entry(id).source == Source(id);
    }
  }

  /** Every state is in the table; in two of them a transition fires by itself. */
  lemma StateHolds(s: State)
    ensures s in TABLE.sources && Automatic(TABLE, s) == AutomaticIn(s)
  {
    hide TABLE, TRANSITIONS, Automatic;
    TableHolds();
    StateHasEdge(s);
    hide Source, Destination;
    var id :| s == Source(id) || s == Destination(id);
    assert id in TABLE.transitions && TABLE.transitions[id] == Entry(id);
    AutomaticIs(TABLE, s, AutomaticIn(s));
  }

  lemma StateHasEdge(s: State)
    ensures exists id :: s == Source(id) || s == Destination(id)
    ensures AutomaticIn(s).Some? ==> Source(AutomaticIn(s).value) == s
  {
    var id := match s
      case Unset => Install case Installed => Start case InstallError => ErrorInstall case Started => Stop
      case StartError => ErrorStart case Stopped => Stop case StopError => ErrorStop
      case CharmUpgradeError => RetryUpgradeCharm case ConfigureError => RetryConfigure;
    assert s == Source(id) || s == Destination(id);
  }

  /** Every error transition shares its parent's source. */
  lemma ErrorsShareSource(id: Id)
    requires OnError(id).Some?
    ensures Source(OnError(id).value) == Source(id)
  {
  }

  function RankOf(id: Id): nat {
    if Destination(id) == Installed then 2 else if OnError(id).Some? then 1 else 0
  }

  lemma RanksDescend(a: Id, b: Id)
    requires OnError(a) == Some(b) || AutomaticIn(Destination(a)) == Some(b)
    ensures RankOf(b) < RankOf(a)
  {
  }

  lemma NextDescends(a: Id, b: Id)
    requires FiresNext(TABLE, a, b)
    ensures RankOf(b) < RankOf(a)
  {
    hide TABLE, TRANSITIONS, RankOf, OnError, AutomaticIn, Source, Destination, Automatic, Valid, Available;
    TableHolds();
    StateHolds(Destination(a));
    RanksDescend(a, b);
  }

  /** Errors and automatic transitions never come round: firing always ends. */
  lemma TableIsAcyclic()
    ensures Acyclic(TABLE)
  {
    hide TABLE, TRANSITIONS, RankOf, FiresNext, Acyclic;
    forall a, b | FiresNext(TABLE, a, b)
      ensures RankOf(b) < RankOf(a)
    {
      NextDescends(a, b);
    }
    assert Ranked(TABLE, RankOf);
    AcyclicIff(TABLE);
  }

  /** The retry transitions, by whether hooks are to run. */
  function RetryOf(s: State, hooks: bool): Option<Id> {
    match s
    case InstallError => Some(if hooks then RetryInstallHook else RetryInstall)
    case StartError => Some(if hooks then RetryStartHook else RetryStart)
    case StopError => Some(if hooks then RetryStopHook else RetryStop)
    case CharmUpgradeError => Some(if hooks then RetryUpgradeCharmHook else RetryUpgradeCharm)
    case ConfigureError => Some(if hooks then RetryConfigureHook else RetryConfigure)
    case Unset | Installed | Started | Stopped => None
  }

  function AliasFor(hooks: bool): string {
    if hooks then RETRY_HOOK else RETRY
  }

  /** Which transition of a state has the alias. */
  lemma RetryHasAlias(s: State, hooks: bool, id: Id)
    ensures RetryOf(s, hooks) == Some(id) <==> Source(id) == s && Alias(id) == Some(AliasFor(hooks))
  {
    assert |RETRY| != |RETRY_HOOK|;
  }

  /** A retry alias is neither missing nor ambiguous in exactly the five error states. */
  lemma RetryIsUnambiguous(s: State, hooks: bool)
    ensures s in TABLE.sources && Valid(TABLE)
    ensures TheAlias(TABLE, s, AliasFor(hooks)) == RetryOf(s, hooks)
  {
    hide TABLE, TRANSITIONS, TheAlias, RetryOf, AliasFor, Source, Destination, OnError, Alias, AutomaticIn,
      Automatic, Position;
    TableHolds();
    StateHolds(s);
    var found := TheAlias(TABLE, s, AliasFor(hooks));
    forall id
      ensures found == Some(id) <==> RetryOf(s, hooks) == Some(id)
    {
      AliasInTable(s, AliasFor(hooks), id);
      forall k
        ensures RetryOf(s, hooks) == Some(k) <==> Source(k) == s && Alias(k) == Some(AliasFor(hooks))
      {
        RetryHasAlias(s, hooks, k);
      }
    }
    if found.Some? {
      assert RetryOf(s, hooks) == Some(found.value);
    } else if RetryOf(s, hooks).Some? {
      assert found == Some(RetryOf(s, hooks).value);
    }
  }

  lemma AliasInTable(s: State, alias: string, id: Id)
    requires Valid(TABLE) && s in TABLE.sources
    ensures TheAlias(TABLE, s, alias) == Some(id) <==>
              Available(TABLE, s, id) && forall k :: Available(TABLE, s, k) ==>
                  (TABLE.transitions[k].alias == Some(alias) <==> k == id)
  {
    hide TRANSITIONS, Build, TheAlias, Position;
    forall i, j | 0 <= i < j < |TRANSITIONS|
      ensures TRANSITIONS[i].id != TRANSITIONS[j].id
    {
      Positions(i);
      Positions(j);
    }
    TheAliasIff(TRANSITIONS, s, alias, id);
  }

  lemma ToInstalled(s: State)
    ensures (exists id :: Source(id) == s && Destination(id) == Installed) <==> s == Unset || s == InstallError
    ensures forall id :: Destination(id) != Unset
  {
    if s == Unset { assert Source(Install) == s && Destination(Install) == Installed; }
    if s == InstallError { assert Source(RetryInstall) == s && Destination(RetryInstall) == Installed; }
  }

  /** In the unit workflow transition_state keeps its word except when it is asked for `installed` from
      the start or after an install error: there the automatic start moves on. */
  lemma TrueMeansThereInUnit(saved: Saved<State, Id>, target: State)
    ensures Valid(TABLE) && Acyclic(TABLE)
    ensures TrueMeansThere(TABLE, saved, target)
            <==> target != Installed || (saved.state != Unset && saved.state != InstallError)
  {
    hide TABLE, TRANSITIONS, FirstTo, Automatic, Acyclic, TrueMeansThere, Source, Destination;
    TableHolds();
    TableIsAcyclic();
    StateHolds(target);
    StateHolds(saved.state);
    ToInstalled(saved.state);
    TrueMeansThereIff(TABLE, saved, target);
    var edge := FirstTo(TABLE, TABLE.sources[saved.state], target);
    if edge.Some? {
      assert Available(TABLE, saved.state, edge.value);
    } else {
      assert forall id :: Available(TABLE, saved.state, id) ==> Destination(id) != target;
    }
  }

  /** transition_state answers true although the state it names is not the one reached: asked for
      `installed` after an install error it retries, and the automatic start moves on at once. */
  lemma AchievedIsNotWhereItIs(acts: Id -> Outcome)
    requires forall id :: acts(id).Done?
    ensures Valid(TABLE) && Acyclic(TABLE)
    ensures var f := FireTo(TABLE, Saved(InstallError, map[], None), Installed, acts);
            f.result == Ok(true) && f.stored != [] && Last(f.stored).state == Started
  {
    hide TABLE, TRANSITIONS, Fire, Acyclic, Automatic, FirstTo, Rank;
    TableHolds();
    TableIsAcyclic();
    StateHolds(InstallError);
    StateHolds(Installed);
    StateHolds(Started);
    var saved := Saved(InstallError, map[], None);
    assert Available(TABLE, InstallError, RetryInstall) && TABLE.transitions[RetryInstall] == Entry(RetryInstall);
    var edge := FirstTo(TABLE, TABLE.sources[InstallError], Installed);
    assert edge.Some?;
    var id := edge.value;
    assert Available(TABLE, InstallError, id) && TABLE.transitions[id] == Entry(id);
    RetryThenStart(acts, id, saved);
  }

  lemma RetryThenStart(acts: Id -> Outcome, id: Id, saved: Saved<State, Id>)
    requires Valid(TABLE) && Acyclic(TABLE) && acts(id).Done? && acts(Start).Done?
    requires Source(id) == InstallError == saved.state && Destination(id) == Installed
    ensures var f := Fire(TABLE, saved, id, map[], acts);
            f.result == Ok(true) && f.stored != [] && Last(f.stored).state == Started
  {
    hide TABLE, TRANSITIONS, Fire, Acyclic, Automatic, Rank, Valid;
    TableHolds();
    StateHolds(Installed);
    StateHolds(Started);
    FireUnfolds(TABLE, saved, id, map[], acts);
    var mid := Last(Stores(TABLE.transitions[id], saved, map[], acts(id)));
    FireUnfolds(TABLE, mid, Start, map[], acts);
  }

  // ------------------------------------------------- lifecycle and executor

  /** Is the unit lifecycle running, and the hook executor? */
  datatype Life = Life(running: bool, executor: bool)

  /** Asserts of lifecycle and executor, and a queued hook that no executor picks up. */
  datatype Fault = AlreadyStopped | NeedsToBeRunning | ExecutorRunning | ExecutorStopped | HookWaits

  /** An action is done, ends in the error that becomes a TransitionError, or meets a fault. */
  datatype Ending = Worked | Broke | Stuck(fault: Fault)

  /** What the environment decides: do hooks fail, does the preparation of an upgrade, is there a new
      charm to put in place, does that fail? */
  datatype Luck = Luck(hookFails: bool, prepareFails: bool, ready: bool, replaceFails: bool)

  function Hook(l: Life, luck: Luck): Ending {
    if !l.executor then Stuck(HookWaits) else if luck.hookFails then Broke else Worked
  }

  function PriorityHook(l: Life, luck: Luck): Ending {
    if l.executor then Stuck(ExecutorRunning) else if luck.hookFails then Broke else Worked
  }

  function LifeInstall(l: Life, hooks: bool, luck: Luck): (Life, Ending) {
    (l, if hooks then Hook(l, luck) else Worked)
  }

  function LifeStart(l: Life, hooks: bool, luck: Luck): (Life, Ending) {
    if hooks && Hook(l, luck) != Worked then (l, Hook(l, luck)) else (l.(running := true), Worked)
  }

  function LifeStop(l: Life, hooks: bool, luck: Luck): (Life, Ending) {
    if !l.running then (l, Stuck(AlreadyStopped))
    else if hooks && Hook(l, luck) != Worked then (l, Hook(l, luck))
    else (l.(running := false), Worked)
  }

  function LifeConfigure(l: Life, hooks: bool, luck: Luck): (Life, Ending) {
    if !hooks then (l, Worked)
    else if !l.running then (l, Stuck(NeedsToBeRunning))
    else (l, Hook(l, luck))
  }

  function LifeUpgrade(l: Life, hooks: bool, luck: Luck): (Life, Ending) {
    if luck.prepareFails then (l, Broke)
    else
      var paused := l.(executor := false);
      if luck.ready && luck.replaceFails then (paused, Broke)
      else if (luck.ready || hooks) && PriorityHook(paused, luck) != Worked then (paused, PriorityHook(paused, luck))
      else (paused.(executor := true), Worked)
  }

  /** The do_ method of a transition; where there is none, the transition is done at once. */
  function Act(id: Id, l: Life, luck: Luck): (Life, Ending) {
    match id
    case Install | RetryInstallHook => LifeInstall(l, true, luck)
    case RetryInstall => LifeInstall(l, false, luck)
    case Start | RetryStartHook => LifeStart(l, true, luck)
    case RetryStart => LifeStart(l, false, luck)
    case Stop | RetryStopHook => LifeStop(l, true, luck)
    case RetryStop | ErrorConfigure | ErrorRetryConfigure => LifeStop(l, false, luck)
    case UpgradeCharm | RetryUpgradeCharmHook => LifeUpgrade(l, true, luck)
    case RetryUpgradeCharm => LifeUpgrade(l, false, luck)
    case Configure => LifeConfigure(l, true, luck)
    case RetryConfigure => LifeConfigure(LifeStart(l, false, luck).0, false, luck)
    case RetryConfigureHook => LifeConfigure(LifeStart(l, false, luck).0, true, luck)
    case ErrorInstall | ErrorStart | ErrorStop | UpgradeCharmError | RetryUpgradeCharmError => (l, Worked)
  }

  /** _get_preconditions: what synchronize sets up before it takes the workflow on. */
  function Wanted(saved: Saved<State, Id>): Life {
    if saved.state == CharmUpgradeError then Life(true, false)
    else if saved.state == Started then Life(true, saved.inflight != Some(UpgradeCharm))
    else Life(false, true)
  }

  function EndingOf(fault: Option<Fault>): Ending {
    match fault case None => Worked case Some(f) => Stuck(f)
  }

  class HookExecutor {
    var running: bool

    constructor ()
      ensures !running
    {
      running := false;
    }

    method Start() returns (fault: Option<Fault>)
      modifies this
      ensures running
      ensures fault == if old(running) then Some(ExecutorRunning) else None
    {
      if running { return Some(ExecutorRunning); }
      running := true;
      fault := None;
    }

    method Stop() returns (fault: Option<Fault>)
      modifies this
      ensures !running
      ensures fault == if old(running) then None else Some(ExecutorStopped)
    {
      if !running { return Some(ExecutorStopped); }
      running := false;
      fault := None;
    }
  }

  class UnitLifecycle {
    var running: bool
    const executor: HookExecutor

    constructor (executor: HookExecutor)
      ensures !running && this.executor == executor
    {
      running := false;
      this.executor := executor;
    }

    function Value(): Life
      reads this, executor
    {
      Life(running, executor.running)
    }

    /** The method leaves the flags and ends as the function says. */
    ghost predicate Did(r: (Life, Ending), e: Ending)
      reads this, executor
    {
      Value() == r.0 && e == r.1
    }

    method ExecuteHook(luck: Luck) returns (e: Ending)
      ensures e == Hook(Value(), luck)
    {
      if !executor.running { return Stuck(HookWaits); }
      e := if luck.hookFails then Broke else Worked;
    }

    /** run_priority_hook */
    method ExecuteNow(luck: Luck) returns (e: Ending)
      ensures e == PriorityHook(Value(), luck)
    {
      if executor.running { return Stuck(ExecutorRunning); }
      e := if luck.hookFails then Broke else Worked;
    }

    method Install(hooks: bool, luck: Luck) returns (e: Ending)
      ensures Did(LifeInstall(Value(), hooks, luck), e)
    {
      e := Worked;
      if hooks { e := ExecuteHook(luck); }
    }

    method Start(hooks: bool, luck: Luck) returns (e: Ending)
      modifies this
      ensures Did(LifeStart(old(Value()), hooks, luck), e)
    {
      if hooks {
        e := ExecuteHook(luck);
        if e != Worked { return; }
      }
      running := true;
      e := Worked;
    }

    method Stop(hooks: bool, luck: Luck) returns (e: Ending)
      modifies this
      ensures Did(LifeStop(old(Value()), hooks, luck), e)
    {
      if !running { return Stuck(AlreadyStopped); }
      if hooks {
        e := ExecuteHook(luck);
        if e != Worked { return; }
      }
      running := false;
      e := Worked;
    }

    method Configure(hooks: bool, luck: Luck) returns (e: Ending)
      ensures Did(LifeConfigure(Value(), hooks, luck), e)
    {
      if !hooks { return Worked; }
      if !running { return Stuck(NeedsToBeRunning); }
      e := ExecuteHook(luck);
    }

    /** upgrade_charm without force: none of its executor asserts can fail. */
    method Upgrade(hooks: bool, luck: Luck) returns (e: Ending)
      modifies executor
      ensures Did(LifeUpgrade(old(Value()), hooks, luck), e)
      ensures !e.Stuck?
    {
      if luck.prepareFails { return Broke; }
      if executor.running { var _ := executor.Stop(); }
      var fire := hooks;
      if luck.ready {
        if luck.replaceFails { return Broke; }
        fire := true;
      }
      if fire {
        e := ExecuteNow(luck);
        if e != Worked { return; }
      }
      var fault := executor.Start();
      e := EndingOf(fault);
    }

    /** The do_ methods of UnitWorkflowState. */
    method Do(id: Id, luck: Luck) returns (e: Ending)
      modifies this, executor
      ensures Did(Act(id, old(Value()), luck), e)
    {
      match id {
        case Install | RetryInstallHook => e := Install(true, luck);
        case RetryInstall => e := Install(false, luck);
        case Start | RetryStartHook => e := Start(true, luck);
        case RetryStart => e := Start(false, luck);
        case Stop | RetryStopHook => e := Stop(true, luck);
        case RetryStop | ErrorConfigure | ErrorRetryConfigure => e := Stop(false, luck);
        case UpgradeCharm | RetryUpgradeCharmHook => e := Upgrade(true, luck);
        case RetryUpgradeCharm => e := Upgrade(false, luck);
        case Configure => e := Configure(true, luck);
        case RetryConfigure =>
          e := Start(false, luck);
          e := Configure(false, luck);
        case RetryConfigureHook =>
          e := Start(false, luck);
          e := Configure(true, luck);
        case ErrorInstall | ErrorStart | ErrorStop | UpgradeCharmError | RetryUpgradeCharmError => e := Worked;
      }
    }

    /** The part of synchronize before the workflow is taken on. */
    method Prepare(saved: Saved<State, Id>)
      modifies this, executor
      ensures Value() == Wanted(saved)
    {
      var wanted := Wanted(saved);
      if wanted.executor {
        if !executor.running { var _ := executor.Start(); }
      } else if executor.running {
        var _ := executor.Stop();
      }
      var calm := Luck(false, false, false, false);
      if wanted.running {
        if !running { var _ := Start(false, calm); }
      } else if running {
        var _ := Stop(false, calm);
      }
    }
  }
}
