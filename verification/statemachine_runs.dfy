/** Whole runs of one workflow, step by step: the process may die and come back between any two steps,
    and whatever is stored then is what synchronize finds. */
module StateMachineRuns {
  import opened Wrappers
  import opened StateMachine

  /** Where fire_transition is: before its check, or with the action running. */
  datatype Pc<T> = Idle | Checking(id: T, given: Variables) | Acting(id: T, given: Variables)

  datatype Machine<S, T> = Machine(saved: Saved<S, T>, pc: Pc<T>, history: seq<Saved<S, T>>, raised: Option<Error>)

  datatype Step<T> =
    | Call(id: T, given: Variables)
    | Check
    | Finish(outcome: Outcome)
    | Restart

  function Start<S, T>(saved: Saved<S, T>): Machine<S, T> {
    Machine(saved, Idle, [], None)
  }

  function Record<S, T>(m: Machine<S, T>, record: Saved<S, T>, pc: Pc<T>): Machine<S, T> {
    m.(saved := record, history := m.history + [record], pc := pc)
  }

  function Then<T>(next: Option<T>): Pc<T> {
    match next case None => Idle case Some(id) => Checking(id, map[])
  }

  /** Where synchronize goes on: with the transition in flight, else with an automatic one. */
  function Resumed<S, T>(w: Table<S, T>, saved: Saved<S, T>): Pc<T> {
    if saved.inflight.Some? then Checking(saved.inflight.value, map[]) else Then(Automatic(w, saved.state))
  }

  /** One atomic step, between two accesses to the store. */
  function Next<S, T>(w: Table<S, T>, m: Machine<S, T>, step: Step<T>): Machine<S, T> {
    match step
    case Call(id, given) => if m.pc.Idle? then m.(pc := Checking(id, given)) else m
    case Check =>
      if !m.pc.Checking? then m
      else if m.saved.state !in w.sources then m.(pc := Idle, raised := Some(InvalidState))
      else if !Available(w, m.saved.state, m.pc.id) then m.(pc := Idle, raised := Some(InvalidTransition))
      else Record(m, Begun(m.saved, m.pc.id), Acting(m.pc.id, m.pc.given))
    case Finish(outcome) =>
      if !m.pc.Acting? || m.pc.id !in w.transitions then m
      else
        var t := w.transitions[m.pc.id];
        (match outcome
         case Done(returned) => Record(m, Moved(t, m.pc.given, returned), Then(Automatic(w, t.destination)))
         case Failed =>
           if t.error.Some? then m.(pc := Checking(t.error.value, map[]))
           else Record(m, m.saved.(inflight := None), Idle))
    case Restart => m.(pc := Resumed(w, m.saved))
  }

  function Run<S, T>(w: Table<S, T>, m: Machine<S, T>, steps: seq<Step<T>>): Machine<S, T>
    decreases |steps|
  {
    if steps == [] then m else Run(w, Next(w, m, steps[0]), steps[1..])
  }

  // -------------------------------------------------------- the marker is safe

  ghost predicate MarkerFits<S, T>(w: Table<S, T>, m: Machine<S, T>) {
    && m.saved.state in w.sources && InflightFits(w, m.saved)
    && AllFit(w, m.history)
    && (m.pc.Acting? ==> m.saved.inflight == Some(m.pc.id) && m.pc.id in w.transitions)
  }

  lemma NextKeepsMarker<S(!new), T(!new)>(w: Table<S, T>, m: Machine<S, T>, step: Step<T>)
    requires Valid(w) && MarkerFits(w, m)
    ensures MarkerFits(w, Next(w, m, step))
  {
    var m' := Next(w, m, step);
    if m'.history != m.history {
      AllFitJoins(w, m.history, [m'.saved]);
    }
  }

  /** In every record ever stored, whatever is called, fails or crashes, and for any table: the
      transition in flight is absent or available from the recorded state. */
  lemma {:induction false} MarkerAlwaysFits<S(!new), T(!new)>(w: Table<S, T>, m: Machine<S, T>, steps: seq<Step<T>>)
    requires Valid(w) && MarkerFits(w, m)
    ensures MarkerFits(w, Run(w, m, steps))
    decreases |steps|
  {
    if steps != [] {
      NextKeepsMarker(w, m, steps[0]);
      MarkerAlwaysFits(w, Next(w, m, steps[0]), steps[1..]);
    }
  }

  /** So wherever a process dies, the one that comes after it can take up what it finds. */
  lemma RestartIsAccepted<S(!new), T(!new)>(w: Table<S, T>, m: Machine<S, T>, steps: seq<Step<T>>)
    requires Valid(w) && MarkerFits(w, m)
    ensures var crashed := Run(w, m, steps);
            var resumed := Next(w, Next(w, crashed, Restart), Check);
            && resumed.raised == crashed.raised
            && (crashed.saved.inflight.Some? ==> resumed.pc == Acting(crashed.saved.inflight.value, map[]))
  {
    hide Run, Valid;
    MarkerAlwaysFits(w, m, steps);
    var crashed := Run(w, m, steps);
    if Automatic(w, crashed.saved.state).Some? { AutomaticIsAvailable(w, crashed.saved.state); }
  }

  lemma AutomaticIsAvailable<S(!new), T(!new)>(w: Table<S, T>, s: S)
    requires Automatic(w, s).Some?
    ensures Available(w, s, Automatic(w, s).value)
  {
  }

  // ------------------------------------------------------ when nothing is raised

  /** Callers fire transitions that are available; only transitions with an action can fail. */
  ghost predicate Allowed<S, T>(w: Table<S, T>, acting: set<T>, m: Machine<S, T>, step: Step<T>) {
    match step
    case Call(id, _) => m.pc.Idle? && Available(w, m.saved.state, id)
    case Check => m.pc.Checking?
    case Finish(outcome) => m.pc.Acting? && (outcome.Failed? ==> m.pc.id in acting)
    case Restart => true
  }

  ghost predicate AllowedRun<S, T>(w: Table<S, T>, acting: set<T>, m: Machine<S, T>, steps: seq<Step<T>>)
    decreases |steps|
  {
    steps == [] || (Allowed(w, acting, m, steps[0]) && AllowedRun(w, acting, Next(w, m, steps[0]), steps[1..]))
  }

  /** No allowed run from any record with a fitting transition in flight raises. */
  ghost predicate NeverRaises<S(!new), T(!new)>(w: Table<S, T>, acting: set<T>) {
    forall saved: Saved<S, T>, steps: seq<Step<T>> ::
      saved.state in w.sources && InflightFits(w, saved) && AllowedRun(w, acting, Start(saved), steps)
      ==> Run(w, Start(saved), steps).raised.None?
  }

  /** The error transition of a transition that can fail leaves the same state. */
  ghost predicate SharedSources<S, T>(w: Table<S, T>, acting: set<T>) {
    forall id :: id in w.transitions && id in acting && w.transitions[id].error.Some? ==>
      var error := w.transitions[id].error.value;
      error in w.transitions && w.transitions[error].source == w.transitions[id].source
  }

  /** Whatever is about to be checked will pass. */
  ghost predicate WillPass<S, T>(w: Table<S, T>, m: Machine<S, T>) {
    && m.raised.None?
    && (m.pc.Checking? ==> Available(w, m.saved.state, m.pc.id))
  }

  lemma NextWillPass<S(!new), T(!new)>(w: Table<S, T>, acting: set<T>, m: Machine<S, T>, step: Step<T>)
    requires Valid(w) && SharedSources(w, acting) && MarkerFits(w, m) && WillPass(w, m) && Allowed(w, acting, m, step)
    ensures WillPass(w, Next(w, m, step))
  {
  }

  lemma {:induction false} RunWillPass<S(!new), T(!new)>(w: Table<S, T>, acting: set<T>, m: Machine<S, T>,
                                                         steps: seq<Step<T>>)
    requires Valid(w) && SharedSources(w, acting) && MarkerFits(w, m) && WillPass(w, m)
    requires AllowedRun(w, acting, m, steps)
    ensures Run(w, m, steps).raised.None?
    decreases |steps|
  {
    hide Next, Valid, SharedSources, MarkerFits, Allowed;
    if steps != [] {
      NextWillPass(w, acting, m, steps[0]);
      NextKeepsMarker(w, m, steps[0]);
      RunWillPass(w, acting, Next(w, m, steps[0]), steps[1..]);
    }
  }

  /** The run that a misplaced error transition spoils. */
  lemma MisplacedErrorRaises<S(!new), T(!new)>(w: Table<S, T>, acting: set<T>, id: T)
    requires Valid(w) && id in w.transitions && id in acting && w.transitions[id].error.Some?
    requires !Available(w, w.transitions[id].source, w.transitions[id].error.value)
    ensures !NeverRaises(w, acting)
  {
    var saved := Saved(w.transitions[id].source, map[], None);
    var m0 := Start(saved);
    var m1 := Next(w, m0, Call(id, map[]));
    var m2 := Next(w, m1, Check);
    var m3 := Next(w, m2, Finish(Failed));
    var m4 := Next(w, m3, Check);
    assert Allowed(w, acting, m0, Call(id, map[])) && Allowed(w, acting, m1, Check);
    assert Allowed(w, acting, m2, Finish(Failed)) && Allowed(w, acting, m3, Check) && m4.raised.Some?;
    hide Next, Allowed;
    var s3: seq<Step<T>> := [Check] + [];
    var s2 := [Finish(Failed)] + s3;
    var s1 := [Check] + s2;
    OneStep(w, acting, m3, Check, []);
    OneStep(w, acting, m2, Finish(Failed), s3);
    OneStep(w, acting, m1, Check, s2);
    OneStep(w, acting, m0, Call(id, map[]), s1);
    var steps := [Call(id, map[])] + s1;
    assert AllowedRun(w, acting, m0, steps) && Run(w, m0, steps) == m4;
  }

  lemma OneStep<S, T>(w: Table<S, T>, acting: set<T>, m: Machine<S, T>, a: Step<T>, rest: seq<Step<T>>)
    ensures Run(w, m, [a] + rest) == Run(w, Next(w, m, a), rest)
    ensures AllowedRun(w, acting, m, [a] + rest) <==>
        Allowed(w, acting, m, a) && AllowedRun(w, acting, Next(w, m, a), rest)
  {
    assert ([a] + rest)[1..] == rest;
  }

  /** Firing available transitions never raises exactly when every error transition of a transition
      that can fail shares its source. */
  lemma NeverRaisesIff<S(!new), T(!new)>(w: Table<S, T>, acting: set<T>)
    requires Valid(w)
    ensures NeverRaises(w, acting) <==> SharedSources(w, acting)
  {
    if SharedSources(w, acting) {
      forall saved: Saved<S, T>, steps: seq<Step<T>> |
        saved.state in w.sources && InflightFits(w, saved) && AllowedRun(w, acting, Start(saved), steps)
        ensures Run(w, Start(saved), steps).raised.None?
      {
        RunWillPass(w, acting, Start(saved), steps);
      }
    } else {
      var id :| id in w.transitions && id in acting && w.transitions[id].error.Some?
                && !(w.transitions[id].error.value in w.transitions
                     && w.transitions[w.transitions[id].error.value].source == w.transitions[id].source);
      MisplacedErrorRaises(w, acting, id);
    }
  }

  // --------------------------------------- fire_transition is a run of such steps

  ghost function Script<S(!new), T(!new)>(w: Table<S, T>, saved: Saved<S, T>, id: T, given: Variables,
                                          acts: T -> Outcome): seq<Step<T>>
    requires Valid(w) && Acyclic(w)
    decreases Rank(w, id)
  {
    if !Available(w, saved.state, id) then [Check]
    else
      FireUnfolds(w, saved, id, given, acts);
      var next := Follow(w, acts(id), id);
      [Check, Finish(acts(id))] +
        if next.None? then []
        else Script(w, Last(Stores(w.transitions[id], saved, given, acts(id))), next.value, map[], acts)
  }

  lemma TwoSteps<S, T>(w: Table<S, T>, m: Machine<S, T>, a: Step<T>, b: Step<T>, rest: seq<Step<T>>)
    ensures Run(w, m, [a, b] + rest) == Run(w, Next(w, Next(w, m, a), b), rest)
  {
    assert ([a, b] + rest)[1..] == [b] + rest;
    assert ([b] + rest)[1..] == rest;
  }

  lemma OwnSteps<S(!new), T(!new)>(w: Table<S, T>, m: Machine<S, T>, outcome: Outcome)
    requires Valid(w) && m.pc.Checking? && Available(w, m.saved.state, m.pc.id)
    ensures var own := Stores(w.transitions[m.pc.id], m.saved, m.pc.given, outcome);
            Next(w, Next(w, m, Check), Finish(outcome)) ==
              Machine(Last(own), Then(Follow(w, outcome, m.pc.id)), m.history + own, m.raised)
  {
  }

  /** What fire_transition stores and returns is what the steps of one uninterrupted run store and raise. */
  lemma {:induction false} FireIsARun<S(!new), T(!new)>(w: Table<S, T>, m: Machine<S, T>, acts: T -> Outcome)
    requires Valid(w) && Acyclic(w) && m.pc.Checking? && m.raised.None?
    ensures var f := Fire(w, m.saved, m.pc.id, m.pc.given, acts);
            var end := Run(w, m, Script(w, m.saved, m.pc.id, m.pc.given, acts));
            && end.pc.Idle?
            && Recorded(m.saved, m.history, f.stored, end.saved, end.history)
            && end.raised == if f.result.Err? then Some(f.result.error) else None
    decreases Rank(w, m.pc.id)
  {
    var id, given := m.pc.id, m.pc.given;
    if Available(w, m.saved.state, id) {
      hide Fire, Acyclic, Rank, Stores, Follow, Recorded, Next, Run;
      FireUnfolds(w, m.saved, id, given, acts);
      var own := Stores(w.transitions[id], m.saved, given, acts(id));
      var next := Follow(w, acts(id), id);
      var m' := Machine(Last(own), Then(next), m.history + own, m.raised);
      OwnSteps(w, m, acts(id));
      if next.None? {
        TwoSteps(w, m, Check, Finish(acts(id)), []);
        RunNothing(w, m');
        RecordedOnce(m.saved, m.history, own);
      } else {
        TwoSteps(w, m, Check, Finish(acts(id)), Script(w, Last(own), next.value, map[], acts));
        FireIsARun(w, m', acts);
        var end := Run(w, m', Script(w, Last(own), next.value, map[], acts));
        RecordedJoins(m.saved, m.history, own, Fire(w, Last(own), next.value, map[], acts).stored,
            end.saved, end.history);
      }
    } else {
      OneStep(w, {}, m, Check, []);
    }
  }

  lemma RunNothing<S, T>(w: Table<S, T>, m: Machine<S, T>)
    ensures Run(w, m, []) == m
  {
  }
}
