/** The scheduler as a step machine: watch callbacks, hooks that succeed or fail,
    stops, pops and restarts, and what holds over every run of it. */
module HookRuns {
  import opened Wrappers
  import opened Sorting
  import opened HookChanges
  import opened HookCoherence

  /** Where the run loop is. Draining: stop() was called while a hook executes. */
  datatype Phase = Stopped | Waiting | Executing(current: Change) | Draining(current: Change)

  /** The scheduler's fields, and `done`: the changes finished_change has returned so far. */
  datatype Sched = Sched(phase: Phase, pending: seq<Change>, members: Option<set<Unit>>,
                         versions: map<Unit, nat>, done: seq<Change>)

  datatype Event =
    | ChangeMembers(old_: set<Unit>, new_: set<Unit>)
    | ChangeSettings(unitVersions: seq<(Unit, nat)>)
    | Run
    | HookDone(success: bool)
    | Stop
    | Pop
    | Restart

  /** A fresh scheduler, or one loaded from a file that records the members `base`. */
  predicate Initial(base: set<Unit>, s: Sched) {
    && s.phase == Stopped && s.pending == [] && s.done == []
    && match s.members
       case None => base == {} && s.versions == map[]
       case Some(m) => m == base && s.versions.Keys == base
  }

  /** HookQueue.put with a change: a waiting consumer is woken with the head. */
  function Put(s: Sched, c: Change, offset: nat, popAt: PopIndex): Option<Sched> {
    if s.phase.Waiting? then
      match QueueChange(s.pending, c, 0, popAt)
      case None => None
      case Some(p) => Some(s.(pending := p, phase := if p == [] then Waiting else Executing(p[0])))
    else
      match QueueChange(s.pending, c, offset, popAt)
      case None => None
      case Some(p) => Some(s.(pending := p))
  }

  /** int(self._running) */
  function Offset(s: Sched): nat {
    if s.phase.Waiting? || s.phase.Executing? then 1 else 0
  }

  /** The loop over sorted(added). */
  function JoinAll(s: Sched, us: seq<Unit>, popAt: PopIndex): (r: Option<Sched>)
    requires s.members.Some?
    ensures r.Some? ==> r.value.members.Some?
    decreases |us|
  {
    if us == [] then Some(s)
    else
      var m := s.members.value + {us[0]};
      match Put(s.(members := Some(m)), Change(us[0], Joined, m), Offset(s), popAt)
      case None => None
      case Some(t) => JoinAll(t, us[1..], popAt)
  }

  /** The loop over sorted(removed); None when the set removal would raise KeyError. */
  function DepartAll(s: Sched, us: seq<Unit>, popAt: PopIndex): Option<Sched>
    requires s.members.Some?
    decreases |us|
  {
    if us == [] then Some(s)
    else if us[0] !in s.members.value then None
    else
      var m := s.members.value - {us[0]};
      match Put(s.(members := Some(m)), Change(us[0], Departed, m), Offset(s), popAt)
      case None => None
      case Some(t) => DepartAll(t, us[1..], popAt)
  }

  function NewVersions(versions: map<Unit, nat>, new_: set<Unit>): (r: map<Unit, nat>)
    ensures r.Keys == new_
  {
    map u | u in new_ :: if u in versions then versions[u] else 0
  }

  /** cb_change_members */
  function MembersChanged(s: Sched, old_: set<Unit>, new_: set<Unit>, popAt: PopIndex): Option<Sched> {
    var s0 := if s.members.None? then s.(members := Some(old_)) else s;
    var s1 := s0.(versions := NewVersions(s.versions, new_));
    match JoinAll(s1, Sorted(new_ - s.versions.Keys), popAt)
    case None => None
    case Some(t) => DepartAll(t, Sorted(s.versions.Keys - new_), popAt)
  }

  /** cb_change_settings; None when there is no membership yet, which can neither be reported nor saved. */
  function SettingsChanged(s: Sched, vs: seq<(Unit, nat)>, popAt: PopIndex): Option<Sched>
    decreases |vs|
  {
    if vs == [] then (if s.members.None? then None else Some(s))
    else
      var (u, version) := vs[0];
      if version > (if u in s.versions then s.versions[u] else 0) then
        if s.members.None? then None
        else
          match Put(s.(versions := s.versions[u := version]), Change(u, Modified, s.members.value), Offset(s), popAt)
          case None => None
          case Some(t) => SettingsChanged(t, vs[1..], popAt)
      else SettingsChanged(s, vs[1..], popAt)
  }

  /** finished_change */
  function Finished(s: Sched): Sched {
    if s.pending == [] then s else s.(done := s.done + [s.pending[0]], pending := s.pending[1..])
  }

  /** The top of the run loop: fetch the head, or wait for one. */
  function Fetch(s: Sched): Sched {
    s.(phase := if s.pending == [] then Waiting else Executing(s.pending[0]))
  }

  /** One pass of the run loop's body after the hook came back. */
  function AfterHook(s: Sched, success: bool, popAt: PopIndex): Option<Sched>
    requires s.phase.Executing? || s.phase.Draining?
  {
    var c := s.phase.current;
    var queued :=
      if c.kind != Joined then Some(s.pending)
      else if s.members.None? then None
      else QueueChange(s.pending, Change(c.unit, Modified, s.members.value), 1, popAt);
    match queued
    case None => None
    case Some(p) =>
      var t := s.(pending := p);
      if !success then Some(t.(phase := Stopped))
      else if s.phase.Draining? then Some(Finished(t).(phase := Stopped))
      else Some(Fetch(Finished(t)))
  }

  /** What the surroundings may do. Watch callbacks report settings of current members only and
      start from no members; they do not run between a stop and the end of the hook in progress;
      a stopped loop is run or popped, a loop with a hook in progress gets that hook's result. */
  ghost predicate Enabled(s: Sched, e: Event) {
    match e
    case ChangeMembers(old_, _) => !s.phase.Draining? && (s.members.None? ==> old_ == {})
    case ChangeSettings(vs) =>
      !s.phase.Draining? && s.members.Some? && forall i :: 0 <= i < |vs| ==> vs[i].0 in s.versions
    case Run => s.phase.Stopped?
    case HookDone(_) => s.phase.Executing? || s.phase.Draining?
    case Stop => true
    case Pop => s.phase.Stopped?
    case Restart => true
  }

  /** One event; None when the code would raise. */
  function Step(s: Sched, e: Event, popAt: PopIndex): Option<Sched> {
    match e
    case ChangeMembers(old_, new_) => MembersChanged(s, old_, new_, popAt)
    case ChangeSettings(vs) => SettingsChanged(s, vs, popAt)
    case Run => if s.phase.Stopped? then Some(Fetch(s)) else None
    case HookDone(success) => if s.phase.Executing? || s.phase.Draining? then AfterHook(s, success, popAt) else None
    case Stop =>
      Some(match s.phase
           case Executing(c) => s.(phase := Draining(c))
           case Waiting => s.(phase := Stopped)
           case _ => s)
    case Pop => if s.phase.Stopped? then Some(Finished(s)) else None
    case Restart => Some(s.(phase := Stopped))
  }

  /** t is reached from s by a run of enabled events. */
  ghost predicate Reaches(s: Sched, es: seq<Event>, t: Sched, popAt: PopIndex)
    decreases |es|
  {
    if es == [] then s == t
    else Enabled(s, es[0]) && var r := Step(s, es[0], popAt); r.Some? && Reaches(r.value, es[1..], t, popAt)
  }

  function Known(s: Sched): set<Unit> {
    if s.members.Some? then s.members.value else {}
  }

  /** The phase agrees with the queue: nobody waits on a filled queue and the hook in progress is the head. */
  ghost predicate InStep(s: Sched) {
    match s.phase
    case Stopped => true
    case Waiting => s.pending == []
    case Executing(c) => s.pending != [] && s.pending[0] == c
    case Draining(c) => s.pending != [] && s.pending[0] == c
  }

  ghost predicate Inv(base: set<Unit>, s: Sched) {
    && Coherent(base, s.done, s.pending, Known(s))
    && InStep(s)
    && s.versions.Keys == Known(s)
    && (s.members.None? ==> s.pending == [] && s.done == [] && base == {})
  }

  predicate IsRunning(s: Sched) { s.phase.Waiting? || s.phase.Executing? }

  /** The loop neither starts nor stops, and only a waiting one may take up a hook. */
  predicate SameLoop(s: Sched, t: Sched) {
    (IsRunning(t) <==> IsRunning(s)) && (!s.phase.Waiting? ==> t.phase == s.phase)
  }

  // --------------------------------------------------------- one event

  lemma InitialInv(base: set<Unit>, s: Sched)
    requires Initial(base, s)
    ensures Inv(base, s)
  {
    assert s.done + s.pending == [];
  }

  /** put keeps the queue coherent wherever the run loop is. */
  lemma PutKeeps(base: set<Unit>, s: Sched, c: Change, now: set<Unit>, next: set<Unit>)
    requires Coherent(base, s.done, s.pending, now) && InStep(s) && !s.phase.Draining?
    requires Fits(c, now, next)
    ensures var r := Put(s, c, Offset(s), Absolute);
            && r.Some? && Coherent(base, s.done, r.value.pending, next) && InStep(r.value) && !r.value.phase.Draining?
            && r.value == s.(pending := r.value.pending, phase := r.value.phase)
            && SameLoop(s, r.value)
  {
    var offset := if s.phase.Executing? then 1 else 0;
    QueueKeepsCoherent(base, s.done, s.pending, now, c, next, offset);
    if s.phase.Executing? {
      HeadStays(s.pending, c);
    }
  }

  /** With offset 1 the head is out of reach. */
  lemma HeadStays(pending: seq<Change>, c: Change)
    requires pending != []
    requires QueueChange(pending, c, 1, Absolute).Some?
    ensures var p := QueueChange(pending, c, 1, Absolute).value; p != [] && p[0] == pending[0]
  {
  }

  function Names(us: seq<Unit>): set<Unit> {
    set u | u in us
  }

  ghost predicate Distinct(us: seq<Unit>) {
    forall i, j :: 0 <= i < j < |us| ==> us[i] != us[j]
  }

  lemma NamesOf(us: seq<Unit>)
    requires us != [] && Distinct(us)
    ensures Names(us) == {us[0]} + Names(us[1..]) && us[0] !in Names(us[1..])
    ensures Distinct(us[1..])
  {
  }

  /** Watch callbacks find the scheduler like this between two of their puts. */
  ghost predicate Ready(base: set<Unit>, s: Sched) {
    && s.members.Some? && Coherent(base, s.done, s.pending, s.members.value)
    && InStep(s) && !s.phase.Draining?
  }

  lemma PutOne(base: set<Unit>, s: Sched, c: Change)
    requires Ready(base, s) && Fits(c, s.members.value, c.members)
    ensures var r := Put(s.(members := Some(c.members)), c, Offset(s), Absolute);
            && r.Some? && Ready(base, r.value) && r.value.members == Some(c.members)
            && r.value.versions == s.versions && r.value.done == s.done && SameLoop(s, r.value)
  {
    PutKeeps(base, s.(members := Some(c.members)), c, s.members.value, c.members);
  }

  lemma {:induction false} JoinAllKeeps(base: set<Unit>, s: Sched, us: seq<Unit>)
    requires Ready(base, s) && Distinct(us) && Names(us) !! s.members.value
    ensures var r := JoinAll(s, us, Absolute);
            && r.Some? && Ready(base, r.value) && r.value.members == Some(s.members.value + Names(us))
            && r.value.versions == s.versions && r.value.done == s.done && SameLoop(s, r.value)
    decreases |us|
  {
    hide Coherent, Put;
    if us == [] {
      assert s.members.value + Names(us) == s.members.value;
    } else {
      var c := Change(us[0], Joined, s.members.value + {us[0]});
      NamesOf(us);
      PutOne(base, s, c);
      JoinAllKeeps(base, Put(s.(members := Some(c.members)), c, Offset(s), Absolute).value, us[1..]);
      assert c.members + Names(us[1..]) == s.members.value + Names(us);
    }
  }

  lemma {:induction false} DepartAllKeeps(base: set<Unit>, s: Sched, us: seq<Unit>)
    requires Ready(base, s) && Distinct(us) && Names(us) <= s.members.value
    ensures var r := DepartAll(s, us, Absolute);
            && r.Some? && Ready(base, r.value) && r.value.members == Some(s.members.value - Names(us))
            && r.value.versions == s.versions && r.value.done == s.done && SameLoop(s, r.value)
    decreases |us|
  {
    hide Coherent, Put;
    if us == [] {
      assert s.members.value - Names(us) == s.members.value;
    } else {
      var c := Change(us[0], Departed, s.members.value - {us[0]});
      NamesOf(us);
      assert us[0] in Names(us);
      PutOne(base, s, c);
      DepartAllKeeps(base, Put(s.(members := Some(c.members)), c, Offset(s), Absolute).value, us[1..]);
      assert c.members - Names(us[1..]) == s.members.value - Names(us);
    }
  }

  /** After cb_change_members the scheduler knows exactly the reported members. */
  lemma MembersChangedKeeps(base: set<Unit>, s: Sched, old_: set<Unit>, new_: set<Unit>)
    requires Inv(base, s) && Enabled(s, ChangeMembers(old_, new_))
    ensures var r := MembersChanged(s, old_, new_, Absolute);
            && r.Some? && Inv(base, r.value) && !r.value.phase.Draining?
            && r.value.members == Some(new_) && r.value.versions.Keys == new_ && r.value.done == s.done
            && SameLoop(s, r.value)
  {
    hide Coherent, Put;
    var s0 := if s.members.None? then s.(members := Some(old_)) else s;
    var s1 := s0.(versions := NewVersions(s.versions, new_));
    var added := Sorted(new_ - s.versions.Keys);
    var removed := Sorted(s.versions.Keys - new_);
    JoinAllKeeps(base, s1, added);
    var t := JoinAll(s1, added, Absolute).value;
    assert Names(added) == new_ - s.versions.Keys && Names(removed) == s.versions.Keys - new_;
    DepartAllKeeps(base, t, removed);
    assert (s1.members.value + Names(added)) - Names(removed) == new_;
  }

  lemma {:induction false} SettingsChangedKeeps(base: set<Unit>, s: Sched, vs: seq<(Unit, nat)>)
    requires Inv(base, s) && Enabled(s, ChangeSettings(vs))
    ensures var r := SettingsChanged(s, vs, Absolute);
            && r.Some? && Inv(base, r.value) && !r.value.phase.Draining?
            && r.value.members == s.members && r.value.done == s.done && SameLoop(s, r.value)
    decreases |vs|
  {
    hide Coherent, QueueChange;
    if vs != [] {
      var (u, version) := vs[0];
      if version > s.versions[u] {
        var s' := s.(versions := s.versions[u := version]);
        var c := Change(u, Modified, s.members.value);
        PutKeeps(base, s', c, Known(s), Known(s));
        var t := Put(s', c, Offset(s), Absolute).value;
        assert t.versions.Keys == s.versions.Keys;
        SettingsChangedKeeps(base, t, vs[1..]);
      } else {
        SettingsChangedKeeps(base, s, vs[1..]);
      }
    }
  }

  lemma FinishedKeeps(base: set<Unit>, done: seq<Change>, pending: seq<Change>, now: set<Unit>)
    requires Coherent(base, done, pending, now) && pending != []
    ensures Coherent(base, done + [pending[0]], pending[1..], now)
  {
    var h := [pending[0]];
    assert pending == h + pending[1..];
    assert (done + h) + pending[1..] == done + pending;
    forall u
      ensures |Kinds(u, pending[1..])| <= 2
    {
      KindsConcat(u, h, pending[1..]);
    }
    forall i, v | 0 <= i < |pending[1..]| && v in pending[1..][i].members
      ensures Told(base, v, (done + h) + pending[1..][..i + 1])
    {
      assert (done + h) + pending[1..][..i + 1] == done + pending[..i + 2];
      var j := i + 1;
      assert v in pending[j].members;
      assert Told(base, v, done + pending[..j + 1]);
    }
  }

  lemma AfterHookKeeps(base: set<Unit>, s: Sched, success: bool)
    requires Inv(base, s) && Enabled(s, HookDone(success))
    ensures var r := AfterHook(s, success, Absolute);
            && r.Some? && Inv(base, r.value)
            && r.value.done == s.done + (if success then [s.phase.current] else [])
  {
    var c := s.phase.current;
    if c.kind == Joined {
      LoopModifiedKeeps(base, s.done, s.pending, Known(s), c.unit);
      var p := QueueChange(s.pending, Change(c.unit, Modified, Known(s)), 1, Absolute).value;
      assert p[..1][0] == s.pending[..1][0];
      FinishedKeeps(base, s.done, p, Known(s));
    } else {
      FinishedKeeps(base, s.done, s.pending, Known(s));
    }
  }

  /** One event keeps the invariant, never raises, and only ever extends the history. */
  lemma StepKeeps(base: set<Unit>, s: Sched, e: Event)
    requires Inv(base, s) && Enabled(s, e)
    ensures Step(s, e, Absolute).Some? && Inv(base, Step(s, e, Absolute).value)
    ensures s.done <= Step(s, e, Absolute).value.done
  {
    match e
    case ChangeMembers(old_, new_) => MembersChangedKeeps(base, s, old_, new_);
    case ChangeSettings(vs) => SettingsChangedKeeps(base, s, vs);
    case HookDone(success) => AfterHookKeeps(base, s, success);
    case Pop =>
      if s.pending != [] {
        FinishedKeeps(base, s.done, s.pending, Known(s));
      }
    case Run =>
    case Stop =>
    case Restart =>
  }

  predicate StopsLoop(e: Event) { e.Stop? || e.Restart? || e == HookDone(false) }

  /** Only running it starts the loop; only a stop, a failed hook and the end of the process stop it; and a hook
      in progress goes on until it comes back, or the process ends. */
  lemma StepSwitches(base: set<Unit>, s: Sched, e: Event)
    requires Inv(base, s) && Enabled(s, e)
    ensures var r := Step(s, e, Absolute);
            && r.Some?
            && (IsRunning(r.value) <==> e.Run? || (IsRunning(s) && !StopsLoop(e)))
            && (s.phase.Executing? || s.phase.Draining? ==>
                  if e.HookDone? || e.Restart? then !r.value.phase.Draining?
                  else (r.value.phase.Executing? || r.value.phase.Draining?)
                       && r.value.phase.current == s.phase.current)
  {
    hide Coherent, QueueChange;
    match e
    case ChangeMembers(old_, new_) => MembersChangedKeeps(base, s, old_, new_);
    case ChangeSettings(vs) => SettingsChangedKeeps(base, s, vs);
    case HookDone(success) => AfterHookKeeps(base, s, success);
    case _ =>
  }

  // --------------------------------------------------------- whole runs

  /** Has the last event that switches the loop, if any, switched it on? */
  predicate SwitchedOn(running: bool, es: seq<Event>)
    decreases |es|
  {
    if es == [] then running else SwitchedOn(es[0].Run? || (running && !StopsLoop(es[0])), es[1..])
  }

  /** Over every run: the loop runs exactly when it was switched on last; and then, with anything queued,
      the hook of the head is in progress, so that nothing waits behind an idle loop. */
  lemma {:induction false} LoopRunsIff(base: set<Unit>, s: Sched, es: seq<Event>, t: Sched)
    requires Inv(base, s) && Reaches(s, es, t, Absolute)
    ensures IsRunning(t) <==> SwitchedOn(IsRunning(s), es)
    ensures IsRunning(t) && t.pending != [] ==> t.phase == Executing(t.pending[0])
    decreases |es|
  {
    hide Coherent, Step, Enabled;
    if es != [] {
      StepSwitches(base, s, es[0]);
      StepKeeps(base, s, es[0]);
      LoopRunsIff(base, Step(s, es[0], Absolute).value, es[1..], t);
    }
  }

  lemma {:induction false} RunKeeps(base: set<Unit>, s: Sched, es: seq<Event>, t: Sched)
    requires Inv(base, s) && Reaches(s, es, t, Absolute)
    ensures Inv(base, t) && s.done <= t.done
    decreases |es|
  {
    if es != [] {
      StepKeeps(base, s, es[0]);
      RunKeeps(base, Step(s, es[0], Absolute).value, es[1..], t);
    }
  }

  /** Over every run: the completed hooks of each unit form a legal word; replaying them and
      then the queue yields the membership the scheduler knows; and with an empty queue the
      charm's view is that membership. */
  lemma CompletedHooksAreLegal(base: set<Unit>, s: Sched, es: seq<Event>, t: Sched)
    requires Initial(base, s) && Reaches(s, es, t, Absolute)
    ensures forall u :: Word(u in base, Kinds(u, t.done)).Some?
    ensures Fold(base, t.done).Some?
    ensures Fold(base, t.done + t.pending) == Some(Known(t))
    ensures t.pending == [] ==> Fold(base, t.done) == Some(Known(t))
  {
    InitialInv(base, s);
    RunKeeps(base, s, es, t);
    FoldIsPointwise(base, t.done + t.pending, Known(t));
    forall u
      ensures Word(u in base, Kinds(u, t.done)).Some?
    {
      KindsConcat(u, t.done, t.pending);
      WordPrefix(u in base, Kinds(u, t.done), Kinds(u, t.pending));
    }
    FoldPrefix(base, t.done, t.pending);
    if t.pending == [] {
      assert t.done + t.pending == t.done;
    }
  }

  lemma {:induction false} FoldPrefix(base: set<Unit>, a: seq<Change>, b: seq<Change>)
    requires Fold(base, a + b).Some?
    ensures Fold(base, a).Some? && Fold(Fold(base, a).value, b) == Fold(base, a + b)
    decreases |a|
  {
    if a == [] {
      assert a + b == b;
    } else {
      assert (a + b)[1..] == a[1..] + b;
      var q := Tell(a[0].unit in base, a[0].kind).value;
      FoldPrefix(if q then base + {a[0].unit} else base - {a[0].unit}, a[1..], b);
    }
  }

  /** Over every run: the hook in progress, retried or not, makes sense to the charm at that
      point, is the one finished_change will remove, and lists only members the charm has been
      told have joined and not been told have left. */
  lemma ExecutingHookIsLegal(base: set<Unit>, s: Sched, es: seq<Event>, t: Sched)
    requires Initial(base, s) && Reaches(s, es, t, Absolute)
    requires t.phase.Executing? || t.phase.Draining?
    ensures t.pending != [] && t.pending[0] == t.phase.current
    ensures var view := Fold(base, t.done);
            && view.Some?
            && (t.phase.current.kind == Joined <==> t.phase.current.unit !in view.value)
            && Fold(view.value, [t.phase.current]).Some?
            && t.phase.current.members <= Fold(view.value, [t.phase.current]).value
  {
    hide Reaches, Initial;
    InitialInv(base, s);
    RunKeeps(base, s, es, t);
    var c := t.phase.current;
    CompletedHooksAreLegal(base, s, es, t);
    assert t.pending == [c] + t.pending[1..];
    assert t.done + t.pending == (t.done + [c]) + t.pending[1..];
    FoldPrefix(base, t.done + [c], t.pending[1..]);
    FoldPrefix(base, t.done, [c]);
    var after := Fold(base, t.done + [c]).value;
    FoldIsPointwise(base, t.done + [c], after);
    forall v | v in c.members
      ensures v in after
    {
      assert v in t.pending[0].members;
      assert Told(base, v, t.done + t.pending[..0 + 1]);
      assert t.pending[..1] == [c];
    }
  }

  /** u's joined change is among s. */
  ghost predicate HasJoin(u: Unit, s: seq<Change>) {
    exists j :: 0 <= j < |s| && s[j].unit == u && s[j].kind == Joined
  }

  lemma HasJoinConcat(u: Unit, a: seq<Change>, b: seq<Change>, j: nat)
    requires j < |a + b| && (a + b)[j].unit == u && (a + b)[j].kind == Joined
    ensures HasJoin(u, a) || HasJoin(u, b)
  {
    if j < |a| {
      assert a[j] == (a + b)[j];
    } else {
      assert b[j - |a|] == (a + b)[j];
    }
  }

  /** No phantom members: in every reachable queue, a unit listed by an entry is a member for the charm
      once that entry's hook has run. So it was one at the start, or its joined hook has completed, or its
      joined change is at or before the entry; and it has not left since. */
  lemma NoPhantomMembers(base: set<Unit>, s: Sched, es: seq<Event>, t: Sched, i: nat, v: Unit)
    requires Initial(base, s) && Reaches(s, es, t, Absolute)
    requires i < |t.pending| && v in t.pending[i].members
    ensures var view := Fold(base, t.done + t.pending[..i + 1]);
            view.Some? && v in view.value
    ensures v in base || HasJoin(v, t.done) || HasJoin(v, t.pending[..i + 1])
  {
    hide Reaches, Initial;
    var h := t.done + t.pending[..i + 1];
    assert Told(base, v, h) by {
      InitialInv(base, s);
      RunKeeps(base, s, es, t);
    }
    CompletedHooksAreLegal(base, s, es, t);
    assert h + t.pending[i + 1..] == t.done + t.pending;
    FoldPrefix(base, h, t.pending[i + 1..]);
    FoldIsPointwise(base, h, Fold(base, h).value);
    if v !in base {
      var j := SomeJoined(v, h);
      HasJoinConcat(v, t.done, t.pending[..i + 1], j);
    }
  }

  /** A unit can only become a member through a joined hook. */
  lemma {:induction false} SomeJoined(v: Unit, h: seq<Change>) returns (j: nat)
    requires Word(false, Kinds(v, h)) == Some(true)
    ensures j < |h| && h[j].unit == v && h[j].kind == Joined
    decreases |h|
  {
    if h[0].unit == v {
      assert Kinds(v, h)[0] == h[0].kind;
      j := 0;
    } else {
      assert Kinds(v, h) == Kinds(v, h[1..]);
      var k := SomeJoined(v, h[1..]);
      j := k + 1;
    }
  }
}
