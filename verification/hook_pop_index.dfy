/** The index `_queue_change` pops at. The source looks a change up in pending[offset:] and pops
    that slice-relative index from the full list: right when nothing runs, wrong behind a running hook. */
module HookPopIndex {
  import opened Wrappers
  import opened Sorting
  import opened HookChanges
  import opened HookCoherence
  import opened HookRuns

  // ------------------------------------------------ while the loop is stopped

  ghost predicate Once(pending: seq<Change>) {
    forall u :: |Kinds(u, pending)| <= 1
  }

  /** Taking a unit's only entry out leaves none of it. */
  lemma RemoveKeepsOnce(pending: seq<Change>, k: nat)
    requires Once(pending) && k < |pending|
    ensures Once(RemoveAt(pending, k)) && Kinds(pending[k].unit, RemoveAt(pending, k)) == []
  {
    forall u
      ensures |Kinds(u, RemoveAt(pending, k))| <= 1
    {
      KindsSplit(u, pending, k);
    }
    KindsSplit(pending[k].unit, pending, k);
  }

  lemma AppendKeepsOnce(pending: seq<Change>, c: Change)
    requires Once(pending) && Kinds(c.unit, pending) == []
    ensures Once(pending + [c])
  {
    forall u
      ensures |Kinds(u, pending + [c])| <= 1
    {
      KindsConcat(u, pending, [c]);
    }
  }

  /** Queued at offset 0, a change leaves every unit at most once in the queue. */
  lemma QueueKeepsOnce(pending: seq<Change>, c: Change, popAt: PopIndex)
    requires Once(pending) && QueueChange(pending, c, 0, popAt).Some?
    ensures Once(QueueChange(pending, c, 0, popAt).value)
  {
    assert Slice(pending, 0) == pending;
    match Previous(c.unit, pending)
    case None =>
      NoneFor(c.unit, pending);
      AppendKeepsOnce(pending, c);
    case Some(k) =>
      match Reduce(pending[k].kind, c.kind)
      case KeepPrevious =>
      case TakeNew(kind) =>
        RemoveKeepsOnce(pending, k);
        AppendKeepsOnce(RemoveAt(pending, k), c.(kind := kind));
      case Cancelled =>
        var w := Wipe(c.unit, pending, 0);
        forall u ensures |Kinds(u, w)| <= 1 { KindsSame(u, pending, w); }
        RemoveKeepsOnce(w, k);
  }

  lemma PutStopped(s: Sched, c: Change)
    requires s.phase.Stopped?
    ensures Put(s, c, Offset(s), SliceRelative) == Put(s, c, Offset(s), Absolute)
    ensures var r := Put(s, c, Offset(s), Absolute);
            r.Some? ==> r.value.phase.Stopped? && r.value.members == s.members
                        && (Once(s.pending) ==> Once(r.value.pending))
  {
    if Once(s.pending) && QueueChange(s.pending, c, 0, Absolute).Some? {
      QueueKeepsOnce(s.pending, c, Absolute);
    }
  }

  lemma {:induction false} JoinAllStopped(s: Sched, us: seq<Unit>)
    requires s.phase.Stopped? && s.members.Some?
    ensures JoinAll(s, us, SliceRelative) == JoinAll(s, us, Absolute)
    ensures Once(s.pending) && JoinAll(s, us, Absolute).Some? ==> Once(JoinAll(s, us, Absolute).value.pending)
    ensures JoinAll(s, us, Absolute).Some? ==> JoinAll(s, us, Absolute).value.phase.Stopped?
    decreases |us|
  {
    if us != [] {
      var m := s.members.value + {us[0]};
      var c := Change(us[0], Joined, m);
      hide Put, Once;
      PutStopped(s.(members := Some(m)), c);
      var t := Put(s.(members := Some(m)), c, Offset(s), Absolute);
      if t.Some? {
        JoinAllStopped(t.value, us[1..]);
      }
    }
  }

  lemma {:induction false} DepartAllStopped(s: Sched, us: seq<Unit>)
    requires s.phase.Stopped? && s.members.Some?
    ensures DepartAll(s, us, SliceRelative) == DepartAll(s, us, Absolute)
    ensures Once(s.pending) && DepartAll(s, us, Absolute).Some? ==> Once(DepartAll(s, us, Absolute).value.pending)
    ensures DepartAll(s, us, Absolute).Some? ==> DepartAll(s, us, Absolute).value.phase.Stopped?
    decreases |us|
  {
    if us != [] && us[0] in s.members.value {
      var m := s.members.value - {us[0]};
      var c := Change(us[0], Departed, m);
      hide Put, Once;
      PutStopped(s.(members := Some(m)), c);
      var t := Put(s.(members := Some(m)), c, Offset(s), Absolute);
      if t.Some? {
        DepartAllStopped(t.value, us[1..]);
      }
    }
  }

  lemma {:induction false} SettingsStopped(s: Sched, vs: seq<(Unit, nat)>)
    requires s.phase.Stopped?
    ensures SettingsChanged(s, vs, SliceRelative) == SettingsChanged(s, vs, Absolute)
    ensures Once(s.pending) && SettingsChanged(s, vs, Absolute).Some?
        ==> Once(SettingsChanged(s, vs, Absolute).value.pending)
    ensures SettingsChanged(s, vs, Absolute).Some? ==> SettingsChanged(s, vs, Absolute).value.phase.Stopped?
    decreases |vs|
  {
    if vs != [] {
      var (u, version) := vs[0];
      if version > (if u in s.versions then s.versions[u] else 0) {
        if s.members.Some? {
          var c := Change(u, Modified, s.members.value);
          hide Put, Once;
          PutStopped(s.(versions := s.versions[u := version]), c);
          var t := Put(s.(versions := s.versions[u := version]), c, Offset(s), Absolute);
          if t.Some? {
            SettingsStopped(t.value, vs[1..]);
          }
        }
      } else {
        SettingsStopped(s, vs[1..]);
      }
    }
  }

  /** While no hook runs, the code as written does what it means. */
  lemma StoppedAgrees(s: Sched, e: Event)
    requires s.phase.Stopped?
    ensures Step(s, e, SliceRelative) == Step(s, e, Absolute)
  {
    match e
    case ChangeMembers(old_, new_) =>
      var s0 := if s.members.None? then s.(members := Some(old_)) else s;
      var s1 := s0.(versions := NewVersions(s.versions, new_));
      JoinAllStopped(s1, Sorted(new_ - s.versions.Keys));
      var t := JoinAll(s1, Sorted(new_ - s.versions.Keys), Absolute);
      if t.Some? { DepartAllStopped(t.value, Sorted(s.versions.Keys - new_)); }
    case ChangeSettings(vs) => SettingsStopped(s, vs);
    case _ =>
  }

  predicate IsCallback(e: Event) {
    e.ChangeMembers? || e.ChangeSettings?
  }

  lemma CallbackKeepsOnce(s: Sched, e: Event)
    requires s.phase.Stopped? && Once(s.pending) && IsCallback(e)
    requires Step(s, e, Absolute).Some?
    ensures Once(Step(s, e, Absolute).value.pending) && Step(s, e, Absolute).value.phase.Stopped?
  {
    match e
    case ChangeMembers(old_, new_) =>
      var s0 := if s.members.None? then s.(members := Some(old_)) else s;
      var s1 := s0.(versions := NewVersions(s.versions, new_));
      JoinAllStopped(s1, Sorted(new_ - s.versions.Keys));
      DepartAllStopped(JoinAll(s1, Sorted(new_ - s.versions.Keys), Absolute).value, Sorted(s.versions.Keys - new_));
    case ChangeSettings(vs) => SettingsStopped(s, vs);
  }

  /** The code as written, fed any callbacks while stopped, from an empty queue: it never meets an
      undefined pair; each unit is queued at most once; replaying the queue over the starting
      membership succeeds and gives the membership the scheduler knows. */
  lemma {:induction false} StoppedRunsMeanTheirEvents(base: set<Unit>, s: Sched, es: seq<Event>, t: Sched)
    requires Inv(base, s) && s.phase.Stopped? && Once(s.pending) && s.done == []
    requires forall i :: 0 <= i < |es| ==> IsCallback(es[i])
    requires Reaches(s, es, t, SliceRelative)
    ensures Once(t.pending) && t.phase.Stopped?
    ensures Fold(base, t.pending) == Some(Known(t))
    ensures forall e :: IsCallback(e) && Enabled(t, e) ==> Step(t, e, SliceRelative).Some?
    decreases |es|
  {
    if es == [] {
      assert t.done + t.pending == t.pending;
      FoldIsPointwise(base, t.pending, Known(t));
      forall e | IsCallback(e) && Enabled(t, e)
        ensures Step(t, e, SliceRelative).Some?
      {
        StoppedAgrees(t, e);
        StepKeeps(base, t, e);
      }
    } else {
      StoppedAgrees(s, es[0]);
      StepKeeps(base, s, es[0]);
      CallbackKeepsOnce(s, es[0]);
      CallbackKeepsDone(base, s, es[0]);
      StoppedRunsMeanTheirEvents(base, Step(s, es[0], Absolute).value, es[1..], t);
    }
  }

  lemma CallbackKeepsDone(base: set<Unit>, s: Sched, e: Event)
    requires Inv(base, s) && Enabled(s, e) && IsCallback(e)
    ensures Step(s, e, Absolute).Some? && Step(s, e, Absolute).value.done == s.done
  {
    match e
    case ChangeMembers(old_, new_) => MembersChangedKeeps(base, s, old_, new_);
    case ChangeSettings(vs) => SettingsChangedKeeps(base, s, vs);
  }

  /** A restart loses nothing: the reloaded scheduler has the same members, versions and queue, and
      the watcher's first report, which starts from no units, brings members, version keys and the
      reported units together without a failing removal, on the code as written, keeping the history. */
  lemma RestartThenMembers(base: set<Unit>, s: Sched, now: set<Unit>, popAt: PopIndex)
    requires Inv(base, s) && s.members.Some?
    ensures var r := Step(s, Restart, popAt);
            && r.Some? && r.value.members == s.members && r.value.versions == s.versions && r.value.pending == s.pending
            && var n := Step(r.value, ChangeMembers({}, now), popAt);
               && n.Some? && n.value.members == Some(now) && n.value.versions.Keys == now
               && Inv(base, n.value) && n.value.done == s.done
  {
    hide Inv;
    StepKeeps(base, s, Restart);
    var t := Step(s, Restart, Absolute).value;
    StoppedAgrees(t, ChangeMembers({}, now));
    MembersChangedKeeps(base, t, {}, now);
  }

  // ------------------------------------------------ behind a running hook

  /** The branches of _queue_change that pop, by what a caller can look up beforehand. */
  predicate Pops(pending: seq<Change>, c: Change) {
    var r := Previous(c.unit, Slice(pending, 1));
    r.Some? && !Reduce(Slice(pending, 1)[r.value].kind, c.kind).KeepPrevious?
  }

  /** What the code as written pops is what it means to pop: nothing, or the entry directly behind the
      head, of which the head is a twin. Any other popped entry leaves the meant one in the queue; the
      entry directly behind a head unlike it costs the queue that head, whose hook is running. */
  predicate PopsRight(pending: seq<Change>, c: Change) {
    !Pops(pending, c) || (Previous(c.unit, Slice(pending, 1)) == Some(0) && pending[0] == pending[1])
  }

  /** Exactly when the code as written rewrites the queue behind the running hook as it means to. */
  lemma PopIndexIsRightIff(base: set<Unit>, done: seq<Change>, pending: seq<Change>, now: set<Unit>, c: Change,
                           next: set<Unit>)
    requires Coherent(base, done, pending, now) && pending != []
    requires Fits(c, now, next)
    ensures QueueChange(pending, c, 1, SliceRelative) == QueueChange(pending, c, 1, Absolute) <==> PopsRight(pending, c)
  {
    hide Coherent, Fits;
    QueueKeepsCoherent(base, done, pending, now, c, next, 1);
    var slice := pending[1..];
    if Pops(pending, c) {
      var idx := Previous(c.unit, slice).value;
      assert slice[idx] == pending[idx + 1];
      FoundIsFirst(c.unit, slice);
      match Reduce(slice[idx].kind, c.kind)
      case TakeNew(k) => RemoveNeighbours(pending, idx, [c.(kind := k)]);
      case Cancelled =>
        var w := Wipe(c.unit, pending, 1);
        if w[idx] == w[idx + 1] || pending[idx] == pending[idx + 1] {
          TwinsAreModified(base, done, pending, now, idx, idx + 1);
        }
        RemoveNeighbours(w, idx, []);
        assert RemoveAt(w, idx) + [] == RemoveAt(w, idx);
        assert RemoveAt(w, idx + 1) + [] == RemoveAt(w, idx + 1);
    }
  }

  /** list.index never reports a position behind an equal one. */
  lemma FoundIsFirst(u: Unit, s: seq<Change>)
    requires Previous(u, s).Some?
    ensures forall j :: 0 <= j < Previous(u, s).value ==> s[j] != s[Previous(u, s).value]
  {
  }

  /** Removing either of two neighbours is the same exactly when they are equal. */
  lemma RemoveNeighbours(s: seq<Change>, i: nat, tail: seq<Change>)
    requires i + 1 < |s|
    ensures RemoveAt(s, i) + tail == RemoveAt(s, i + 1) + tail <==> s[i] == s[i + 1]
  {
    var a := RemoveAt(s, i) + tail;
    var b := RemoveAt(s, i + 1) + tail;
    assert a[i] == s[i + 1] && b[i] == s[i];
    assert forall j :: 0 <= j < |a| && j != i ==> a[j] == b[j];
  }

  lemma SortedOne(u: Unit)
    ensures Sorted({u}) == [u]
  {
    assert {u} - {u} == {};
    assert Least({u}) == u;
  }

  lemma SortedNone()
    ensures Sorted({}) == []
  {
  }

  // A run in which it goes wrong: b and c join while a's joined hook runs, then c leaves.

  const JA := Change("a", Joined, {"a"})
  const JB := Change("b", Joined, {"a", "b"})
  const JC := Change("c", Joined, {"a", "b", "c"})
  const JC_WIPED := Change("c", Joined, {"a", "b"})
  const MA := Change("a", Modified, {"a", "b"})
  const V1 := NewVersions(map[], {"a"})
  const V2 := NewVersions(V1, {"a", "b"})
  const V3 := NewVersions(V2, {"a", "b", "c"})
  const V4 := NewVersions(V3, {"a", "b"})
  const S0 := Sched(Stopped, [], None, map[], [])
  const S1 := S0.(phase := Waiting)
  const S2 := Sched(Executing(JA), [JA], Some({"a"}), V1, [])
  const S3 := Sched(Executing(JA), [JA, JB], Some({"a", "b"}), V2, [])
  const S4 := Sched(Executing(JA), [JA, JB, JC], Some({"a", "b", "c"}), V3, [])
  const S5 := Sched(Executing(JA), [JA, JC_WIPED], Some({"a", "b"}), V4, [])
  const S6 := Sched(Executing(JC_WIPED), [JC_WIPED, MA], Some({"a", "b"}), V4, [JA])

  lemma AJoins()
    ensures Step(S1, ChangeMembers({}, {"a"}), SliceRelative) == Some(S2)
  {
    JoinStep(S1, "a", {}, {"a"});
    assert Known(S1) + {"a"} == {"a"};
    Unqueued([], JA, 0);
    assert [] + [JA] == [JA];
  }

  lemma BJoins()
    ensures Step(S2, ChangeMembers({"a"}, {"a", "b"}), SliceRelative) == Some(S3)
  {
    JoinStep(S2, "b", {"a"}, {"a", "b"});
    assert Known(S2) + {"b"} == {"a", "b"};
    Unqueued([JA], JB, 1);
    assert [JA] + [JB] == [JA, JB];
  }

  lemma CJoins()
    ensures Step(S3, ChangeMembers({"a", "b"}, {"a", "b", "c"}), SliceRelative) == Some(S4)
  {
    JoinStep(S3, "c", {"a", "b"}, {"a", "b", "c"});
    assert Known(S3) + {"c"} == {"a", "b", "c"};
    Unqueued([JA, JB], JC, 1);
    assert [JA, JB] + [JC] == [JA, JB, JC];
  }

  lemma CLeaves()
    ensures Step(S4, ChangeMembers({"a", "b", "c"}, {"a", "b"}), SliceRelative) == Some(S5)
  {
    DepartStep(S4, "c", {"a", "b", "c"}, {"a", "b"});
    assert Known(S4) - {"c"} == {"a", "b"};
    Misplaced(JA, JB, JC, Change("c", Departed, {"a", "b"}));
    assert JC.members - {"c"} == {"a", "b"};
  }

  lemma AsHookEnds()
    ensures Step(S5, HookDone(true), SliceRelative) == Some(S6)
  {
    Unqueued([JA, JC_WIPED], MA, 1);
    assert [JA, JC_WIPED] + [MA] == [JA, JC_WIPED, MA];
    assert [JA, JC_WIPED, MA][1..] == [JC_WIPED, MA] && [] + [JA] == [JA];
  }

  lemma RunFetches()
    ensures Step(S0, Run, SliceRelative) == Some(S1)
  {
  }

  /** The code as written drops b's join, keeps c's, and so tells the charm that c joined. */
  lemma PopIndexLosesAJoin() returns (es: seq<Event>)
    ensures Initial({}, S0) && Reaches(S0, es, S6, SliceRelative)
    ensures S6.phase == Executing(JC_WIPED)
    ensures Known(S6) == {"a", "b"} && Fold({}, S6.done + S6.pending) == Some({"a", "c"})
  {
    hide Step, Reaches, Fold;
    AJoins(); BJoins(); CJoins(); CLeaves(); AsHookEnds();
    RunFetches();
    es := [Run, ChangeMembers({}, {"a"}), ChangeMembers({"a"}, {"a", "b"}), ChangeMembers({"a", "b"}, {"a", "b", "c"}),
           ChangeMembers({"a", "b", "c"}, {"a", "b"}), HookDone(true)];
    StepsReach(S0, S1, S2, S3, S4, S5, S6, es);
    FoldOfLoss();
  }

  // A second one, with the popped entry directly behind the head: b joins and leaves while a's joined hook
  // runs, and that hook fails.

  const JB_WIPED := Change("b", Joined, {"a"})
  const MA_ALONE := Change("a", Modified, {"a"})
  const W4 := NewVersions(V2, {"a"})
  const T4 := Sched(Executing(JA), [JB_WIPED], Some({"a"}), W4, [])
  const T5 := Sched(Stopped, [JB_WIPED, MA_ALONE], Some({"a"}), W4, [])
  const T6 := T5.(phase := Executing(JB_WIPED))

  lemma BLeaves()
    ensures Step(S3, ChangeMembers({"a", "b"}, {"a"}), SliceRelative) == Some(T4)
  {
    DepartStep(S3, "b", {"a", "b"}, {"a"});
    assert Known(S3) - {"b"} == {"a"};
    HeadPopped(JA, JB, Change("b", Departed, {"a"}));
    assert JB.members - {"b"} == {"a"};
  }

  lemma AsHookFails()
    ensures Step(T4, HookDone(false), SliceRelative) == Some(T5)
  {
    Unqueued([JB_WIPED], MA_ALONE, 1);
    assert [JB_WIPED] + [MA_ALONE] == [JB_WIPED, MA_ALONE];
  }

  lemma RunFetchesB()
    ensures Step(T5, Run, SliceRelative) == Some(T6)
  {
  }

  /** The code as written drops the join of a, whose hook is to be retried, keeps b's, and so tells the
      charm that b joined, which has left. What is queued is no legal story at all. */
  lemma PopIndexLosesTheHead() returns (es: seq<Event>)
    ensures Initial({}, S0) && Reaches(S0, es, T6, SliceRelative)
    ensures T6.phase == Executing(JB_WIPED)
    ensures Known(T6) == {"a"} && Fold({}, T6.done + T6.pending) == None
  {
    hide Step, Reaches, Fold;
    AJoins(); BJoins(); BLeaves(); AsHookFails(); RunFetchesB();
    RunFetches();
    es := [Run, ChangeMembers({}, {"a"}), ChangeMembers({"a"}, {"a", "b"}), ChangeMembers({"a", "b"}, {"a"}),
           HookDone(false), Run];
    StepsReach(S0, S1, S2, S3, T4, T5, T6, es);
    FoldOfNonsense();
  }

  lemma FoldOfNonsense()
    ensures Fold({}, T6.done + T6.pending) == None
  {
    var h := [JB_WIPED, MA_ALONE];
    assert T6.done + T6.pending == h;
    assert h[1..] == [MA_ALONE];
    assert {} + {"b"} == {"b"};
    assert Fold({"b"}, [MA_ALONE]) == None;
  }

  /** The misplaced pop at the front: the only entry behind the head is cancelled, the head goes. */
  lemma HeadPopped(ja: Change, jb: Change, c: Change)
    requires jb.kind == Joined && c.kind == Departed && c.unit == jb.unit
    ensures QueueChange([ja, jb], c, 1, SliceRelative) == Some([jb.(members := jb.members - {c.unit})])
  {
    var pending := [ja, jb];
    var slice := Slice(pending, 1);
    assert slice == [jb];
    assert LastFor(c.unit, slice) == Some(0);
    assert Previous(c.unit, slice) == Some(0);
    var w := Wipe(c.unit, pending, 1);
    assert RemoveAt(w, 0) == [jb.(members := jb.members - {c.unit})];
  }

  lemma FoldOfLoss()
    ensures Fold({}, S6.done + S6.pending) == Some({"a", "c"})
  {
    var h := [JA, JC_WIPED, MA];
    assert S6.done + S6.pending == h;
    assert h[1..] == [JC_WIPED, MA] && [JC_WIPED, MA][1..] == [MA] && [MA][1..] == [];
    assert {} + {"a"} == {"a"} && {"a"} + {"c"} == {"a", "c"} && {"a", "c"} + {"a"} == {"a", "c"};
    assert Fold({"a", "c"}, []) == Some({"a", "c"});
    assert Fold({"a", "c"}, [MA]) == Some({"a", "c"});
    assert Fold({"a"}, [JC_WIPED, MA]) == Some({"a", "c"});
  }

  lemma StepsReach(s: Sched, s1: Sched, s2: Sched, s3: Sched, s4: Sched, s5: Sched, t: Sched, es: seq<Event>)
    requires |es| == 6
    requires Enabled(s, es[0]) && Step(s, es[0], SliceRelative) == Some(s1)
    requires Enabled(s1, es[1]) && Step(s1, es[1], SliceRelative) == Some(s2)
    requires Enabled(s2, es[2]) && Step(s2, es[2], SliceRelative) == Some(s3)
    requires Enabled(s3, es[3]) && Step(s3, es[3], SliceRelative) == Some(s4)
    requires Enabled(s4, es[4]) && Step(s4, es[4], SliceRelative) == Some(s5)
    requires Enabled(s5, es[5]) && Step(s5, es[5], SliceRelative) == Some(t)
    ensures Reaches(s, es, t, SliceRelative)
  {
    hide Step, Enabled;
    assert es[6..] == [];
    assert Reaches(t, es[6..], t, SliceRelative);
    ReachesStep(s5, es[5..], t, t);
    ReachesStep(s4, es[4..], s5, t);
    ReachesStep(s3, es[3..], s4, t);
    ReachesStep(s2, es[2..], s3, t);
    ReachesStep(s1, es[1..], s2, t);
    assert es[0..] == es;
    ReachesStep(s, es[0..], s1, t);
  }

  lemma ReachesStep(s: Sched, es: seq<Event>, s': Sched, t: Sched)
    requires es != [] && Enabled(s, es[0]) && Step(s, es[0], SliceRelative) == Some(s')
    requires Reaches(s', es[1..], t, SliceRelative)
    ensures Reaches(s, es, t, SliceRelative)
  {
    hide Step, Enabled;
  }

  /** A unit nobody queued yet is appended. */
  lemma Unqueued(pending: seq<Change>, c: Change, offset: nat)
    requires forall i :: 0 <= i < |Slice(pending, offset)| ==> Slice(pending, offset)[i].unit != c.unit
    ensures QueueChange(pending, c, offset, SliceRelative) == Some(pending + [c])
  {
  }

  /** The misplaced pop in small: the third of three joins is cancelled, the second one goes. */
  lemma Misplaced(ja: Change, jb: Change, jc: Change, c: Change)
    requires jb.unit != jc.unit && ja.kind == jb.kind == jc.kind == Joined && c.kind == Departed && c.unit == jc.unit
    ensures QueueChange([ja, jb, jc], c, 1, SliceRelative) == Some([ja, jc.(members := jc.members - {c.unit})])
  {
    var pending := [ja, jb, jc];
    var slice := Slice(pending, 1);
    assert slice == [jb, jc];
    assert LastFor(c.unit, slice) == Some(1);
    assert Previous(c.unit, slice) == Some(1);
    var w := Wipe(c.unit, pending, 1);
    assert RemoveAt(w, 1) == [ja, jc.(members := jc.members - {c.unit})];
  }

  lemma JoinStep(s: Sched, u: Unit, old_: set<Unit>, new_: set<Unit>)
    requires new_ - s.versions.Keys == {u} && s.versions.Keys - new_ == {}
    requires s.members.None? ==> old_ == {}
    ensures Step(s, ChangeMembers(old_, new_), SliceRelative)
         == Put(s.(members := Some(Known(s) + {u}), versions := NewVersions(s.versions, new_)),
                Change(u, Joined, Known(s) + {u}), Offset(s), SliceRelative)
  {
    SortedOne(u);
    SortedNone();
    var m := Known(s) + {u};
    var s1 := s.(members := Some(Known(s)), versions := NewVersions(s.versions, new_));
    var t := Put(s1.(members := Some(m)), Change(u, Joined, m), Offset(s1), SliceRelative);
    assert s1.(members := Some(m)) == s.(members := Some(m), versions := NewVersions(s.versions, new_));
    assert [u][1..] == [];
    assert Sorted(new_ - s.versions.Keys) == [u];
    assert Sorted(s.versions.Keys - new_) == [];
    if t.Some? {
      assert JoinAll(t.value, [], SliceRelative) == t;
      assert DepartAll(t.value, [], SliceRelative) == t;
    }
    assert JoinAll(s1, [u], SliceRelative) == t;
    assert MembersChanged(s, old_, new_, SliceRelative) == t;
  }

  lemma DepartStep(s: Sched, u: Unit, old_: set<Unit>, new_: set<Unit>)
    requires new_ - s.versions.Keys == {} && s.versions.Keys - new_ == {u}
    requires u in Known(s)
    ensures Step(s, ChangeMembers(old_, new_), SliceRelative)
         == Put(s.(members := Some(Known(s) - {u}), versions := NewVersions(s.versions, new_)),
                Change(u, Departed, Known(s) - {u}), Offset(s), SliceRelative)
  {
    SortedOne(u);
    SortedNone();
    var m := Known(s) - {u};
    var s1 := s.(versions := NewVersions(s.versions, new_));
    var t := Put(s1.(members := Some(m)), Change(u, Departed, m), Offset(s1), SliceRelative);
    assert s1.(members := Some(m)) == s.(members := Some(m), versions := NewVersions(s.versions, new_));
    assert [u][1..] == [];
    assert JoinAll(s1, [], SliceRelative) == Some(s1);
    if t.Some? {
      assert DepartAll(t.value, [], SliceRelative) == t;
    }
    assert DepartAll(s1, [u], SliceRelative) == t;
    assert MembersChanged(s, old_, new_, SliceRelative) == t;
  }
}
