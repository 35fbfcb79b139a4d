/** What a put does to the queue, said by what is in it before and after; and that news of a unit reaches the
    charm: whoever comes back, or has newer settings, has a hook of his pending or run after that. */
module HookNews {
  import opened Wrappers
  import opened Sorting
  import opened HookChanges
  import opened HookCoherence
  import opened HookRuns

  // ------------------------------------------------------ one put, by its outcome

  /** The last entry of a unit. */
  function Latest(u: Unit, s: seq<Change>): (r: Option<Change>)
    ensures r.None? <==> forall i :: 0 <= i < |s| ==> s[i].unit != u
    ensures r.Some? ==> exists i :: 0 <= i < |s| && s[i] == r.value && s[i].unit == u
                                    && forall j :: i < j < |s| ==> s[j].unit != u
  {
    match LastFor(u, s) case None => None case Some(i) => Some(s[i])
  }

  /** The entries of all other units, in order. */
  function Others(u: Unit, s: seq<Change>): seq<Change> {
    if s == [] then [] else (if s[0].unit == u then [] else [s[0]]) + Others(u, s[1..])
  }

  /** The same entries, with u in none of their member lists. */
  function Unlisted(u: Unit, s: seq<Change>): (r: seq<Change>)
    ensures |r| == |s| && forall i :: 0 <= i < |s| ==> r[i] == s[i].(members := s[i].members - {u})
  {
    seq(|s|, i requires 0 <= i < |s| => s[i].(members := s[i].members - {u}))
  }

  lemma {:induction false} OthersConcat(u: Unit, a: seq<Change>, b: seq<Change>)
    ensures Others(u, a + b) == Others(u, a) + Others(u, b)
  {
    if a == [] {
      assert a + b == b;
    } else {
      assert (a + b)[1..] == a[1..] + b;
      OthersConcat(u, a[1..], b);
    }
  }

  lemma OthersOfOne(u: Unit, c: Change)
    ensures Others(u, [c]) == if c.unit == u then [] else [c]
  {
    assert [c][1..] == [];
  }

  lemma OthersAfterRemove(u: Unit, s: seq<Change>, k: nat)
    requires k < |s| && s[k].unit == u
    ensures Others(u, RemoveAt(s, k)) == Others(u, s)
  {
    assert s == s[..k] + ([s[k]] + s[k + 1..]);
    OthersConcat(u, s[..k], [s[k]] + s[k + 1..]);
    OthersConcat(u, [s[k]], s[k + 1..]);
    OthersOfOne(u, s[k]);
    OthersConcat(u, s[..k], s[k + 1..]);
  }

  lemma {:induction false} OthersUnlisted(u: Unit, s: seq<Change>)
    ensures Others(u, Unlisted(u, s)) == Unlisted(u, Others(u, s))
  {
    if s != [] {
      assert Unlisted(u, s)[1..] == Unlisted(u, s[1..]);
      OthersUnlisted(u, s[1..]);
    }
  }

  /** The put of c, where the queue within reach is s and becomes r: settings news of a unit with an entry
      changes nothing; a return takes the place of the departure at the end, as a modification; a departure
      goes with the join it follows, or to the end; a unit without an entry gets this one at the end. Entries
      of other units all stay, in order and as they are, except that a unit whose join is taken back is
      listed by none of them any more. */
  ghost predicate Rewritten(s: seq<Change>, c: Change, r: seq<Change>) {
    var last := Latest(c.unit, s);
    var back := c.kind == Departed && last.Some? && last.value.kind == Joined;
    && (if back then Others(c.unit, r) == Unlisted(c.unit, Others(c.unit, s)) && |r| == |s| - 1
        else if last.Some? && c.kind == Modified then r == s
        else
          && Others(c.unit, r) == Others(c.unit, s)
          && |r| == (if last.None? then |s| + 1 else |s|)
          && r[|r| - 1] == if last.Some? && c.kind == Joined then c.(kind := Modified) else c)
  }

  lemma RemoveBehind(a: seq<Change>, s: seq<Change>, i: nat)
    requires i < |s|
    ensures a + RemoveAt(s, i) == RemoveAt(a + s, |a| + i)
  {
  }

  lemma WipeBehind(a: seq<Change>, s: seq<Change>, u: Unit)
    ensures a + Wipe(u, s, 0) == Wipe(u, a + s, |a|)
  {
  }

  /** Only what is within reach matters, and the rest stays. */
  lemma ReachOnly(pending: seq<Change>, c: Change, offset: nat)
    requires offset <= |pending|
    ensures QueueChange(pending, c, offset, Absolute) ==
              match QueueChange(pending[offset..], c, 0, Absolute)
              case None => None
              case Some(p) => Some(pending[..offset] + p)
  {
    hide RemoveAt, Wipe, Previous;
    var a, s := pending[..offset], pending[offset..];
    assert Slice(s, 0) == s && Slice(pending, offset) == s && a + s == pending;
    match Previous(c.unit, s)
    case None => assert a + (s + [c]) == pending + [c];
    case Some(idx) =>
      RemoveBehind(a, s, idx);
      WipeBehind(a, s, c.unit);
      RemoveBehind(a, Wipe(c.unit, s, 0), idx);
      match Reduce(s[idx].kind, c.kind)
      case TakeNew(k) => assert a + (RemoveAt(s, idx) + [c.(kind := k)]) == (a + RemoveAt(s, idx)) + [c.(kind := k)];
      case _ =>
  }

  /** What the backward search and list.index find is a last entry, or its equal in kind. */
  lemma FoundKind(base: set<Unit>, done: seq<Change>, pending: seq<Change>, now: set<Unit>, u: Unit, offset: nat)
    requires Coherent(base, done, pending, now) && offset <= |pending|
    ensures var s := pending[offset..];
            && (Previous(u, s).None? <==> Latest(u, s).None?)
            && (Previous(u, s).Some? ==>
                  && s[Previous(u, s).value] == Latest(u, s).value
                  && (u in now <==> Latest(u, s).value.kind != Departed))
  {
    hide Coherent;
    var s := pending[offset..];
    if Previous(u, s).Some? {
      PreviousTakesLast(base, done, pending, now, u, offset);
      KindOfWord(base, done, pending, now, u, offset + Previous(u, s).value);
    }
  }

  /** Every put whose change fits rewrites the queue like that, and leaves what is out of reach alone. */
  lemma PutMeans(base: set<Unit>, done: seq<Change>, pending: seq<Change>, now: set<Unit>, c: Change,
                 next: set<Unit>, offset: nat)
    requires Coherent(base, done, pending, now) && Fits(c, now, next)
    requires offset <= 1 && offset <= |pending|
    ensures var r := QueueChange(pending, c, offset, Absolute);
            && r.Some? && offset <= |r.value| && r.value[..offset] == pending[..offset]
            && Rewritten(pending[offset..], c, r.value[offset..])
  {
    hide Coherent;
    var u, s := c.unit, pending[offset..];
    QueueKeepsCoherent(base, done, pending, now, c, next, offset);
    ReachOnly(pending, c, offset);
    FoundKind(base, done, pending, now, u, offset);
    var p := QueueChange(s, c, 0, Absolute).value;
    var r := QueueChange(pending, c, offset, Absolute).value;
    assert r[..offset] == pending[..offset] && r[offset..] == p;
    RewrittenInReach(s, c);
  }

  lemma RewrittenInReach(s: seq<Change>, c: Change)
    requires Previous(c.unit, s).None? <==> Latest(c.unit, s).None?
    requires Previous(c.unit, s).Some? ==>
               && s[Previous(c.unit, s).value] == Latest(c.unit, s).value
               && (c.kind == Joined <==> Latest(c.unit, s).value.kind == Departed)
    ensures var r := QueueChange(s, c, 0, Absolute); r.Some? && Rewritten(s, c, r.value)
  {
    var u := c.unit;
    assert Slice(s, 0) == s;
    match Previous(u, s)
    case None =>
      OthersConcat(u, s, [c]);
      OthersOfOne(u, c);
    case Some(idx) =>
      OthersAfterRemove(u, s, idx);
      match Reduce(s[idx].kind, c.kind)
      case KeepPrevious =>
      case TakeNew(k) =>
        OthersConcat(u, RemoveAt(s, idx), [c.(kind := k)]);
        OthersOfOne(u, c.(kind := k));
      case Cancelled =>
        var w := Wipe(u, s, 0);
        assert w == Unlisted(u, s);
        OthersAfterRemove(u, w, idx);
        OthersUnlisted(u, s);
  }

  // ------------------------------------------------------------- news of a unit

  /** A hook that makes the charm look at u. */
  predicate IsNews(c: Change, u: Unit) {
    c.unit == u && c.kind != Departed
  }

  /** The last thing queued for u is news. */
  predicate Owed(u: Unit, s: seq<Change>) {
    Latest(u, s).Some? && Latest(u, s).value.kind != Departed
  }

  /** Putting other units' changes in keeps what is owed to u, and putting u's own makes it so. */
  lemma RewrittenOwes(s: seq<Change>, c: Change, r: seq<Change>, u: Unit)
    requires Rewritten(s, c, r)
    requires c.unit == u ==> c.kind != Departed && (c.kind == Modified && Latest(u, s).Some? ==> Owed(u, s))
    requires c.unit != u ==> Owed(u, s)
    ensures Owed(u, r)
  {
    if c.unit == u {
      if r != s { assert r[|r| - 1].unit == u; }
    } else {
      LatestOfOthers(u, c.unit, s);
      LatestOfOthers(u, c.unit, r);
      LatestUnlisted(u, c.unit, Others(c.unit, s));
    }
  }

  lemma {:induction false} LatestOfOthers(u: Unit, v: Unit, s: seq<Change>)
    requires u != v
    ensures Latest(u, Others(v, s)) == Latest(u, s)
    decreases |s|
  {
    hide Latest;
    if s != [] {
      var t, c := s[..|s| - 1], s[|s| - 1];
      assert s == t + [c];
      LatestOfOthers(u, v, t);
      LatestOfAppend(u, t, c);
      LatestOfAppend(u, Others(v, t), c);
      OthersConcat(v, t, [c]);
      OthersOfOne(v, c);
      assert c.unit == v ==> Others(v, t) + [] == Others(v, t);
    }
  }

  lemma LatestOfAppend(u: Unit, s: seq<Change>, c: Change)
    ensures Latest(u, s + [c]) == if c.unit == u then Some(c) else Latest(u, s)
  {
    assert (s + [c])[..|s|] == s;
  }

  lemma LatestUnlisted(u: Unit, v: Unit, s: seq<Change>)
    ensures Latest(u, s).Some? <==> Latest(u, Unlisted(v, s)).Some?
    ensures Latest(u, s).Some? ==> Latest(u, s).value.kind == Latest(u, Unlisted(v, s)).value.kind
  {
    if Latest(u, s).Some? {
      var i :| 0 <= i < |s| && s[i] == Latest(u, s).value && s[i].unit == u
               && forall j :: i < j < |s| ==> s[j].unit != u;
      assert Unlisted(v, s)[i].unit == u;
    }
  }

  // ----------------------------------------------------------- news over runs

  /** What the scheduler can still rewrite: not the change whose hook is in progress. */
  function Reach(s: Sched): seq<Change> {
    if s.phase.Executing? || s.phase.Draining? then Slice(s.pending, 1) else s.pending
  }

  /** The hook in progress is news of u. */
  predicate Runs(u: Unit, s: Sched) {
    (s.phase.Executing? || s.phase.Draining?) && IsNews(s.phase.current, u)
  }

  /** News of u is queued, or its hook is in progress and was started in time. */
  predicate Due(u: Unit, s: Sched, started: bool) {
    Owed(u, Reach(s)) || (started && Runs(u, s))
  }

  /** A member with anything queued has news queued last. */
  lemma MemberIsOwed(base: set<Unit>, s: Sched, now: set<Unit>, u: Unit)
    requires Coherent(base, s.done, s.pending, now) && u in now && Latest(u, s.pending).Some?
    ensures Owed(u, s.pending)
  {
    hide Coherent, Latest;
    FoundKind(base, s.done, s.pending, now, u, 0);
    assert s.pending[0..] == s.pending;
  }

  lemma PutOwes(base: set<Unit>, s: Sched, c: Change, now: set<Unit>, next: set<Unit>, u: Unit, started: bool)
    requires Coherent(base, s.done, s.pending, now) && InStep(s) && !s.phase.Draining? && Fits(c, now, next)
    requires if c.unit == u then c.kind != Departed else Due(u, s, started)
    ensures var r := Put(s, c, Offset(s), Absolute);
            r.Some? && Due(u, r.value, started || !s.phase.Executing?)
  {
    hide Coherent, QueueChange, Latest, Rewritten;
    var offset := if s.phase.Executing? then 1 else 0;
    PutMeans(base, s.done, s.pending, now, c, next, offset);
    var p := QueueChange(s.pending, c, offset, Absolute).value;
    var reach := s.pending[offset..];
    assert Reach(s) == reach;
    if c.unit == u || Owed(u, reach) {
      if c.unit == u && Latest(u, reach).Some? { FoundKind(base, s.done, s.pending, now, u, offset); }
      RewrittenOwes(reach, c, p[offset..], u);
      if s.phase.Waiting? { OwedHead(u, p); }
    }
  }

  /** What is owed is the first entry, or owed behind it. */
  lemma OwedHead(u: Unit, s: seq<Change>)
    requires Owed(u, s)
    ensures s != [] && (IsNews(s[0], u) || Owed(u, s[1..]))
  {
    var i :| 0 <= i < |s| && s[i] == Latest(u, s).value && s[i].unit == u && forall j :: i < j < |s| ==> s[j].unit != u;
    if i > 0 {
      assert s[1..][i - 1] == s[i];
    }
  }

  lemma OwedBehind(u: Unit, s: seq<Change>)
    requires s != [] && Owed(u, s[1..])
    ensures Owed(u, s)
  {
    var t := s[1..];
    var i :| 0 <= i < |t| && t[i] == Latest(u, t).value && t[i].unit == u && forall j :: i < j < |t| ==> t[j].unit != u;
    assert s[i + 1] == t[i] && forall j :: i + 1 < j < |s| ==> s[j] == t[j - 1];
  }

  lemma OwedAppend(u: Unit, s: seq<Change>, c: Change)
    requires Owed(u, s) && c.kind != Departed
    ensures Owed(u, s + [c])
  {
    var t := s + [c];
    var i :| 0 <= i < |s| && s[i] == Latest(u, s).value && s[i].unit == u && forall j :: i < j < |s| ==> s[j].unit != u;
    assert t[i] == s[i] && t[|s|] == c;
  }

  lemma {:induction false} JoinAllOwes(base: set<Unit>, s: Sched, us: seq<Unit>, u: Unit, started: bool)
    requires Ready(base, s) && Distinct(us) && Names(us) !! s.members.value
    requires u in Names(us) || Due(u, s, started)
    ensures var r := JoinAll(s, us, Absolute);
            r.Some? && Due(u, r.value, started || !s.phase.Executing?)
    decreases |us|
  {
    hide Coherent, Put, Due;
    if us == [] {
      DueLater(u, s, started, started || !s.phase.Executing?);
    } else {
      var c := Change(us[0], Joined, s.members.value + {us[0]});
      var s1 := s.(members := Some(c.members));
      NamesOf(us);
      PutOne(base, s, c);
      var t := Put(s1, c, Offset(s), Absolute).value;
      if us[0] == u || Due(u, s, started) {
        DueOfMembers(u, s, c.members, started);
        PutOwes(base, s1, c, s.members.value, c.members, u, started);
      }
      JoinAllOwes(base, t, us[1..], u, started || !s.phase.Executing?);
    }
  }

  lemma {:induction false} DepartAllOwes(base: set<Unit>, s: Sched, us: seq<Unit>, u: Unit, started: bool)
    requires Ready(base, s) && Distinct(us) && Names(us) <= s.members.value
    requires u !in Names(us) && Due(u, s, started)
    ensures var r := DepartAll(s, us, Absolute);
            r.Some? && Due(u, r.value, started || !s.phase.Executing?)
    decreases |us|
  {
    hide Coherent, Put, Due;
    if us == [] {
      DueLater(u, s, started, started || !s.phase.Executing?);
    } else {
      var c := Change(us[0], Departed, s.members.value - {us[0]});
      var s1 := s.(members := Some(c.members));
      NamesOf(us);
      assert us[0] in Names(us);
      PutOne(base, s, c);
      DueOfMembers(u, s, c.members, started);
      PutOwes(base, s1, c, s.members.value, c.members, u, started);
      DepartAllOwes(base, Put(s1, c, Offset(s), Absolute).value, us[1..], u, started || !s.phase.Executing?);
    }
  }

  lemma DueLater(u: Unit, s: Sched, started: bool, later: bool)
    requires Due(u, s, started) && (started ==> later)
    ensures Due(u, s, later)
  {
  }

  lemma DueOfMembers(u: Unit, s: Sched, m: set<Unit>, started: bool)
    ensures Due(u, s.(members := Some(m)), started) <==> Due(u, s, started)
  {
  }

  /** A settings report has a version of u newer than the recorded one. */
  ghost predicate HasNewer(s: Sched, vs: seq<(Unit, nat)>, u: Unit) {
    u in s.versions && exists i :: 0 <= i < |vs| && vs[i].0 == u && vs[i].1 > s.versions[u]
  }

  lemma {:induction false} SettingsOwes(base: set<Unit>, s: Sched, vs: seq<(Unit, nat)>, u: Unit, started: bool)
    requires Inv(base, s) && Enabled(s, ChangeSettings(vs))
    requires HasNewer(s, vs, u) || Due(u, s, started)
    ensures var r := SettingsChanged(s, vs, Absolute);
            r.Some? && Due(u, r.value, started || !s.phase.Executing?)
    decreases |vs|
  {
    hide Coherent, QueueChange, Due;
    if vs == [] {
      DueLater(u, s, started, started || !s.phase.Executing?);
    } else {
      var (v, version) := vs[0];
      assert forall i :: 1 <= i < |vs| ==> vs[i] == vs[1..][i - 1];
      if version > s.versions[v] {
        var s1 := s.(versions := s.versions[v := version]);
        var c := Change(v, Modified, s.members.value);
        PutKeeps(base, s1, c, Known(s), Known(s));
        var t := Put(s1, c, Offset(s), Absolute).value;
        assert t.versions.Keys == s.versions.Keys;
        if v == u || Due(u, s, started) {
          DueOfVersions(u, s, s1.versions, started);
          PutOwes(base, s1, c, Known(s), Known(s), u, started);
        }
        SettingsOwes(base, t, vs[1..], u, started || !s.phase.Executing?);
      } else {
        SettingsOwes(base, s, vs[1..], u, started);
      }
    }
  }

  lemma DueOfVersions(u: Unit, s: Sched, versions: map<Unit, nat>, started: bool)
    ensures Due(u, s.(versions := versions), started) <==> Due(u, s, started)
  {
  }

  /** u comes (back), or has newer settings. */
  ghost predicate BringsNews(s: Sched, e: Event, u: Unit) {
    match e
    case ChangeMembers(_, new_) => u in new_ && u !in s.versions
    case ChangeSettings(vs) => HasNewer(s, vs, u)
    case _ => false
  }

  lemma MembersOwe(base: set<Unit>, s: Sched, old_: set<Unit>, new_: set<Unit>, u: Unit, started: bool)
    requires Inv(base, s) && Enabled(s, ChangeMembers(old_, new_)) && u in new_
    requires u !in s.versions || Due(u, s, started)
    ensures var r := MembersChanged(s, old_, new_, Absolute);
            r.Some? && Due(u, r.value, started || !s.phase.Executing?)
  {
    hide Coherent, Put, Due, JoinAll, DepartAll;
    var s0 := if s.members.None? then s.(members := Some(old_)) else s;
    var s1 := s0.(versions := NewVersions(s.versions, new_));
    var added := Sorted(new_ - s.versions.Keys);
    var removed := Sorted(s.versions.Keys - new_);
    assert Names(added) == new_ - s.versions.Keys && Names(removed) == s.versions.Keys - new_;
    DueOfMembers(u, s, s1.members.value, started);
    DueOfVersions(u, s0, s1.versions, started);
    assert s0 == s.(members := Some(s1.members.value));
    JoinAllKeeps(base, s1, added);
    JoinAllOwes(base, s1, added, u, started);
    var t := JoinAll(s1, added, Absolute).value;
    DepartAllOwes(base, t, removed, u, started || !s.phase.Executing?);
    var r := DepartAll(t, removed, Absolute).value;
    DueLater(u, r, (started || !s.phase.Executing?) || !t.phase.Executing?, started || !s.phase.Executing?);
  }

  /** The hook that tells the charm the news ends well, or is skipped by hand. */
  predicate Ends(u: Unit, s: Sched, e: Event, started: bool) {
    || (e == HookDone(true) && started && Runs(u, s))
    || (e == Pop && s.pending != [] && IsNews(s.pending[0], u))
  }

  /** Was a hook that is in progress after e started in time? */
  predicate Starts(s: Sched, e: Event, started: bool) {
    started || !(s.phase.Executing? || s.phase.Draining?) || e.HookDone?
  }

  lemma LoopModifiedAppends(base: set<Unit>, s: Sched)
    requires Inv(base, s) && (s.phase.Executing? || s.phase.Draining?) && s.phase.current.kind == Joined
    ensures s.members.Some?
    ensures var u := s.phase.current.unit;
            var c := Change(u, Modified, s.members.value);
            var last := Latest(u, s.pending[1..]);
            && QueueChange(s.pending, c, 1, Absolute) == Some(if last.None? then s.pending + [c] else s.pending)
            && (last.Some? ==> (u in s.members.value <==> last.value.kind == Modified))
  {
    hide Coherent;
    var u := s.phase.current.unit;
    FoundKind(base, s.done, s.pending, Known(s), u, 1);
    if Previous(u, s.pending[1..]).Some? {
      BehindAJoin(base, s.done, s.pending, Known(s), u, Previous(u, s.pending[1..]).value);
    }
  }

  /** Behind a joined hook that came back there is always a modified one, while its unit is a member. */
  lemma JoinedIsFollowed(base: set<Unit>, s: Sched, success: bool)
    requires Inv(base, s) && Enabled(s, HookDone(success)) && s.phase.current.kind == Joined
    requires s.phase.current.unit in Known(s)
    ensures var r := Step(s, HookDone(success), Absolute);
            var u := s.phase.current.unit;
            r.Some? && Latest(u, r.value.pending).Some? && Latest(u, r.value.pending).value.kind == Modified
  {
    hide Coherent, QueueChange, Latest;
    LoopModifiedAppends(base, s);
    var u := s.phase.current.unit;
    var c := Change(u, Modified, s.members.value);
    var p := QueueChange(s.pending, c, 1, Absolute).value;
    LatestOfTail(u, s.pending);
    LatestOfAppend(u, s.pending, c);
    LatestOfAppend(u, s.pending[1..], c);
    assert (s.pending + [c])[1..] == s.pending[1..] + [c];
  }

  lemma LatestOfTail(u: Unit, s: seq<Change>)
    requires s != []
    ensures Latest(u, s[1..]).Some? ==> Latest(u, s) == Latest(u, s[1..])
  {
    var t := s[1..];
    if Latest(u, t).Some? {
      var i :| 0 <= i < |t| && t[i] == Latest(u, t).value && t[i].unit == u
               && forall j :: i < j < |t| ==> t[j].unit != u;
      assert s[i + 1] == t[i] && forall j :: i + 1 < j < |s| ==> s[j] == t[j - 1];
    }
  }

  lemma HookDoneOwes(base: set<Unit>, s: Sched, success: bool, u: Unit, started: bool)
    requires Inv(base, s) && Enabled(s, HookDone(success)) && u in Known(s)
    requires Due(u, s, started) && !Ends(u, s, HookDone(success), started)
    ensures var r := AfterHook(s, success, Absolute); r.Some? && Due(u, r.value, true)
  {
    hide Coherent, QueueChange, Latest, Owed;
    var p := s.pending;
    if s.phase.current.kind == Joined {
      LoopModifiedAppends(base, s);
      var c := Change(s.phase.current.unit, Modified, s.members.value);
      p := QueueChange(s.pending, c, 1, Absolute).value;
      TailOwes(u, s.pending, c);
    }
    if success {
      OwedHead(u, p[1..]);
    } else if Owed(u, p[1..]) {
      OwedBehind(u, p);
    } else {
      FailedIsOwed(base, s, p, u);
    }
  }

  lemma TailOwes(u: Unit, s: seq<Change>, c: Change)
    requires s != [] && c.kind != Departed
    ensures Owed(u, s[1..]) ==> Owed(u, (s + [c])[1..])
  {
    assert (s + [c])[1..] == s[1..] + [c];
    if Owed(u, s[1..]) { OwedAppend(u, s[1..], c); }
  }

  /** A failed news hook is still queued. */
  lemma FailedIsOwed(base: set<Unit>, s: Sched, p: seq<Change>, u: Unit)
    requires Inv(base, s) && Runs(u, s) && u in Known(s)
    requires p == s.pending || exists c :: p == s.pending + [c] && c.kind != Departed
    ensures Owed(u, p)
  {
    hide Coherent;
    assert s.pending[0].unit == u;
    MemberIsOwed(base, s, Known(s), u);
    if p != s.pending {
      var c :| p == s.pending + [c] && c.kind != Departed;
      OwedAppend(u, s.pending, c);
    }
  }

  /** While u stays a member, news of it stays due through every event, until its hook has ended. */
  lemma StepOwes(base: set<Unit>, s: Sched, e: Event, u: Unit, started: bool)
    requires Inv(base, s) && Enabled(s, e) && Step(s, e, Absolute).Some?
    requires u in Known(s) && u in Known(Step(s, e, Absolute).value)
    requires Due(u, s, started) && !Ends(u, s, e, started)
    ensures Due(u, Step(s, e, Absolute).value, Starts(s, e, started))
  {
    match e
    case ChangeMembers(old_, new_) =>
      MembersChangedKeeps(base, s, old_, new_);
      MembersOwe(base, s, old_, new_, u, started);
    case ChangeSettings(vs) => SettingsOwes(base, s, vs, u, started);
    case HookDone(success) => HookDoneOwes(base, s, success, u, started);
    case _ =>
      hide Coherent, Latest;
      QuietOwes(base, s, e, u, started);
  }

  lemma QuietOwes(base: set<Unit>, s: Sched, e: Event, u: Unit, started: bool)
    requires Inv(base, s) && Enabled(s, e) && u in Known(s) && (e.Run? || e.Stop? || e.Pop? || e.Restart?)
    requires Due(u, s, started) && !Ends(u, s, e, started)
    ensures Due(u, Step(s, e, Absolute).value, Starts(s, e, started))
  {
    hide Coherent, Latest;
    if s.phase.Stopped? {
      OwedHead(u, s.pending);
    } else if e.Restart? {
      if Owed(u, Reach(s)) { OwedBehind(u, s.pending); } else { FailedIsOwed(base, s, s.pending, u); }
    }
  }

  // -------------------------------------------------------------- the theorem

  /** u is known in every state of the run. */
  ghost predicate StaysMember(u: Unit, s: Sched, es: seq<Event>)
    decreases |es|
  {
    u in Known(s) && (es == [] || var r := Step(s, es[0], Absolute); r.Some? ==> StaysMember(u, r.value, es[1..]))
  }

  /** During the run a hook with news of u, started in time, ends well or is skipped by hand. */
  ghost predicate Told(u: Unit, s: Sched, es: seq<Event>, started: bool)
    decreases |es|
  {
    es != [] &&
    (Ends(u, s, es[0], started) ||
     var r := Step(s, es[0], Absolute);
     r.Some? && Told(u, r.value, es[1..], Starts(s, es[0], started)))
  }

  lemma {:induction false} DueOrTold(base: set<Unit>, s: Sched, es: seq<Event>, t: Sched, u: Unit, started: bool)
    requires Inv(base, s) && Reaches(s, es, t, Absolute) && StaysMember(u, s, es) && Due(u, s, started)
    ensures Told(u, s, es, started) || Due(u, t, true)
    decreases |es|
  {
    hide Inv, Enabled, Step, Due, Ends, Starts;
    if es == [] {
      DueLater(u, s, started, true);
    } else if !Ends(u, s, es[0], started) {
      StepKeeps(base, s, es[0]);
      var r := Step(s, es[0], Absolute).value;
      assert u in Known(r);
      StepOwes(base, s, es[0], u, started);
      DueOrTold(base, r, es[1..], t, u, Starts(s, es[0], started));
    }
  }

  /** News reaches the charm. When a unit comes or comes back, or a newer version of its settings is
      reported, then in every run in which it stays a member: a joined or modified hook of it, started after
      that, ends well or is skipped by hand; or it is still queued, or in progress. Once nothing is queued,
      the charm has been told. */
  lemma NewsReachesTheCharm(base: set<Unit>, s: Sched, e: Event, es: seq<Event>, t: Sched, u: Unit)
    requires Inv(base, s) && Enabled(s, e) && BringsNews(s, e, u) && Step(s, e, Absolute).Some?
    requires var s1 := Step(s, e, Absolute).value; Reaches(s1, es, t, Absolute) && StaysMember(u, s1, es)
    ensures var told := Told(u, Step(s, e, Absolute).value, es, !s.phase.Executing?);
            && (told || Due(u, t, true))
            && (t.pending == [] ==> told)
  {
    hide Reaches, StaysMember, Told, Latest, Coherent;
    var s1 := Step(s, e, Absolute).value;
    match e {
      case ChangeMembers(old_, new_) => MembersOwe(base, s, old_, new_, u, false);
      case ChangeSettings(vs) => SettingsOwes(base, s, vs, u, false);
      case _ =>
    }
    StepKeeps(base, s, e);
    hide Inv, Step;
    DueOrTold(base, s1, es, t, u, !s.phase.Executing?);
    RunKeeps(base, s1, es, t);
    if t.pending == [] { NothingQueued(base, t, u); }
  }

  lemma NothingQueued(base: set<Unit>, t: Sched, u: Unit)
    requires Inv(base, t) && t.pending == []
    ensures !Due(u, t, true)
  {
    assert t.pending == [];
  }

  // --------------------------------------------------------- recorded versions

  /** The recorded version of a unit; 0 without one. */
  function Recorded(versions: map<Unit, nat>, u: Unit): nat {
    if u in versions then versions[u] else 0
  }

  /** After a settings report each unit's recorded version is the newest of what was and what was reported; and
      a unit has one that had one, or was reported with more than 0. */
  lemma {:induction false} SettingsAreRecorded(s: Sched, vs: seq<(Unit, nat)>, popAt: PopIndex, u: Unit)
    requires SettingsChanged(s, vs, popAt).Some?
    ensures var v := SettingsChanged(s, vs, popAt).value.versions;
            && Recorded(v, u) >= Recorded(s.versions, u)
            && (forall i :: 0 <= i < |vs| && vs[i].0 == u ==> Recorded(v, u) >= vs[i].1)
            && (Recorded(v, u) == Recorded(s.versions, u) || exists i :: 0 <= i < |vs| && vs[i] == (u, Recorded(v, u)))
            && (u in v <==> u in s.versions || Recorded(v, u) > 0)
    decreases |vs|
  {
    hide QueueChange;
    if vs != [] {
      var (w, version) := vs[0];
      assert forall i :: 1 <= i < |vs| ==> vs[i] == vs[1..][i - 1];
      if version > Recorded(s.versions, w) {
        var s1 := s.(versions := s.versions[w := version]);
        SettingsAreRecorded(Put(s1, Change(w, Modified, s.members.value), Offset(s), popAt).value, vs[1..], popAt, u);
      } else {
        SettingsAreRecorded(s, vs[1..], popAt, u);
      }
      assert vs[0] == (w, version);
    }
  }

  /** A report with nothing newer changes nothing. */
  lemma {:induction false} StaleReportChangesNothing(s: Sched, vs: seq<(Unit, nat)>, popAt: PopIndex)
    requires s.members.Some? && forall i :: 0 <= i < |vs| ==> vs[i].1 <= Recorded(s.versions, vs[i].0)
    ensures SettingsChanged(s, vs, popAt) == Some(s)
    decreases |vs|
  {
    if vs != [] {
      assert forall i :: 0 <= i < |vs[1..]| ==> vs[1..][i] == vs[i + 1];
      StaleReportChangesNothing(s, vs[1..], popAt);
    }
  }

  /** After a membership report a unit that stays keeps its recorded version, and a new one starts at 0. */
  lemma MembersAreRecorded(base: set<Unit>, s: Sched, old_: set<Unit>, new_: set<Unit>, u: Unit)
    requires Inv(base, s) && Enabled(s, ChangeMembers(old_, new_)) && u in new_
    ensures var r := MembersChanged(s, old_, new_, Absolute);
            r.Some? && u in r.value.versions && r.value.versions[u] == if u in s.versions then s.versions[u] else 0
  {
    hide Coherent, Put;
    var s0 := if s.members.None? then s.(members := Some(old_)) else s;
    var s1 := s0.(versions := NewVersions(s.versions, new_));
    var added := Sorted(new_ - s.versions.Keys);
    var removed := Sorted(s.versions.Keys - new_);
    assert Names(added) == new_ - s.versions.Keys && Names(removed) == s.versions.Keys - new_;
    JoinAllKeeps(base, s1, added);
    DepartAllKeeps(base, JoinAll(s1, added, Absolute).value, removed);
  }

  // ----------------------------------------------------------- the first report

  /** Joined changes in the order given, each listing m and the units up to it. */
  function Joins(m: set<Unit>, us: seq<Unit>): seq<Change> {
    seq(|us|, k requires 0 <= k < |us| => Change(us[k], Joined, m + Names(us[..k + 1])))
  }

  lemma JoinsCons(m: set<Unit>, us: seq<Unit>)
    requires us != []
    ensures Joins(m, us) == [Change(us[0], Joined, m + {us[0]})] + Joins(m + {us[0]}, us[1..])
  {
    var all, rest := Joins(m, us), Joins(m + {us[0]}, us[1..]);
    assert us[..1] == [us[0]] && Names([us[0]]) == {us[0]};
    forall k | 1 <= k < |us|
      ensures all[k] == rest[k - 1]
    {
      assert us[..k + 1] == [us[0]] + us[1..][..k];
      assert Names(us[..k + 1]) == {us[0]} + Names(us[1..][..k]);
    }
  }

  lemma PutBehind(s: Sched, c: Change, popAt: PopIndex)
    requires s.phase.Stopped? && forall i :: 0 <= i < |s.pending| ==> s.pending[i].unit != c.unit
    ensures Put(s, c, 0, popAt) == Some(s.(pending := s.pending + [c]))
  {
    assert Slice(s.pending, 0) == s.pending;
  }

  /** On a stopped loop units with nothing queued have their joins appended in the order given. */
  lemma {:induction false} JoinsInOrder(s: Sched, us: seq<Unit>, popAt: PopIndex)
    requires s.members.Some? && s.phase.Stopped? && Distinct(us)
    requires forall i :: 0 <= i < |s.pending| ==> s.pending[i].unit !in us
    ensures var r := JoinAll(s, us, popAt);
            && r.Some? && r.value.pending == s.pending + Joins(s.members.value, us) && r.value.phase.Stopped?
    decreases |us|
  {
    hide Put, Joins;
    if us == [] {
      NoJoins(s.members.value);
    } else {
      NamesOf(us);
      var m := s.members.value + {us[0]};
      var c := Change(us[0], Joined, m);
      var t := s.(members := Some(m), pending := s.pending + [c]);
      assert us[0] in us;
      PutBehind(s.(members := Some(m)), c, popAt);
      JoinsInOrder(t, us[1..], popAt);
      JoinsCons(s.members.value, us);
    }
  }

  lemma NoJoins(m: set<Unit>)
    ensures Joins(m, []) == []
  {
  }

  /** The first report to a fresh scheduler queues the joins in name order, each listing the units up to it. */
  lemma FirstReportInOrder(s: Sched, new_: set<Unit>, popAt: PopIndex)
    requires Initial({}, s) && s.members.None?
    ensures var r := MembersChanged(s, {}, new_, popAt); r.Some? && r.value.pending == Joins({}, Sorted(new_))
  {
    hide JoinAll, Joins, NewVersions, Put;
    var s1 := s.(members := Some({}), versions := NewVersions(s.versions, new_));
    assert new_ - s.versions.Keys == new_ && s.versions.Keys - new_ == {};
    assert Sorted({}) == [];
    JoinsInOrder(s1, Sorted(new_), popAt);
  }
}
