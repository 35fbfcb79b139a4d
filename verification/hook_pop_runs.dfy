/** Runs of the code as written, slice-relative pop included: those in which every put behind a running hook
    pops the right entry are runs of the code as meant, and keep its promises. */
module HookPopRuns {
  import opened Wrappers
  import opened Sorting
  import opened HookChanges
  import opened HookCoherence
  import opened HookRuns
  import opened HookPopIndex
  import opened HookNews

  // ------------------------------------------- the condition, put by put

  /** A put is right unless a hook runs and the wrong entry is popped behind it. */
  predicate PutRight(s: Sched, c: Change) {
    s.phase.Executing? ==> PopsRight(s.pending, c)
  }

  predicate JoinAllRight(s: Sched, us: seq<Unit>)
    requires s.members.Some?
    decreases |us|
  {
    us == [] ||
    var m := s.members.value + {us[0]};
    var c := Change(us[0], Joined, m);
    PutRight(s.(members := Some(m)), c) &&
    match Put(s.(members := Some(m)), c, Offset(s), SliceRelative)
    case None => true
    case Some(t) => JoinAllRight(t, us[1..])
  }

  predicate DepartAllRight(s: Sched, us: seq<Unit>)
    requires s.members.Some?
    decreases |us|
  {
    us == [] || us[0] !in s.members.value ||
    var m := s.members.value - {us[0]};
    var c := Change(us[0], Departed, m);
    PutRight(s.(members := Some(m)), c) &&
    match Put(s.(members := Some(m)), c, Offset(s), SliceRelative)
    case None => true
    case Some(t) => DepartAllRight(t, us[1..])
  }

  predicate SettingsRight(s: Sched, vs: seq<(Unit, nat)>)
    decreases |vs|
  {
    vs == [] || s.members.None? ||
    var (u, version) := vs[0];
    if version > (if u in s.versions then s.versions[u] else 0) then
      var s1 := s.(versions := s.versions[u := version]);
      var c := Change(u, Modified, s.members.value);
      PutRight(s1, c) &&
      match Put(s1, c, Offset(s), SliceRelative)
      case None => true
      case Some(t) => SettingsRight(t, vs[1..])
    else SettingsRight(s, vs[1..])
  }

  /** Every put that an event causes is right. The modified change behind a joined hook always is. */
  predicate StepRight(s: Sched, e: Event) {
    match e
    case ChangeMembers(old_, new_) =>
      var s0 := if s.members.None? then s.(members := Some(old_)) else s;
      var s1 := s0.(versions := NewVersions(s.versions, new_));
      var added := Sorted(new_ - s.versions.Keys);
      JoinAllRight(s1, added) &&
      (match JoinAll(s1, added, SliceRelative)
       case None => true
       case Some(t) => DepartAllRight(t, Sorted(s.versions.Keys - new_)))
    case ChangeSettings(vs) => SettingsRight(s, vs)
    case _ => true
  }

  /** ... and so of all events of a run. */
  predicate RunRight(s: Sched, es: seq<Event>)
    decreases |es|
  {
    es == [] ||
    (StepRight(s, es[0]) &&
     match Step(s, es[0], SliceRelative)
     case None => true
     case Some(t) => RunRight(t, es[1..]))
  }

  // --------------------------------------------- what it is good for

  lemma PutBehind(s: Sched, c: Change, popAt: PopIndex)
    requires s.phase.Executing?
    ensures var p := QueueChange(s.pending, c, 1, popAt);
            var r := Put(s, c, Offset(s), popAt);
            if p.None? then r == None else r.Some? && r.value.pending == p.value && r == Some(s.(pending := p.value))
  {
  }

  /** Exactly the right puts do what they mean. */
  lemma PutAgreesIff(base: set<Unit>, s: Sched, c: Change, now: set<Unit>, next: set<Unit>)
    requires Coherent(base, s.done, s.pending, now) && InStep(s) && !s.phase.Draining?
    requires Fits(c, now, next)
    ensures Put(s, c, Offset(s), SliceRelative) == Put(s, c, Offset(s), Absolute) <==> PutRight(s, c)
  {
    hide Coherent, Fits, PopsRight;
    if s.phase.Executing? {
      hide QueueChange, Put;
      PopIndexIsRightIff(base, s.done, s.pending, now, c, next);
      PutBehind(s, c, SliceRelative);
      PutBehind(s, c, Absolute);
    }
  }

  lemma PutOneAgrees(base: set<Unit>, s: Sched, c: Change)
    requires Ready(base, s) && Fits(c, s.members.value, c.members)
    requires PutRight(s.(members := Some(c.members)), c)
    ensures var s1 := s.(members := Some(c.members));
            Put(s1, c, Offset(s), SliceRelative) == Put(s1, c, Offset(s), Absolute)
  {
    PutAgreesIff(base, s.(members := Some(c.members)), c, s.members.value, c.members);
  }

  lemma {:induction false} JoinAllAgrees(base: set<Unit>, s: Sched, us: seq<Unit>)
    requires Ready(base, s) && Distinct(us) && Names(us) !! s.members.value && JoinAllRight(s, us)
    ensures JoinAll(s, us, SliceRelative) == JoinAll(s, us, Absolute)
    decreases |us|
  {
    hide Coherent, Put, PutRight;
    if us != [] {
      var c := Change(us[0], Joined, s.members.value + {us[0]});
      NamesOf(us);
      PutOne(base, s, c);
      PutOneAgrees(base, s, c);
      JoinAllAgrees(base, Put(s.(members := Some(c.members)), c, Offset(s), Absolute).value, us[1..]);
    }
  }

  lemma {:induction false} DepartAllAgrees(base: set<Unit>, s: Sched, us: seq<Unit>)
    requires Ready(base, s) && Distinct(us) && Names(us) <= s.members.value && DepartAllRight(s, us)
    ensures DepartAll(s, us, SliceRelative) == DepartAll(s, us, Absolute)
    decreases |us|
  {
    hide Coherent, Put, PutRight;
    if us != [] {
      var c := Change(us[0], Departed, s.members.value - {us[0]});
      NamesOf(us);
      assert us[0] in Names(us);
      PutOne(base, s, c);
      PutOneAgrees(base, s, c);
      DepartAllAgrees(base, Put(s.(members := Some(c.members)), c, Offset(s), Absolute).value, us[1..]);
    }
  }

  lemma {:induction false} SettingsAgree(base: set<Unit>, s: Sched, vs: seq<(Unit, nat)>)
    requires Inv(base, s) && Enabled(s, ChangeSettings(vs)) && SettingsRight(s, vs)
    ensures SettingsChanged(s, vs, SliceRelative) == SettingsChanged(s, vs, Absolute)
    decreases |vs|
  {
    hide Coherent, QueueChange, PutRight;
    if vs != [] {
      var (u, version) := vs[0];
      if version > s.versions[u] {
        var s1 := s.(versions := s.versions[u := version]);
        var c := Change(u, Modified, s.members.value);
        PutKeeps(base, s1, c, Known(s), Known(s));
        PutAgreesIff(base, s1, c, Known(s), Known(s));
        var t := Put(s1, c, Offset(s), Absolute).value;
        assert t.versions.Keys == s.versions.Keys;
        SettingsAgree(base, t, vs[1..]);
      } else {
        SettingsAgree(base, s, vs[1..]);
      }
    }
  }

  lemma MembersAgree(base: set<Unit>, s: Sched, old_: set<Unit>, new_: set<Unit>)
    requires Inv(base, s) && Enabled(s, ChangeMembers(old_, new_)) && StepRight(s, ChangeMembers(old_, new_))
    ensures MembersChanged(s, old_, new_, SliceRelative) == MembersChanged(s, old_, new_, Absolute)
  {
    hide Coherent, Put, JoinAll, DepartAll, JoinAllRight, DepartAllRight;
    var s0 := if s.members.None? then s.(members := Some(old_)) else s;
    var s1 := s0.(versions := NewVersions(s.versions, new_));
    var added := Sorted(new_ - s.versions.Keys);
    var removed := Sorted(s.versions.Keys - new_);
    assert Names(added) == new_ - s.versions.Keys && Names(removed) == s.versions.Keys - new_;
    JoinAllKeeps(base, s1, added);
    JoinAllAgrees(base, s1, added);
    DepartAllAgrees(base, JoinAll(s1, added, Absolute).value, removed);
  }

  /** The modified change that follows a joined hook never pops anything. */
  lemma AfterHookAgrees(base: set<Unit>, s: Sched, success: bool)
    requires Inv(base, s) && Enabled(s, HookDone(success))
    ensures AfterHook(s, success, SliceRelative) == AfterHook(s, success, Absolute)
  {
    var u := s.phase.current.unit;
    if s.phase.current.kind == Joined && Previous(u, s.pending[1..]).Some? {
      BehindAJoin(base, s.done, s.pending, Known(s), u, Previous(u, s.pending[1..]).value);
    }
  }

  /** An event whose puts are right is the event as meant. */
  lemma StepAgrees(base: set<Unit>, s: Sched, e: Event)
    requires Inv(base, s) && Enabled(s, e) && StepRight(s, e)
    ensures Step(s, e, SliceRelative) == Step(s, e, Absolute)
  {
    match e
    case ChangeMembers(old_, new_) => MembersAgree(base, s, old_, new_);
    case ChangeSettings(vs) => SettingsAgree(base, s, vs);
    case HookDone(success) => AfterHookAgrees(base, s, success);
    case _ =>
  }

  /** A run of the code as written whose puts are right is a run of the code as meant. */
  lemma {:induction false} RunIsMeant(base: set<Unit>, s: Sched, es: seq<Event>, t: Sched)
    requires Inv(base, s) && Reaches(s, es, t, SliceRelative) && RunRight(s, es)
    ensures Reaches(s, es, t, Absolute)
    decreases |es|
  {
    hide Inv, Enabled, StepRight, Step;
    if es != [] {
      StepAgrees(base, s, es[0]);
      StepKeeps(base, s, es[0]);
      RunIsMeant(base, Step(s, es[0], Absolute).value, es[1..], t);
    }
  }

  /** So of the code as written: in every run whose puts behind a running hook pop nothing, or an entry
      that is a twin of the head in front of it, the completed hooks are legal, replay to the known
      members together with the queue, and nothing raises before a put goes wrong. */
  lemma WrittenHooksAreLegal(base: set<Unit>, s: Sched, es: seq<Event>, t: Sched)
    requires Initial(base, s) && Reaches(s, es, t, SliceRelative) && RunRight(s, es)
    ensures forall u :: Word(u in base, Kinds(u, t.done)).Some?
    ensures Fold(base, t.done + t.pending) == Some(Known(t))
    ensures t.pending == [] ==> Fold(base, t.done) == Some(Known(t))
    ensures forall e :: Enabled(t, e) && StepRight(t, e) ==> Step(t, e, SliceRelative).Some?
  {
    hide Reaches, Initial, Enabled, StepRight, Step, Inv, RunRight;
    InitialInv(base, s);
    RunIsMeant(base, s, es, t);
    CompletedHooksAreLegal(base, s, es, t);
    RunKeeps(base, s, es, t);
    forall e | Enabled(t, e) && StepRight(t, e)
      ensures Step(t, e, SliceRelative).Some?
    {
      StepAgrees(base, t, e);
      StepKeeps(base, t, e);
    }
  }

  /** And news of a unit reaches the charm in those runs. */
  lemma WrittenNewsReachesTheCharm(base: set<Unit>, s: Sched, e: Event, es: seq<Event>, t: Sched, u: Unit)
    requires Inv(base, s) && Enabled(s, e) && BringsNews(s, e, u) && StepRight(s, e)
    requires Step(s, e, SliceRelative).Some?
    requires var s1 := Step(s, e, SliceRelative).value;
             Reaches(s1, es, t, SliceRelative) && RunRight(s1, es) && StaysMember(u, s1, es)
    ensures var told := HookNews.Told(u, Step(s, e, SliceRelative).value, es, !s.phase.Executing?);
            && (told || Due(u, t, true))
            && (t.pending == [] ==> told)
  {
    hide Reaches, StaysMember, HookNews.Told, Due, Inv, Enabled, Step, StepRight, RunRight, BringsNews;
    StepAgrees(base, s, e);
    StepKeeps(base, s, e);
    RunIsMeant(base, Step(s, e, Absolute).value, es, t);
    NewsReachesTheCharm(base, s, e, es, t, u);
  }
}
