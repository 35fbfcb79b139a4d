/** HookQueue and HookScheduler: the objects of juju/hooks/scheduler.py, whose methods
    update their fields in place, each proved to make the step HookRuns gives it. */
module HookSchedulers {
  import opened Wrappers
  import opened Sorting
  import opened HookChanges
  import opened HookCoherence
  import opened HookRuns

  /** What a consumer of the queue gets: a change, or the marker that asks it to stop. */
  datatype Delivery = Nothing | StopMarker | Head(change: Change)

  class HookQueue {
    var pending: seq<Change>
    var waiting: bool
    /** SliceRelative is the code as written. */
    const popAt: PopIndex

    constructor (popAt: PopIndex, pending: seq<Change>)
      ensures this.popAt == popAt && this.pending == pending && !waiting
    {
      this.popAt := popAt;
      this.pending := pending;
      waiting := false;
    }

    /** The backward scan of _previous. */
    method ScanBack(u: Unit, slice: seq<Change>) returns (r: Option<nat>)
      ensures r == LastFor(u, slice)
    {
      var i := |slice|;
      while i > 0
        invariant 0 <= i <= |slice|
        invariant LastFor(u, slice) == LastFor(u, slice[..i])
      {
        if slice[i - 1].unit == u {
          return Some(i - 1);
        }
        assert slice[..i][..i - 1] == slice[..i - 1];
        i := i - 1;
      }
      r := None;
    }

    /** list.index */
    method IndexOf(c: Change, slice: seq<Change>) returns (k: nat)
      requires c in slice
      ensures k == FirstIndex(c, slice)
    {
      k := 0;
      while slice[k] != c
        invariant 0 <= k <= FirstIndex(c, slice)
        decreases FirstIndex(c, slice) - k
      {
        k := k + 1;
      }
    }

    /** _previous over pending[offset:] */
    method FindPrevious(u: Unit, offset: nat) returns (r: Option<nat>)
      ensures r == Previous(u, Slice(pending, offset))
    {
      var slice := Slice(pending, offset);
      r := ScanBack(u, slice);
      if r.Some? {
        var k := IndexOf(slice[r.value], slice);
        r := Some(k);
      }
    }

    /** _wipe_member over pending[offset:]: each entry's member list is edited in place. */
    method WipeMember(u: Unit, offset: nat)
      modifies this`pending
      ensures pending == Wipe(u, old(pending), offset)
    {
      var i := offset;
      while i < |pending|
        invariant |pending| == |old(pending)|
        invariant offset <= i
        invariant forall j :: 0 <= j < |pending| ==>
          pending[j] == if offset <= j < i then old(pending)[j].(members := old(pending)[j].members - {u})
              else old(pending)[j]
      {
        if u in pending[i].members {
          pending := pending[i := pending[i].(members := pending[i].members - {u})];
        } else {
          assert pending[i].members - {u} == pending[i].members;
        }
        i := i + 1;
      }
    }

    /** _queue_change. ok is false when unpacking a missing reduction would raise; modified tells
        whether the modification callback is due. */
    method Merge(change: Change, offset: nat) returns (ok: bool, modified: bool)
      modifies this`pending
      ensures ok <==> QueueChange(old(pending), change, offset, popAt).Some?
      ensures pending == if ok then QueueChange(old(pending), change, offset, popAt).value else old(pending)
      ensures !modified ==> pending == old(pending)
    {
      var found := FindPrevious(change.unit, offset);
      if found.None? {
        pending := pending + [change];
        return true, true;
      }
      var idx := found.value;
      var reduction := Reduce(Slice(pending, offset)[idx].kind, change.kind);
      match reduction
      case Unhandled => return false, false;
      case KeepPrevious => return true, false;
      case TakeNew(kind) =>
        pending := RemoveAt(pending, PopAt(idx, offset, popAt)) + [change.(kind := kind)];
        return true, true;
      case Cancelled =>
        assert change.kind == Departed;
        WipeMember(change.unit, offset);
        pending := RemoveAt(pending, PopAt(idx, offset, popAt));
        return true, true;
    }

    /** put with a change: a waiting consumer means the queue was idle, so offset 0, and it is woken. */
    method Put(change: Change, offset: nat) returns (ok: bool, modified: bool, woken: Delivery)
      modifies this
      ensures var r := QueueChange(old(pending), change, if old(waiting) then 0 else offset, popAt);
              && (ok <==> r.Some?)
              && (pending == if ok then r.value else old(pending))
      ensures woken == if ok && old(waiting) && pending != [] then Head(pending[0]) else Nothing
      ensures waiting <==> old(waiting) && woken == Nothing
      ensures !modified ==> pending == old(pending)
    {
      woken := Nothing;
      if waiting {
        ok, modified := Merge(change, 0);
        if ok && pending != [] {
          waiting := false;
          woken := Head(pending[0]);
        }
      } else {
        ok, modified := Merge(change, offset);
      }
    }

    /** put(None): wakes a waiting consumer, and is dropped when there is none. */
    method PutStop() returns (woken: Delivery)
      modifies this`waiting
      ensures !waiting && woken == if old(waiting) then StopMarker else Nothing
    {
      woken := if waiting then StopMarker else Nothing;
      waiting := false;
    }

    /** next_change: the head at once, or a place in the waiting line, which holds one. */
    method NextChange() returns (ok: bool, got: Delivery)
      modifies this`waiting
      ensures pending != [] ==> ok && got == Head(pending[0]) && waiting == old(waiting)
      ensures pending == [] ==> ok == !old(waiting) && got == Nothing && waiting
    {
      if pending != [] { return true, Head(pending[0]); }
      if waiting { return false, Nothing; }
      waiting := true;
      return true, Nothing;
    }

    /** finished_change */
    method FinishedChange() returns (popped: Option<Change>)
      modifies this`pending
      ensures old(pending) == [] ==> pending == [] && popped == None
      ensures old(pending) != [] ==> popped == Some(old(pending)[0]) && pending == old(pending)[1..]
    {
      if pending == [] { return None; }
      popped := Some(pending[0]);
      pending := pending[1..];
    }
  }

  /** The persisted file: the sorted member list, the versions and the queue. */
  datatype Saved = Saved(contextMembers: seq<Unit>, memberVersions: map<Unit, nat>, changeQueue: seq<Change>)

  /** _load_state of what _save_state wrote gives the members, versions and queue back. */
  lemma SavedStateReloads(members: set<Unit>)
    ensures (set u | u in Sorted(members)) == members
  {
    assert Lists(Sorted(members), members);
  }

  class HookScheduler {
    var running: bool
    var contextMembers: Option<set<Unit>>
    var memberVersions: map<Unit, nat>
    const queue: HookQueue
    /** The change whose hook the run loop waits for, if any. */
    var current: Option<Change>
    /** What the state file holds; None when there is no file. */
    var stored: Option<Saved>
    /** The changes finished_change has returned since this history began. */
    ghost var done: seq<Change>

    ghost predicate Valid()
      reads this, queue
    {
      && (queue.waiting ==> running && current.None?)
      && (running ==> queue.waiting || current.Some?)
    }

    /** The scheduler as a state of the step machine. */
    ghost function State(): Sched
      reads this, queue
    {
      Sched(if current.Some? then (if running then Executing(current.value) else Draining(current.value))
            else if queue.waiting then Waiting else Stopped,
            queue.pending, contextMembers, memberVersions, done)
    }

    /** The file records what a restart needs. */
    ghost predicate OnDisk()
      reads this, queue
    {
      contextMembers.Some? ==>
        stored == Some(Saved(Sorted(contextMembers.value), memberVersions, queue.pending))
    }

    /** No file yet: _create_state. */
    constructor Create(popAt: PopIndex)
      ensures Valid() && fresh(queue) && queue.popAt == popAt && stored == None && OnDisk()
      ensures State() == Sched(Stopped, [], None, map[], [])
      ensures Initial({}, State())
    {
      running := false;
      contextMembers := None;
      memberVersions := map[];
      queue := new HookQueue(popAt, []);
      current := None;
      stored := None;
      done := [];
    }

    /** A file is there: _load_state. Given a file a scheduler in state `before` wrote, the new
        process stands where `before` stood, with nothing running. */
    constructor Load(popAt: PopIndex, file: Saved, ghost before: Sched)
      requires before.members.Some?
      requires file == Saved(Sorted(before.members.value), before.versions, before.pending)
      ensures Valid() && fresh(queue) && queue.popAt == popAt && stored == Some(file) && OnDisk()
      ensures Some(State()) == Step(before, Restart, popAt)
    {
      running := false;
      contextMembers := Some(set u | u in file.contextMembers);
      memberVersions := file.memberVersions;
      queue := new HookQueue(popAt, file.changeQueue);
      current := None;
      stored := Some(file);
      done := before.done;
      new;
      SavedStateReloads(before.members.value);
    }

    /** _save_state */
    method SaveState()
      requires contextMembers.Some?
      modifies this`stored
      ensures stored == Some(Saved(Sorted(contextMembers.value), memberVersions, queue.pending))
    {
      stored := Some(Saved(Sorted(contextMembers.value), memberVersions, queue.pending));
    }

    /** self._run_queue.put(change, offset), with the queue's modification callback, and with the
        run loop resuming at once when the put wakes it. */
    method Enqueue(change: Change, offset: nat) returns (ok: bool)
      requires Valid() && contextMembers.Some?
      modifies this, queue
      ensures Valid()
      ensures var r := HookRuns.Put(old(State()), change, offset, queue.popAt);
              (ok <==> r.Some?) && (ok ==> State() == r.value)
      ensures running == old(running) && contextMembers == old(contextMembers) && memberVersions == old(memberVersions)
      ensures old(OnDisk()) ==> OnDisk()
    {
      var modified, woken;
      ok, modified, woken := queue.Put(change, offset);
      if ok && modified { SaveState(); }
      if woken.Head? { current := Some(woken.change); }
    }

    /** run(), up to its first wait. */
    method Run()
      requires Valid() && !running && current.None?
      modifies this`running, this`current, queue
      ensures Valid() && Some(State()) == Step(old(State()), HookRuns.Run, queue.popAt)
    {
      running := true;
      var ok, got := queue.NextChange();
      if got.Head? { current := Some(got.change); }
    }

    /** The rest of one pass of the run loop, once the hook of `current` came back. */
    method HookCameBack(success: bool) returns (ok: bool)
      requires Valid() && current.Some? && contextMembers.Some?
      modifies this, queue
      ensures Valid()
      ensures var r := AfterHook(old(State()), success, queue.popAt);
              (ok <==> r.Some?) && (ok ==> State() == r.value)
      ensures old(OnDisk()) ==> OnDisk()
    {
      var change := current.value;
      if change.kind == Joined {
        var modified, woken;
        ok, modified, woken := queue.Put(Change(change.unit, Modified, contextMembers.value), 1);
        if !ok { return; }
        if modified { SaveState(); }
      }
      current := None;
      ok := true;
      if success {
        var popped := queue.FinishedChange();
        if popped.Some? {
          done := done + [popped.value];
          SaveState();
        }
        if running {
          var got;
          ok, got := queue.NextChange();
          if got.Head? { current := Some(got.change); }
        }
      } else {
        running := false;
      }
    }

    /** stop() */
    method StopRunning()
      requires Valid()
      modifies this`running, queue`waiting
      ensures Valid() && Some(State()) == Step(old(State()), HookRuns.Stop, queue.popAt)
    {
      if !running { return; }
      running := false;
      var woken := queue.PutStop();
    }

    /** pop() */
    method PopHead() returns (popped: Option<Change>)
      requires Valid() && !running && current.None? && (contextMembers.None? ==> queue.pending == [])
      modifies this`done, this`stored, queue`pending
      ensures Valid() && Some(State()) == Step(old(State()), HookRuns.Pop, queue.popAt)
      ensures popped == if old(queue.pending) == [] then None else Some(old(queue.pending)[0])
      ensures old(OnDisk()) ==> OnDisk()
    {
      popped := queue.FinishedChange();
      if popped.Some? {
        done := done + [popped.value];
        SaveState();
      }
    }

    /** The loop of cb_change_members over the added units. */
    method JoinEach(added: seq<Unit>) returns (ok: bool)
      requires Valid() && contextMembers.Some?
      modifies this, queue
      ensures Valid()
      ensures var r := JoinAll(old(State()), added, queue.popAt);
              (ok <==> r.Some?) && (ok ==> State() == r.value)
    {
      hide HookRuns.Put, JoinAll;
      ghost var popAt, s0 := queue.popAt, State();
      var i := 0;
      while i < |added|
        invariant 0 <= i <= |added|
        invariant Valid() && contextMembers.Some? && queue.popAt == popAt
        invariant JoinAll(State(), added[i..], popAt) == JoinAll(s0, added, popAt)
      {
        ghost var before := State();
        contextMembers := Some(contextMembers.value + {added[i]});
        JoinFrom(before, added, i, popAt);
        assert State() == before.(members := contextMembers);
        ok := Enqueue(Change(added[i], Joined, contextMembers.value), if running then 1 else 0);
        if !ok { return; }
        i := i + 1;
      }
      JoinFrom(State(), added, i, popAt);
      ok := true;
    }

    /** The loop of cb_change_members over the removed units. */
    method DepartEach(removed: seq<Unit>) returns (ok: bool)
      requires Valid() && contextMembers.Some?
      modifies this, queue
      ensures Valid() && contextMembers.Some?
      ensures var r := DepartAll(old(State()), removed, queue.popAt);
              (ok <==> r.Some?) && (ok ==> State() == r.value)
    {
      hide HookRuns.Put;
      ghost var popAt, s0 := queue.popAt, State();
      var i := 0;
      while i < |removed|
        invariant 0 <= i <= |removed|
        invariant Valid() && contextMembers.Some? && queue.popAt == popAt
        invariant DepartAll(State(), removed[i..], popAt) == DepartAll(s0, removed, popAt)
      {
        if removed[i] !in contextMembers.value { return false; }
        ghost var before := State();
        contextMembers := Some(contextMembers.value - {removed[i]});
        assert removed[i..][1..] == removed[i + 1..];
        assert State() == before.(members := contextMembers);
        ok := Enqueue(Change(removed[i], Departed, contextMembers.value), if running then 1 else 0);
        if !ok { return; }
        i := i + 1;
      }
      assert removed[i..] == [];
      ok := true;
    }

    /** cb_change_members. ok is false when a set removal or a reduction would raise. */
    method CbChangeMembers(oldUnits: set<Unit>, newUnits: set<Unit>) returns (ok: bool)
      requires Valid()
      modifies this, queue
      ensures Valid()
      ensures var r := Step(old(State()), ChangeMembers(oldUnits, newUnits), queue.popAt);
              (ok <==> r.Some?) && (ok ==> State() == r.value && OnDisk())
    {
      hide HookRuns.Put, JoinAll, DepartAll;
      if contextMembers.None? {
        contextMembers := Some(oldUnits);
      }
      var added := Sorted(newUnits - memberVersions.Keys);
      var removed := Sorted(memberVersions.Keys - newUnits);
      memberVersions := NewVersions(memberVersions, newUnits);
      ok := JoinEach(added);
      if ok {
        ok := DepartEach(removed);
        if ok { SaveState(); }
      }
    }

    /** cb_change_settings. ok is false when there is no membership yet, or a reduction would raise. */
    method CbChangeSettings(unitVersions: seq<(Unit, nat)>) returns (ok: bool)
      requires Valid()
      modifies this, queue
      ensures Valid()
      ensures var r := Step(old(State()), ChangeSettings(unitVersions), queue.popAt);
              (ok <==> r.Some?) && (ok ==> State() == r.value && OnDisk())
    {
      hide HookRuns.Put, SettingsChanged;
      ghost var popAt := queue.popAt;
      ghost var s0 := State();
      var i := 0;
      while i < |unitVersions|
        invariant 0 <= i <= |unitVersions|
        invariant Valid() && queue.popAt == popAt && contextMembers == old(contextMembers)
        invariant SettingsChanged(State(), unitVersions[i..], popAt) == SettingsChanged(s0, unitVersions, popAt)
      {
        var (u, version) := unitVersions[i];
        SettingsFrom(State(), unitVersions, i, popAt);
        if version > (if u in memberVersions then memberVersions[u] else 0) {
          if contextMembers.None? { return false; }
          ghost var before := State();
          memberVersions := memberVersions[u := version];
          assert State() == before.(versions := memberVersions);
          ok := Enqueue(Change(u, Modified, contextMembers.value), if running then 1 else 0);
          if !ok { return; }
        }
        i := i + 1;
      }
      SettingsFrom(State(), unitVersions, i, popAt);
      if contextMembers.None? { return false; }
      SaveState();
      ok := true;
    }
  }

  /** cb_change_settings from entry i on. */
  lemma SettingsFrom(s: Sched, vs: seq<(Unit, nat)>, i: nat, popAt: PopIndex)
    requires i <= |vs|
    ensures SettingsChanged(s, vs[i..], popAt) ==
              if i == |vs| then (if s.members.None? then None else Some(s))
              else if vs[i].1 <= (if vs[i].0 in s.versions then s.versions[vs[i].0] else 0)
              then SettingsChanged(s, vs[i + 1..], popAt)
              else if s.members.None? then None
              else
                match HookRuns.Put(s.(versions := s.versions[vs[i].0 := vs[i].1]),
                                   Change(vs[i].0, Modified, s.members.value), Offset(s), popAt)
                case None => None
                case Some(t) => SettingsChanged(t, vs[i + 1..], popAt)
  {
    if i < |vs| {
      assert vs[i..][1..] == vs[i + 1..];
    }
  }

  /** The loop of cb_change_members over the added units, from the i-th on. */
  lemma JoinFrom(s: Sched, us: seq<Unit>, i: nat, popAt: PopIndex)
    requires i <= |us| && s.members.Some?
    ensures JoinAll(s, us[i..], popAt) ==
              if i == |us| then Some(s)
              else
                var m := s.members.value + {us[i]};
                match HookRuns.Put(s.(members := Some(m)), Change(us[i], Joined, m), Offset(s), popAt)
                case None => None
                case Some(t) => if t.members.Some? then JoinAll(t, us[i + 1..], popAt) else None
  {
    if i < |us| {
      assert us[i..][1..] == us[i + 1..];
    }
  }
}
