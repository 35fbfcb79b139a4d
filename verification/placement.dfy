/** Placing units on machines from several clients at once: the change functions of ServiceUnitState in
    juju/state/service.py, run through the retry loop of StateBase in juju/state/base.py. */
module Placement {
  import opened Wrappers
  import opened Sorting
  import opened Topology
  import opened InternalTopologies
  import opened TopologyEffects

  const ROOT := "machine-0000000000"

  datatype PlacementError = StateChanged | NoUnusedMachines | AlreadyOnOther | Subordinate | Failed(error: Error)

  /** May machine m take unit u? Machine and unit constraints do not change. */
  type Fits = (string, string) -> bool

  // --------------------------------------------------------- change functions

  /** The test of the loop in assign_to_unused_machine. */
  ghost predicate Usable(st: State, fits: Fits, u: string, m: string) {
    m in st.machines && m != ROOT && !MachineHasUnits(st, m) && fits(m, u)
  }

  /** The first usable machine of a list. */
  ghost function FirstUsable(st: State, fits: Fits, u: string, ms: seq<string>): (r: Option<string>)
    ensures r.Some? ==> r.value in ms && Usable(st, fits, u, r.value)
    ensures r.None? ==> forall m :: m in ms ==> !Usable(st, fits, u, m)
  {
    if ms == [] then None
    else if Usable(st, fits, u, ms[0]) then Some(ms[0])
    else FirstUsable(st, fits, u, ms[1..])
  }

  datatype Task =
    | PlaceUnused(service: string, unit_: string)
    | PlaceOn(service: string, unit_: string, machine: string)
    | Unplace(service: string, unit_: string)
    | Other(op: Op)

  ghost function Lift(r: Result<State, Error>): Result<State, PlacementError> {
    match r case Ok(st) => Ok(st) case Err(e) => Err(Failed(e))
  }

  /** What a change function makes of the topology it is given. */
  ghost function Change(st: State, fits: Fits, task: Task): Result<State, PlacementError> {
    match task
    case PlaceUnused(s, u) =>
      if !HasUnit(st, s, u) then Err(StateChanged)
      else
        (match FirstUsable(st, fits, u, Sorted(st.machines))
         case None => Err(NoUnusedMachines)
         case Some(m) => Lift(Apply(st, AssignUnit(s, u, m))))
    case PlaceOn(s, u, m) =>
      if !HasUnit(st, s, u) then Err(StateChanged)
      else if st.services[s].units[u].container.Some? then Err(Subordinate)
      else if st.services[s].units[u].machine == Some(m) then Ok(st)
      else if st.services[s].units[u].machine.Some? then Err(AlreadyOnOther)
      else Lift(Apply(st, AssignUnit(s, u, m)))
    case Unplace(s, u) =>
      if !HasUnit(st, s, u) then Err(StateChanged)
      else if st.services[s].units[u].machine.None? then Ok(st)
      else Lift(Apply(st, UnassignUnit(s, u)))
    case Other(op) => Lift(Apply(st, op))
  }

  // --------------------------------------------------- what they make true

  /** Only the record of unit u of service s differs, and there only the machine, which is now `machine`. */
  ghost predicate OnlyMoved(st: State, after: State, s: string, u: string, machine: Option<string>) {
    && Record(st, s, u).Some?
    && (forall t, v :: Record(after, t, v) == if t == s && v == u then Some(Record(st, s, u).value.(machine := machine))
                                              else Record(st, t, v))
    && (forall m :: KnownMachine(after, m) <==> KnownMachine(st, m))
    && (forall t :: ServiceName(after, t) == ServiceName(st, t))
    && (forall n :: Counter(after, n) == Counter(st, n))
    && (forall r :: Terms(after, r) == Terms(st, r))
    && (forall r, t :: Member(after, r, t) == Member(st, r, t))
  }

  lemma AssignMoves(st: State, op: Op)
    requires (op.AssignUnit? || op.UnassignUnit?) && Apply(st, op).Ok?
    ensures OnlyMoved(st, Apply(st, op).value, op.service, op.unit_, if op.AssignUnit? then Some(op.machine) else None)
  {
    hide Apply, Record, KnownMachine, ServiceName, Counter, Terms, Member;
    RecordAfter(st, op, op.service, op.unit_);
    forall t, v
      ensures Record(Apply(st, op).value, t, v) ==
                if t == op.service && v == op.unit_
                then Some(Record(st, t, v).value.(machine := if op.AssignUnit? then Some(op.machine) else None))
                else Record(st, t, v)
    {
      RecordAfter(st, op, t, v);
    }
    forall m ensures KnownMachine(Apply(st, op).value, m) <==> KnownMachine(st, m) { MachinesAfter(st, op, m); }
    forall t ensures ServiceName(Apply(st, op).value, t) == ServiceName(st, t) { ServiceNameAfter(st, op, t); }
    forall n ensures Counter(Apply(st, op).value, n) == Counter(st, n) { CounterAfter(st, op, n); }
    forall r ensures Terms(Apply(st, op).value, r) == Terms(st, r) { TermsAfter(st, op, r); }
    forall r, t ensures Member(Apply(st, op).value, r, t) == Member(st, r, t) { MemberAfter(st, op, r, t); }
  }

  /** unassign_from_machine goes through for every unit that is there, and leaves it on no machine. */
  lemma UnplaceMeans(st: State, fits: Fits, s: string, u: string)
    ensures Change(st, fits, Unplace(s, u)).Ok? <==> Record(st, s, u).Some?
    ensures Change(st, fits, Unplace(s, u)).Ok? ==> OnlyMoved(st, Change(st, fits, Unplace(s, u)).value, s, u, None)
  {
    if HasUnit(st, s, u) && st.services[s].units[u].machine.Some? {
      AssignMoves(st, UnassignUnit(s, u));
    }
  }

  /** assign_to_machine goes through for a principal unit that is on that machine already, or on none when
      the machine is known; and it leaves the unit there. */
  lemma PlaceOnMeans(st: State, fits: Fits, s: string, u: string, m: string)
    ensures Change(st, fits, PlaceOn(s, u, m)).Ok? <==>
              && Record(st, s, u).Some? && Record(st, s, u).value.container.None?
              && (Record(st, s, u).value.machine == Some(m)
                  || (Record(st, s, u).value.machine.None? && KnownMachine(st, m)))
    ensures Change(st, fits, PlaceOn(s, u, m)).Ok? ==>
              OnlyMoved(st, Change(st, fits, PlaceOn(s, u, m)).value, s, u, Some(m))
  {
    if Change(st, fits, PlaceOn(s, u, m)).Ok? && st.services[s].units[u].machine.None? {
      AssignMoves(st, AssignUnit(s, u, m));
    }
  }

  /** assign_to_unused_machine goes through for a unit on no machine when some machine is usable, and leaves
      it on a usable one. */
  lemma PlaceUnusedMeans(st: State, fits: Fits, s: string, u: string)
    ensures Change(st, fits, PlaceUnused(s, u)).Ok? <==>
              && Record(st, s, u).Some? && Record(st, s, u).value.machine.None?
              && exists m :: Usable(st, fits, u, m)
    ensures Change(st, fits, PlaceUnused(s, u)).Ok? ==>
              exists m ::
                Usable(st, fits, u, m) && OnlyMoved(st, Change(st, fits, PlaceUnused(s, u)).value, s, u, Some(m))
  {
    hide Sorted, OnlyMoved;
    var ms := Sorted(st.machines);
    var found := FirstUsable(st, fits, u, ms);
    if found.Some? {
      assert Usable(st, fits, u, found.value);
      if Change(st, fits, PlaceUnused(s, u)).Ok? { AssignMoves(st, AssignUnit(s, u, found.value)); }
    } else if m :| Usable(st, fits, u, m) {
      UsableIsKnown(st, fits, u, m);
      assert false;
    }
  }

  // ------------------------------------------------------- clients and a node

  /** A client is idle, or holds what it read with the version it read. */
  datatype Client = Idle | Working(task: Task, version: nat, snapshot: State)

  /** One write that took effect, with the content it replaced. */
  datatype Commit = Commit(task: Task, before: State, after: State)

  /** The /topology node, the clients, and all writes so far. */
  datatype World = World(content: State, version: nat, clients: map<string, Client>, log: seq<Commit>)

  datatype Step =
    | Read(client: string, task: Task)
    | TryWrite(client: string)

  /** One atomic step. TryWrite is the conditional write: on another version than was read it fails, and
      the client reads again and will compute again; a change function that raises ends the attempt. */
  ghost function Next(w: World, fits: Fits, step: Step): World {
    match step
    case Read(c, task) => w.(clients := w.clients[c := Working(task, w.version, w.content)])
    case TryWrite(c) =>
      if c !in w.clients || w.clients[c].Idle? then w
      else
        var k := w.clients[c];
        match Change(k.snapshot, fits, k.task)
        case Err(_) => w.(clients := w.clients[c := Idle])
        case Ok(st) =>
          if k.version != w.version then w.(clients := w.clients[c := Working(k.task, w.version, w.content)])
          else World(st, w.version + 1, w.clients[c := Idle], w.log + [Commit(k.task, k.snapshot, st)])
  }

  /** A conditional write by client c: without interference since its read, and when its change function
      does not raise, the change is written and c is done. With interference c goes on with the same task,
      on the content and version it finds now. When the change function raises, c gives up. Whatever
      happens, nobody else's work is touched. */
  lemma TryWriteMeans(w: World, fits: Fits, c: string)
    requires c in w.clients && w.clients[c].Working?
    ensures var k, after := w.clients[c], Next(w, fits, TryWrite(c));
            var change := Change(k.snapshot, fits, k.task);
            && (forall d :: d != c ==> (d in after.clients <==> d in w.clients)
                                       && (d in w.clients ==> after.clients[d] == w.clients[d]))
            && c in after.clients
            && (change.Ok? && k.version == w.version ==>
                  && after.content == change.value && after.version == w.version + 1 && after.clients[c] == Idle
                  && after.log == w.log + [Commit(k.task, k.snapshot, change.value)])
            && (!(change.Ok? && k.version == w.version) ==>
                  after.content == w.content && after.version == w.version && after.log == w.log)
            && (change.Ok? && k.version != w.version ==> after.clients[c] == Working(k.task, w.version, w.content))
            && (change.Err? ==> after.clients[c] == Idle)
  {
    hide Change;
  }

  /** A client that reads and writes with nobody in between commits its change of the content it found. */
  lemma UndisturbedCommits(w: World, fits: Fits, c: string, task: Task)
    requires Change(w.content, fits, task).Ok?
    ensures var after := Next(Next(w, fits, Read(c, task)), fits, TryWrite(c));
            && after.content == Change(w.content, fits, task).value && c in after.clients && after.clients[c] == Idle
            && after.log == w.log + [Commit(task, w.content, after.content)]
  {
    hide Change;
    TryWriteMeans(Next(w, fits, Read(c, task)), fits, c);
  }

  ghost function Run(w: World, fits: Fits, steps: seq<Step>): World {
    if steps == [] then w else Next(Run(w, fits, steps[..|steps| - 1]), fits, steps[|steps| - 1])
  }

  /** Whoever read the current version holds the current content. */
  ghost predicate ReadersAgree(w: World) {
    forall c :: c in w.clients && w.clients[c].Working? ==>
      w.clients[c].version <= w.version && (w.clients[c].version == w.version ==> w.clients[c].snapshot == w.content)
  }

  /** The writes form one chain from `first` to the current content, each the change of its task. */
  ghost predicate Chained(first: State, fits: Fits, log: seq<Commit>, last: State)
    decreases |log|
  {
    if log == [] then first == last
    else
      var c := log[|log| - 1];
      c.after == last && Change(c.before, fits, c.task) == Ok(c.after)
          && Chained(first, fits, log[..|log| - 1], c.before)
  }

  ghost predicate WorldInv(first: State, fits: Fits, w: World) {
    ReadersAgree(w) && Chained(first, fits, w.log, w.content)
  }

  lemma NextKeepsWorld(first: State, fits: Fits, w: World, step: Step)
    requires WorldInv(first, fits, w)
    ensures WorldInv(first, fits, Next(w, fits, step))
  {
    var w' := Next(w, fits, step);
    if w'.log != w.log {
      assert w'.log[..|w'.log| - 1] == w.log;
    }
  }

  /** Whatever the interleaving, the writes are a serial history: each change function saw exactly
      the content its write replaced. */
  lemma {:induction false} WritesAreSerial(fits: Fits, w: World, steps: seq<Step>)
    requires w.clients == map[] && w.log == []
    ensures WorldInv(w.content, fits, Run(w, fits, steps))
  {
    if steps != [] {
      WritesAreSerial(fits, w, steps[..|steps| - 1]);
      NextKeepsWorld(w.content, fits, Run(w, fits, steps[..|steps| - 1]), steps[|steps| - 1]);
    }
  }

  // ------------------------------------------------------------- unused machines

  /** No machine carries two units, and the root machine none. */
  ghost predicate Exclusive(st: State) {
    && (forall s, u, t, v, m :: OnMachine(st, s, u, m) && OnMachine(st, t, v, m) ==> s == t && u == v)
    && (forall s, u :: !OnMachine(st, s, u, ROOT))
  }

  /** The clients of the theorem: every placement goes through assign_to_unused_machine. */
  predicate PlacesUnusedOnly(task: Task) {
    !task.PlaceOn? && (task.Other? ==> !task.op.AssignUnit?)
  }

  /** Operations that place nothing leave each unit where it is, or take it away. */
  lemma NoNewPlacement(st: State, op: Op, s: string, u: string, m: string)
    requires Apply(st, op).Ok? && OnMachine(Apply(st, op).value, s, u, m)
    ensures OnMachine(st, s, u, m) || op == AssignUnit(s, u, m)
  {
  }

  lemma ChangeKeepsExclusive(st: State, fits: Fits, task: Task)
    requires Exclusive(st) && PlacesUnusedOnly(task) && Change(st, fits, task).Ok?
    ensures Exclusive(Change(st, fits, task).value)
  {
    hide Apply;
    var after := Change(st, fits, task).value;
    match task
    case PlaceUnused(s, u) =>
      var m := FirstUsable(st, fits, u, Sorted(st.machines)).value;
      PlacedAlone(st, s, u, m);
    case Unplace(s, u) =>
      if after != st { OpKeepsExclusive(st, UnassignUnit(s, u)); }
    case Other(op) => OpKeepsExclusive(st, op);
  }

  lemma OpKeepsExclusive(st: State, op: Op)
    requires Exclusive(st) && Apply(st, op).Ok? && !op.AssignUnit?
    ensures Exclusive(Apply(st, op).value)
  {
    hide Apply;
    var t := Apply(st, op).value;
    forall s, u, m | OnMachine(t, s, u, m)
      ensures OnMachine(st, s, u, m)
    {
      NoNewPlacement(st, op, s, u, m);
    }
  }

  lemma PlacedAlone(st: State, s: string, u: string, m: string)
    requires Exclusive(st) && !MachineHasUnits(st, m) && m != ROOT
    requires Apply(st, AssignUnit(s, u, m)).Ok?
    ensures Exclusive(Apply(st, AssignUnit(s, u, m)).value)
  {
    var op := AssignUnit(s, u, m);
    var after := Apply(st, op).value;
    forall t, v, n | OnMachine(after, t, v, n)
      ensures OnMachine(st, t, v, n) || (t == s && v == u && n == m)
    {
      NoNewPlacement(st, op, t, v, n);
    }
    assert OnMachine(after, s, u, m);
    assert forall t, v :: !OnMachine(st, t, v, m);
    assert forall n :: OnMachine(after, s, u, n) ==> n == m;
  }

  ghost predicate AllPlaceUnused(log: seq<Commit>) {
    forall i :: 0 <= i < |log| ==> PlacesUnusedOnly(log[i].task)
  }

  lemma {:induction false} ChainKeepsExclusive(first: State, fits: Fits, log: seq<Commit>, last: State)
    requires Exclusive(first) && Chained(first, fits, log, last) && AllPlaceUnused(log)
    ensures Exclusive(last)
    decreases |log|
  {
    if log != [] {
      var c := log[|log| - 1];
      ChainKeepsExclusive(first, fits, log[..|log| - 1], c.before);
      ChangeKeepsExclusive(c.before, fits, c.task);
    }
  }

  predicate StepPlacesUnused(step: Step) {
    step.Read? ==> PlacesUnusedOnly(step.task)
  }

  /** Clients only ever hold and write tasks they were given. */
  lemma {:induction false} TasksAreGiven(fits: Fits, w: World, steps: seq<Step>)
    requires w.clients == map[] && w.log == []
    requires forall i :: 0 <= i < |steps| ==> StepPlacesUnused(steps[i])
    ensures var v := Run(w, fits, steps);
            && (forall c :: c in v.clients && v.clients[c].Working? ==> PlacesUnusedOnly(v.clients[c].task))
            && AllPlaceUnused(v.log)
  {
    if steps != [] {
      var n := |steps| - 1;
      TasksAreGiven(fits, w, steps[..n]);
      assert StepPlacesUnused(steps[n]);
    }
  }

  /** Under any interleaving of clients that place units with assign_to_unused_machine only, no two
      units share a machine and machine 0 carries none. */
  lemma NoSharedMachines(fits: Fits, w: World, steps: seq<Step>)
    requires w.clients == map[] && w.log == [] && Exclusive(w.content)
    requires forall i :: 0 <= i < |steps| ==> StepPlacesUnused(steps[i])
    ensures Exclusive(Run(w, fits, steps).content)
  {
    WritesAreSerial(fits, w, steps);
    TasksAreGiven(fits, w, steps);
    ChainKeepsExclusive(w.content, fits, Run(w, fits, steps).log, Run(w, fits, steps).content);
  }

  /** What assign_to_unused_machine makes of a topology: the unit goes onto the first known machine, in
      name order, that is not the root, carries no unit and passes the constraint test. */
  lemma PlacedOnFirst(st: State, fits: Fits, s: string, u: string)
    requires Change(st, fits, PlaceUnused(s, u)).Ok?
    ensures exists m :: PlacedOn(st, Change(st, fits, PlaceUnused(s, u)).value, fits, s, u, m)
  {
    hide Usable, Sorted, Inv;
    var after := Change(st, fits, PlaceUnused(s, u)).value;
    var ms := Sorted(st.machines);
    assert HasUnit(st, s, u);
    var m := FirstUsable(st, fits, u, ms).value;
    assert Usable(st, fits, u, m);
    forall n | Usable(st, fits, u, n)
      ensures n == m || !Before(n, m)
    {
      UsableIsKnown(st, fits, u, n);
      FirstIsFirst(st, fits, u, ms, n);
    }
    assert OnMachine(after, s, u, m);
    assert PlacedOn(st, after, fits, s, u, m);
  }

  ghost predicate PlacedOn(before: State, after: State, fits: Fits, s: string, u: string, m: string) {
    && Usable(before, fits, u, m)
    && OnMachine(after, s, u, m)
    && (forall n :: Usable(before, fits, u, n) ==> n == m || !Before(n, m))
  }

  lemma UsableIsKnown(st: State, fits: Fits, u: string, m: string)
    requires Usable(st, fits, u, m)
    ensures m in Sorted(st.machines)
  {
  }

  /** Every placement written by assign_to_unused_machine satisfied the tests on the very topology it replaced. */
  lemma PlacementsPassedTheTest(fits: Fits, w: World, steps: seq<Step>, i: nat)
    requires w.clients == map[] && w.log == []
    requires i < |Run(w, fits, steps).log| && Run(w, fits, steps).log[i].task.PlaceUnused?
    ensures var c := Run(w, fits, steps).log[i];
            exists m :: PlacedOn(c.before, c.after, fits, c.task.service, c.task.unit_, m)
    ensures Run(w, fits, steps).log[i].before ==
              if i == 0 then w.content else Run(w, fits, steps).log[i - 1].after
  {
    hide Run, Change, PlacedOn;
    WritesAreSerial(fits, w, steps);
    var log := Run(w, fits, steps).log;
    ChainAt(w.content, fits, log, Run(w, fits, steps).content, i);
    PlacedOnFirst(log[i].before, fits, log[i].task.service, log[i].task.unit_);
  }

  lemma {:induction false} ChainAt(first: State, fits: Fits, log: seq<Commit>, last: State, i: nat)
    requires Chained(first, fits, log, last) && i < |log|
    ensures Change(log[i].before, fits, log[i].task) == Ok(log[i].after)
    ensures log[i].before == if i == 0 then first else log[i - 1].after
    decreases |log|
  {
    hide Change;
    var n := |log| - 1;
    if i < n {
      ChainAt(first, fits, log[..n], log[n].before, i);
    } else if n > 0 {
      assert log[..n][n - 1] == log[n - 1];
    }
  }

  lemma {:induction false} FirstIsFirst(st: State, fits: Fits, u: string, ms: seq<string>, n: string)
    requires n in ms && Usable(st, fits, u, n)
    requires forall i, j :: 0 <= i < j < |ms| ==> ms[i] != ms[j] && Before(ms[i], ms[j])
    ensures var m := FirstUsable(st, fits, u, ms).value; n == m || !Before(n, m)
    decreases |ms|
  {
    if Usable(st, fits, u, ms[0]) {
      if n != ms[0] {
        var k :| 0 <= k < |ms| && ms[k] == n;
        BeforeTotal(ms[0], n);
      }
    } else {
      FirstIsFirst(st, fits, u, ms[1..], n);
    }
  }

  // -------------------------------------------- the change functions in place

  /** What a change function does to the topology it is given; where it raises, no write follows. */
  ghost predicate Changed(before: State, fits: Fits, task: Task, after: State, raised: Option<PlacementError>) {
    match Change(before, fits, task)
    case Ok(st) => raised.None? && after == st
    case Err(e) => raised == Some(e) && after == before
  }

  /** The loop of assign_unused_unit over the sorted machines. */
  method FindUnused(topology: InternalTopology, fits: Fits, u: string) returns (r: Option<string>)
    ensures r == FirstUsable(topology.state, fits, u, Sorted(topology.state.machines))
  {
    ghost var st := topology.state;
    var ms := Sorted(topology.state.machines);
    for i := 0 to |ms|
      invariant FirstUsable(st, fits, u, ms) == FirstUsable(st, fits, u, ms[i..])
    {
      assert ms[i..][1..] == ms[i + 1..];
      assert ms[i] in ms;
      if ms[i] == ROOT { continue; }
      var used := topology.MachineHasUnits(ms[i]);
      if used == Ok(false) && fits(ms[i], u) { return Some(ms[i]); }
    }
    r := None;
  }

  /** assign_unused_unit */
  method AssignUnusedUnit(topology: InternalTopology, fits: Fits, s: string, u: string)
    returns (raised: Option<PlacementError>)
    modifies topology
    ensures Changed(old(topology.state), fits, PlaceUnused(s, u), topology.state, raised)
  {
    hide Apply, FirstUsable, Sorted;
    if s !in topology.state.services || u !in topology.state.services[s].units { return Some(StateChanged); }
    var m := FindUnused(topology, fits, u);
    if m.None? { return Some(NoUnusedMachines); }
    var done := topology.AssignUnit(s, u, m.value);
    raised := if done.Ok? then None else Some(Failed(done.error));
  }

  /** assign_unit */
  method AssignUnitTo(topology: InternalTopology, fits: Fits, s: string, u: string, m: string)
    returns (raised: Option<PlacementError>)
    modifies topology
    ensures Changed(old(topology.state), fits, PlaceOn(s, u, m), topology.state, raised)
  {
    if s !in topology.state.services || u !in topology.state.services[s].units { return Some(StateChanged); }
    var info := topology.state.services[s].units[u];
    if info.container.Some? { return Some(Subordinate); }
    if info.machine.None? {
      var done := topology.AssignUnit(s, u, m);
      return if done.Ok? then None else Some(Failed(done.error));
    }
    raised := if info.machine == Some(m) then None else Some(AlreadyOnOther);
  }

  /** unassign_unit */
  method UnassignUnitFrom(topology: InternalTopology, fits: Fits, s: string, u: string)
    returns (raised: Option<PlacementError>)
    modifies topology
    ensures Changed(old(topology.state), fits, Unplace(s, u), topology.state, raised)
  {
    if s !in topology.state.services || u !in topology.state.services[s].units { return Some(StateChanged); }
    if topology.state.services[s].units[u].machine.None? { return None; }
    var done := topology.UnassignUnit(s, u);
    raised := if done.Ok? then None else Some(Failed(done.error));
  }

  /** assign_to_machine can be repeated: a second run of the change function changes nothing. */
  lemma PlaceOnIsIdempotent(st: State, fits: Fits, s: string, u: string, m: string)
    requires Change(st, fits, PlaceOn(s, u, m)).Ok?
    ensures Change(Change(st, fits, PlaceOn(s, u, m)).value, fits, PlaceOn(s, u, m))
        == Change(st, fits, PlaceOn(s, u, m))
  {
  }

  /** A successful assign_to_machine keeps machines exclusive exactly when it changes nothing, or the machine
      is not the root and carries no unit yet. */
  lemma PlaceOnKeepsExclusiveIff(st: State, fits: Fits, s: string, u: string, m: string)
    requires Exclusive(st) && Change(st, fits, PlaceOn(s, u, m)).Ok?
    ensures var after := Change(st, fits, PlaceOn(s, u, m)).value;
            Exclusive(after) <==> after == st || (m != ROOT && !MachineHasUnits(st, m))
  {
    var after := Change(st, fits, PlaceOn(s, u, m)).value;
    if after != st {
      assert Apply(st, AssignUnit(s, u, m)) == Ok(after);
      PlacedUnit(st, s, u, m);
      hide Apply, Change;
      if m != ROOT && !MachineHasUnits(st, m) {
        PlacedAlone(st, s, u, m);
      } else if m != ROOT {
        var t, v :| OnMachine(st, t, v, m);
        assert OnMachine(after, t, v, m) && OnMachine(after, s, u, m);
      }
    }
  }

  /** Where the assignment puts the unit, and that it leaves the others where they are. */
  lemma PlacedUnit(st: State, s: string, u: string, m: string)
    requires Apply(st, AssignUnit(s, u, m)).Ok?
    ensures var after := Apply(st, AssignUnit(s, u, m)).value;
            && OnMachine(after, s, u, m)
            && (forall n :: !OnMachine(st, s, u, n))
            && (forall t, v, n :: OnMachine(st, t, v, n) ==> OnMachine(after, t, v, n))
  {
  }

  /** So the restriction to assign_to_unused_machine is needed: assign_to_machine can share machines, root
      included. */
  lemma PlaceOnShares() returns (st: State, after: State)
    ensures Topology.Inv(st) && Exclusive(st)
    ensures forall fits :: var mid := Change(st, fits, PlaceOn("s", "u", ROOT));
                           mid.Ok? && Change(mid.value, fits, PlaceOn("s", "v", ROOT)) == Ok(after)
    ensures !Exclusive(after)
  {
    hide Change;
    var free := UnitInfo(0, None, None);
    st := State({ROOT}, map["s" := Service("s", map["u" := free, "v" := free.(sequence := 1)])], map["s" := 2], map[]);
    var mid := WithUnit(st, "s", "u", free.(machine := Some(ROOT)));
    after := WithUnit(mid, "s", "v", free.(sequence := 1, machine := Some(ROOT)));
    forall fits: Fits
      ensures Change(st, fits, PlaceOn("s", "u", ROOT)) == Ok(mid)
      ensures Change(mid, fits, PlaceOn("s", "v", ROOT)) == Ok(after)
    {
      PlaceOnFree(st, fits, "s", "u", ROOT);
      PlaceOnFree(mid, fits, "s", "v", ROOT);
    }
    assert OnMachine(after, "s", "u", ROOT);
  }

  lemma PlaceOnFree(st: State, fits: Fits, s: string, u: string, m: string)
    requires HasUnit(st, s, u) && m in st.machines
    requires st.services[s].units[u].container.None? && st.services[s].units[u].machine.None?
    ensures Change(st, fits, PlaceOn(s, u, m)) == Ok(WithUnit(st, s, u, st.services[s].units[u].(machine := Some(m))))
  {
  }
}
