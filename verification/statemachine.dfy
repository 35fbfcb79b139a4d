/** The workflow engine of juju/lib/statemachine.py: tables of transitions, firing, and what is recorded
    on the way. S and T are the state and transition ids; the source's initial state None is one of S. */
module StateMachine {
  import opened Wrappers

  datatype Transition<S, T> = Transition(id: T, source: S, destination: S, error: Option<T>, automatic: bool,
                                         alias: Option<string>)

  // ------------------------------------------------------------------- tables

  /** The two dictionaries of a Workflow. */
  datatype Table<S(==), T(==)> = Table(sources: map<S, seq<T>>, transitions: map<T, Transition<S, T>>)

  function Listed<S(==), T>(sources: map<S, seq<T>>, s: S): map<S, seq<T>> {
    if s in sources then sources else sources[s := []]
  }

  function AddTransition<S(==), T(==)>(w: Table<S, T>, t: Transition<S, T>): Table<S, T> {
    var sources := Listed(w.sources, t.source);
    Table(Listed(sources[t.source := sources[t.source] + [t.id]], t.destination), w.transitions[t.id := t])
  }

  function Build<S(==), T(==)>(ts: seq<Transition<S, T>>): Table<S, T> {
    if ts == [] then Table(map[], map[]) else AddTransition(Build(ts[..|ts| - 1]), ts[|ts| - 1])
  }

  /** The ids of the transitions that leave s, in table order. */
  function IdsFrom<S(==), T>(ts: seq<Transition<S, T>>, s: S): seq<T> {
    if ts == [] then []
    else IdsFrom(ts[..|ts| - 1], s) + if ts[|ts| - 1].source == s then [ts[|ts| - 1].id] else []
  }

  ghost predicate Mentions<S, T>(ts: seq<Transition<S, T>>, s: S) {
    exists t :: t in ts && (t.source == s || t.destination == s)
  }

  /** The initialised dictionaries list every state mentioned, with the ids that leave it in order. */
  lemma {:induction false} BuildLists<S, T>(ts: seq<Transition<S, T>>, s: S)
    ensures s in Build(ts).sources <==> Mentions(ts, s)
    ensures IdsFrom(ts, s) == if s in Build(ts).sources then Build(ts).sources[s] else []
  {
    if ts != [] {
      var n := |ts| - 1;
      BuildLists(ts[..n], s);
      assert forall t :: t in ts <==> t in ts[..n] || t == ts[n];
    }
  }

  /** Ids lead to transitions of the state they are listed under, and all transitions are listed. */
  ghost predicate Valid<S(!new), T(!new)>(w: Table<S, T>) {
    && (forall s, id :: s in w.sources && id in w.sources[s] ==> id in w.transitions && w.transitions[id].source == s)
    && (forall id :: id in w.transitions ==>
          && w.transitions[id].id == id
          && w.transitions[id].source in w.sources && id in w.sources[w.transitions[id].source]
          && w.transitions[id].destination in w.sources)
  }

  lemma {:induction false} BuiltTransitions<S, T>(ts: seq<Transition<S, T>>)
    ensures forall id :: id in Build(ts).transitions ==>
        Build(ts).transitions[id].id == id && Build(ts).transitions[id] in ts
    ensures forall i :: 0 <= i < |ts| ==> ts[i].id in Build(ts).transitions
  {
    if ts != [] {
      var n := |ts| - 1;
      BuiltTransitions(ts[..n]);
      forall i | 0 <= i < |ts|
        ensures ts[i].id in Build(ts).transitions
      {
        if i < n { assert ts[i] == ts[..n][i]; }
      }
    }
  }

  lemma {:induction false} IdsFromMeans<S, T>(ts: seq<Transition<S, T>>, s: S, id: T)
    ensures id in IdsFrom(ts, s) <==> exists t :: t in ts && t.id == id && t.source == s
  {
    if ts != [] {
      var n := |ts| - 1;
      IdsFromMeans(ts[..n], s, id);
      assert forall t :: t in ts <==> t in ts[..n] || t == ts[n];
    }
  }

  /** Transitions of one id leave one state. */
  ghost predicate OneSourcePerId<S, T>(ts: seq<Transition<S, T>>) {
    forall t, u :: t in ts && u in ts && t.id == u.id ==> t.source == u.source
  }

  lemma Listing<S, T>(ts: seq<Transition<S, T>>, t: Transition<S, T>)
    requires t in ts
    ensures var w := Build(ts);
            && t.source in w.sources && t.id in w.sources[t.source]
            && t.destination in w.sources && t.id in w.transitions
  {
    hide Build, IdsFrom;
    BuildLists(ts, t.source);
    BuildLists(ts, t.destination);
    IdsFromMeans(ts, t.source, t.id);
    BuiltTransitions(ts);
    var i :| 0 <= i < |ts| && ts[i] == t;
  }

  /** A table is usable exactly when transitions of one id leave one state. */
  lemma BuildIsValidIff<S(!new), T(!new)>(ts: seq<Transition<S, T>>)
    ensures Valid(Build(ts)) <==> OneSourcePerId(ts)
  {
    hide Build, IdsFrom;
    var w := Build(ts);
    BuiltTransitions(ts);
    forall t | t in ts
      ensures t.source in w.sources && t.id in w.sources[t.source]
      ensures t.destination in w.sources && t.id in w.transitions
    {
      Listing(ts, t);
    }
    if OneSourcePerId(ts) {
      forall s, id | s in w.sources && id in w.sources[s]
        ensures id in w.transitions && w.transitions[id].source == s
      {
        BuildLists(ts, s);
        IdsFromMeans(ts, s, id);
      }
    }
  }

  /** A table with exactly one transition for every id. */
  lemma TotalTable<S(!new), T(!new)>(ts: seq<Transition<S, T>>, edge: T -> Transition<S, T>)
    requires forall t :: t in ts ==> t == edge(t.id)
    requires forall id :: edge(id) in ts && edge(id).id == id
    ensures Valid(Build(ts))
    ensures forall id :: id in Build(ts).transitions && Build(ts).transitions[id] == edge(id)
    ensures forall s, id :: Available(Build(ts), s, id) <==> s == edge(id).source
  {
    hide Build, Valid;
    BuildIsValidIff(ts);
    BuiltTransitions(ts);
    forall id
      ensures id in Build(ts).transitions && Build(ts).transitions[id] == edge(id)
    {
      Listing(ts, edge(id));
    }
    forall s, id
      ensures Available(Build(ts), s, id) <==> s == edge(id).source
    {
      Listing(ts, edge(id));
      if Available(Build(ts), s, id) {
        BuildLists(ts, s);
        IdsFromMeans(ts, s, id);
      }
    }
  }

  function FirstAutomatic<S, T>(w: Table<S, T>, ids: seq<T>): (r: Option<T>)
    ensures r.Some? ==> r.value in w.transitions && w.transitions[r.value].automatic
    ensures r.Some? ==> exists i :: 0 <= i < |ids| && ids[i] == r.value
                                    && forall j :: 0 <= j < i && ids[j] in w.transitions ==>
                                         !w.transitions[ids[j]].automatic
    ensures r.None? ==> forall id :: id in ids && id in w.transitions ==> !w.transitions[id].automatic
  {
    if ids == [] then None
    else if ids[0] in w.transitions && w.transitions[ids[0]].automatic then Some(ids[0])
    else FirstAutomatic(w, ids[1..])
  }

  /** The automatic transition that fires in state s. */
  function Automatic<S, T>(w: Table<S, T>, s: S): Option<T> {
    if s in w.sources then FirstAutomatic(w, w.sources[s]) else None
  }

  predicate Available<S, T>(w: Table<S, T>, s: S, id: T) {
    s in w.sources && id in w.sources[s]
  }

  /** Where at most one available transition is automatic, that one fires. */
  lemma AutomaticIs<S, T(!new)>(w: Table<S, T>, s: S, auto: Option<T>)
    requires forall id :: Available(w, s, id) ==>
        id in w.transitions && (w.transitions[id].automatic <==> auto == Some(id))
    requires auto.Some? ==> Available(w, s, auto.value)
    ensures Automatic(w, s) == auto
  {
    if s in w.sources {
      var r := FirstAutomatic(w, w.sources[s]);
      assert r.Some? ==> Available(w, s, r.value);
    }
  }

  // ------------------------------------------------------- what fires after what

  ghost predicate FiresNext<S, T>(w: Table<S, T>, a: T, b: T) {
    && a in w.transitions
    && (w.transitions[a].error == Some(b) || Automatic(w, w.transitions[a].destination) == Some(b))
  }

  ghost predicate IsPath<S, T>(w: Table<S, T>, p: seq<T>) {
    |p| >= 2 && forall i {:trigger p[i]} :: 0 <= i < |p| - 1 ==> FiresNext(w, p[i], p[i + 1])
  }

  ghost predicate Leads<S, T(!new)>(w: Table<S, T>, a: T, b: T) {
    exists p :: IsPath(w, p) && p[0] == a && p[|p| - 1] == b
  }

  ghost predicate Acyclic<S, T(!new)>(w: Table<S, T>) {
    forall a :: a in w.transitions ==> !Leads(w, a, a)
  }

  /** All ids a table mentions. */
  ghost function Mentioned<S, T>(w: Table<S, T>): set<T> {
    w.transitions.Keys + set id | id in w.transitions && w.transitions[id].error.Some? :: w.transitions[id].error.value
  }

  ghost function Reach<S, T(!new)>(w: Table<S, T>, a: T): set<T> {
    set b | b in Mentioned(w) && Leads(w, a, b)
  }

  /** How many transitions can still fire from a on; in an acyclic table this goes down. */
  ghost function Rank<S, T(!new)>(w: Table<S, T>, a: T): nat {
    |Reach(w, a)|
  }

  lemma RankShrinks<S, T(!new)>(w: Table<S, T>, a: T, b: T)
    requires Acyclic(w) && FiresNext(w, a, b)
    ensures Rank(w, b) < Rank(w, a)
  {
    ReachShrinks(w, a, b);
    SmallerSet(Reach(w, b), Reach(w, a));
  }

  lemma ReachShrinks<S, T(!new)>(w: Table<S, T>, a: T, b: T)
    requires Acyclic(w) && FiresNext(w, a, b)
    ensures Reach(w, b) < Reach(w, a)
  {
    assert IsPath(w, [a, b]) && [a, b][0] == a && [a, b][1] == b;
    assert b in Reach(w, a);
    forall c | Leads(w, b, c)
      ensures Leads(w, a, c)
    {
      var p :| IsPath(w, p) && p[0] == b && p[|p| - 1] == c;
      var q := [a] + p;
      forall i | 0 <= i < |q| - 1
        ensures FiresNext(w, q[i], q[i + 1])
      {
        if i > 0 { assert q[i] == p[i - 1] && q[i + 1] == p[i]; }
      }
      assert IsPath(w, q) && q[0] == a && q[|q| - 1] == c;
    }
    forall p | IsPath(w, p)
      ensures p[0] in w.transitions
    {
      assert FiresNext(w, p[0], p[1]);
    }
    assert b !in Reach(w, b);
  }

  ghost predicate Ranked<S, T(!new)>(w: Table<S, T>, rank: T -> nat) {
    forall a, b :: FiresNext(w, a, b) ==> rank(b) < rank(a)
  }

  lemma {:induction false} PathDescends<S, T(!new)>(w: Table<S, T>, rank: T -> nat, p: seq<T>)
    requires Ranked(w, rank) && IsPath(w, p)
    ensures rank(p[|p| - 1]) < rank(p[0])
    decreases |p|
  {
    assert FiresNext(w, p[0], p[1]);
    if |p| > 2 {
      forall i | 0 <= i < |p[1..]| - 1
        ensures FiresNext(w, p[1..][i], p[1..][i + 1])
      {
        assert FiresNext(w, p[i + 1], p[i + 2]);
      }
      PathDescends(w, rank, p[1..]);
    }
  }

  /** Acyclic tables are the ones that can be ranked. */
  lemma AcyclicIff<S, T(!new)>(w: Table<S, T>)
    ensures Acyclic(w) <==> exists rank: T -> nat :: Ranked(w, rank)
  {
    if Acyclic(w) {
      var rank: T -> nat := a => Rank(w, a);
      forall a, b | FiresNext(w, a, b)
        ensures rank(b) < rank(a)
      {
        RankShrinks(w, a, b);
      }
      assert Ranked(w, rank);
    }
    if rank: T -> nat :| Ranked(w, rank) {
      forall a | a in w.transitions
        ensures !Leads(w, a, a)
      {
        if p :| IsPath(w, p) && p[0] == a && p[|p| - 1] == a {
          PathDescends(w, rank, p);
        }
      }
    }
  }

  lemma SmallerSet<T>(a: set<T>, b: set<T>)
    requires a < b
    ensures |a| < |b|
  {
    assert b == a + (b - a);
  }

  // ------------------------------------------------------------------- firing

  type Variables = map<string, string>

  /** The stored record; an absent one reads as the initial state with nothing else. */
  datatype Saved<S, T> = Saved(state: S, variables: Variables, inflight: Option<T>)

  datatype Error = InvalidState | InvalidTransition

  /** How a do_ method ends: with variables to store, or in a TransitionError. A transition without
      a do_ method is done at once. */
  datatype Outcome = Done(variables: Variables) | Failed

  /** The transitions fired, the records stored, and the result of one call of fire_transition. */
  datatype Firing<S, T> = Firing(fired: seq<T>, stored: seq<Saved<S, T>>, result: Result<bool, Error>)

  function Begun<S, T>(saved: Saved<S, T>, id: T): Saved<S, T> {
    saved.(inflight := Some(id))
  }

  function Moved<S, T>(t: Transition<S, T>, given: Variables, returned: Variables): Saved<S, T> {
    Saved(t.destination, given + returned, None)
  }

  /** The records that firing `id` stores itself. */
  function Stores<S, T>(t: Transition<S, T>, saved: Saved<S, T>, given: Variables,
                        outcome: Outcome): (r: seq<Saved<S, T>>)
    ensures r != []
  {
    match outcome
    case Done(returned) => [Begun(saved, t.id), Moved(t, given, returned)]
    case Failed =>
      if t.error.Some? then [Begun(saved, t.id)] else [Begun(saved, t.id), saved.(inflight := None)]
  }

  /** What fires once `id` is over. */
  function Follow<S, T>(w: Table<S, T>, outcome: Outcome, id: T): Option<T>
    requires id in w.transitions
  {
    if outcome.Failed? then w.transitions[id].error else Automatic(w, w.transitions[id].destination)
  }

  function Last<A>(s: seq<A>): A
    requires s != []
  {
    s[|s| - 1]
  }

  /** fire_transition. In an acyclic table it ends. */
  ghost function Fire<S(!new), T(!new)>(w: Table<S, T>, saved: Saved<S, T>, id: T, given: Variables,
                                        acts: T -> Outcome): Firing<S, T>
    requires Valid(w) && Acyclic(w)
    decreases Rank(w, id)
  {
    if saved.state !in w.sources then Firing([], [], Err(InvalidState))
    else if id !in w.sources[saved.state] then Firing([], [], Err(InvalidTransition))
    else
      var own := Stores(w.transitions[id], saved, given, acts(id));
      var next := Follow(w, acts(id), id);
      if next.None? then Firing([id], own, Ok(acts(id).Done?))
      else
        RankShrinks(w, id, next.value);
        var rest := Fire(w, Last(own), next.value, map[], acts);
        Firing([id] + rest.fired, own + rest.stored, if rest.result.Ok? then Ok(acts(id).Done?) else rest.result)
  }

  lemma FollowFiresNext<S(!new), T(!new)>(w: Table<S, T>, outcome: Outcome, id: T)
    requires Valid(w) && id in w.transitions && Follow(w, outcome, id).Some?
    ensures FiresNext(w, id, Follow(w, outcome, id).value)
  {
  }

  /** From `before` and the history `was`, storing the records leads to `now` and `history`. */
  ghost predicate Recorded<S, T>(before: Saved<S, T>, was: seq<Saved<S, T>>, stored: seq<Saved<S, T>>, now: Saved<S,
                                 T>, history: seq<Saved<S, T>>) {
    history == was + stored && now == if stored == [] then before else Last(stored)
  }

  lemma RecordedJoins<S, T>(before: Saved<S, T>, was: seq<Saved<S, T>>, own: seq<Saved<S, T>>, rest: seq<Saved<S,
                            T>>, now: Saved<S, T>, history: seq<Saved<S, T>>)
    requires own != [] && Recorded(Last(own), was + own, rest, now, history)
    ensures Recorded(before, was, own + rest, now, history)
  {
    assert (was + own) + rest == was + (own + rest);
  }

  lemma RecordedOnce<S, T>(before: Saved<S, T>, was: seq<Saved<S, T>>, own: seq<Saved<S, T>>)
    requires own != []
    ensures Recorded(before, was, own, Last(own), was + own)
  {
  }

  /** One unfolding of an available firing. */
  lemma FireUnfolds<S(!new), T(!new)>(w: Table<S, T>, saved: Saved<S, T>, id: T, given: Variables, acts: T -> Outcome)
    requires Valid(w) && Acyclic(w) && Available(w, saved.state, id)
    ensures id in w.transitions && w.transitions[id].id == id
    ensures w.transitions[id].source == saved.state && w.transitions[id].destination in w.sources
    ensures var f := Fire(w, saved, id, given, acts);
            var own := Stores(w.transitions[id], saved, given, acts(id));
            var next := Follow(w, acts(id), id);
            if next.None? then f == Firing([id], own, Ok(acts(id).Done?))
            else
              var rest := Fire(w, Last(own), next.value, map[], acts);
              && f.fired == [id] + rest.fired && f.stored == own + rest.stored
              && f.result == (if rest.result.Ok? then Ok(acts(id).Done?) else rest.result)
              && Rank(w, next.value) < Rank(w, id)
  {
    hide Stores, Follow;
    var next := Follow(w, acts(id), id);
    if next.Some? {
      FollowFiresNext(w, acts(id), id);
      RankShrinks(w, id, next.value);
    }
  }

  /** Each fires after the one before, and nothing after the last: after a failure the error transition,
      after a success the automatic transition of the state reached. */
  ghost predicate IsChain<S, T>(w: Table<S, T>, acts: T -> Outcome, fired: seq<T>) {
    && fired != []
    && (forall i {:trigger fired[i]} :: 0 <= i < |fired| ==>
          && fired[i] in w.transitions
          && (if acts(fired[i]).Failed? then w.transitions[fired[i]].error
              else Automatic(w, w.transitions[fired[i]].destination))
             == (if i + 1 < |fired| then Some(fired[i + 1]) else None))
  }

  /** The error transitions that fire leave the state their transition leaves. */
  ghost predicate ErrorsFit<S, T>(w: Table<S, T>, acts: T -> Outcome) {
    forall id :: id in w.transitions && acts(id).Failed? && w.transitions[id].error.Some? ==>
      Available(w, w.transitions[id].source, w.transitions[id].error.value)
  }

  /** Firing an available transition works along the chain from it to its end, and leaves nothing in flight there. */
  lemma {:induction false} FireEnds<S(!new), T(!new)>(w: Table<S, T>, saved: Saved<S, T>, id: T, given: Variables,
                                                      acts: T -> Outcome)
    requires Valid(w) && Acyclic(w) && ErrorsFit(w, acts) && Available(w, saved.state, id)
    ensures var f := Fire(w, saved, id, given, acts);
            && f.result == Ok(acts(id).Done?)
            && IsChain(w, acts, f.fired) && f.fired != [] && f.fired[0] == id
            && f.stored != []
            && Last(f.stored).inflight.None?
            && Last(f.stored).state == (if acts(Last(f.fired)).Failed? then w.transitions[Last(f.fired)].source
                                        else w.transitions[Last(f.fired)].destination)
    decreases Rank(w, id)
  {
    hide Stores, Follow, Fire, Valid, Acyclic, Rank;
    FireUnfolds(w, saved, id, given, acts);
    StoresLast(w, saved, id, given, acts(id));
    var next := Follow(w, acts(id), id);
    if next.None? {
      ChainOne(w, acts, id);
    } else {
      var last := Last(Stores(w.transitions[id], saved, given, acts(id)));
      FollowIsAvailable(w, acts, saved, id, given);
      FireEnds(w, last, next.value, map[], acts);
      ChainCons(w, acts, id, Fire(w, last, next.value, map[], acts).fired);
    }
  }

  lemma StoresLast<S(!new), T(!new)>(w: Table<S, T>, saved: Saved<S, T>, id: T, given: Variables, outcome: Outcome)
    requires Valid(w) && Available(w, saved.state, id)
    ensures var last := Last(Stores(w.transitions[id], saved, given, outcome));
            && last.state == (if outcome.Failed? then saved.state else w.transitions[id].destination)
            && (Follow(w, outcome, id).None? ==> last.inflight.None?)
  {
  }

  /** Where errors fit, what fires next is available in the record stored last. */
  lemma FollowIsAvailable<S(!new), T(!new)>(w: Table<S, T>, acts: T -> Outcome, saved: Saved<S, T>, id: T,
                                            given: Variables)
    requires Valid(w) && ErrorsFit(w, acts) && Available(w, saved.state, id) && Follow(w, acts(id), id).Some?
    ensures Available(w, Last(Stores(w.transitions[id], saved, given, acts(id))).state, Follow(w, acts(id), id).value)
  {
  }

  /** The variables of a call, updated by those an action returned. */
  ghost predicate IsUpdate(given: Variables, returned: Variables, v: Variables) {
    && (forall k :: k in v <==> k in given || k in returned)
    && (forall k :: k in v ==> v[k] == if k in returned then returned[k] else given[k])
  }

  /** The records of one call, whatever the table: first the marker, on the old state and variables. Where
      the action works, then the destination with the call's variables updated by the action's, and no
      marker; what follows is the automatic transition from there, called without variables. Where it fails,
      the error transition follows on the marked record; without one the marker is taken back. */
  lemma FireRecords<S(!new), T(!new)>(w: Table<S, T>, saved: Saved<S, T>, id: T, given: Variables, acts: T -> Outcome)
    requires Valid(w) && Acyclic(w) && Available(w, saved.state, id)
    ensures var f := Fire(w, saved, id, given, acts);
            var t := w.transitions[id];
            var n := if acts(id).Failed? && t.error.Some? then 1 else 2;
            var next := if acts(id).Failed? then t.error else Automatic(w, t.destination);
            && |f.stored| >= n && f.stored[0] == Saved(saved.state, saved.variables, Some(id))
            && (acts(id).Done? ==>
                  && f.stored[1].state == t.destination && f.stored[1].inflight.None?
                  && IsUpdate(given, acts(id).variables, f.stored[1].variables))
            && (acts(id).Failed? && t.error.None? ==> f.stored[1] == Saved(saved.state, saved.variables, None))
            && (if next.None? then |f.stored| == n
                else f.stored[n..] == Fire(w, f.stored[n - 1], next.value, map[], acts).stored)
  {
    hide Fire, Acyclic, Rank, Valid;
    FireUnfolds(w, saved, id, given, acts);
  }

  ghost predicate NoneWorked<T>(acts: T -> Outcome, fired: seq<T>) {
    forall i :: 0 <= i < |fired| ==> acts(fired[i]).Failed?
  }

  /** The i-th action is the last that worked. */
  ghost predicate LastWorked<T>(acts: T -> Outcome, fired: seq<T>, i: nat) {
    i < |fired| && acts(fired[i]).Done? && NoneWorked(acts, fired[i + 1..])
  }

  /** v are the variables after these firings: those of the last action that worked, as a whole what it
      returned, over what the call gave if it was the first. Where none worked they are as before. */
  ghost predicate EndVariables<T>(acts: T -> Outcome, fired: seq<T>, before: Variables, given: Variables,
                                   v: Variables) {
    && (NoneWorked(acts, fired) ==> v == before)
    && (forall i: nat :: LastWorked(acts, fired, i) ==>
          IsUpdate(if i == 0 then given else map[], acts(fired[i]).variables, v))
  }

  lemma WorkedBehind<T>(acts: T -> Outcome, id: T, rest: seq<T>, i: nat)
    ensures LastWorked(acts, [id] + rest, i + 1) <==> LastWorked(acts, rest, i)
    ensures NoneWorked(acts, [id] + rest) ==> acts(id).Failed? && NoneWorked(acts, rest)
    ensures LastWorked(acts, [id] + rest, 0) <==> acts(id).Done? && NoneWorked(acts, rest)
  {
    var fired := [id] + rest;
    assert fired[1..] == rest;
    if i < |rest| {
      assert fired[i + 1] == rest[i] && fired[i + 2..] == rest[i + 1..];
    }
    if NoneWorked(acts, fired) {
      assert fired[0] == id && forall j :: 0 <= j < |rest| ==> rest[j] == fired[j + 1];
    }
  }

  /** One firing more in front. */
  lemma EndVariablesCons<T>(acts: T -> Outcome, id: T, rest: seq<T>, before: Variables, given: Variables,
                            mid: Variables, v: Variables)
    requires if acts(id).Failed? then mid == before else IsUpdate(given, acts(id).variables, mid)
    requires EndVariables(acts, rest, mid, map[], v)
    ensures EndVariables(acts, [id] + rest, before, given, v)
  {
    hide IsUpdate, NoneWorked, LastWorked;
    var fired := [id] + rest;
    WorkedBehind(acts, id, rest, 0);
    forall i: nat | LastWorked(acts, fired, i)
      ensures i < |fired| && acts(fired[i]).Done?
      ensures IsUpdate(if i == 0 then given else map[], acts(fired[i]).variables, v)
    {
      WorkedIsOne(acts, fired, i);
      if i > 0 {
        WorkedBehind(acts, id, rest, i - 1);
        WorkedIsOne(acts, rest, i - 1);
      }
    }
  }

  lemma WorkedIsOne<T>(acts: T -> Outcome, fired: seq<T>, i: nat)
    requires LastWorked(acts, fired, i)
    ensures i < |fired| && acts(fired[i]).Done?
  {
  }

  /** What a call stores in the end, variable by variable. */
  lemma {:induction false} FireVariables<S(!new), T(!new)>(w: Table<S, T>, saved: Saved<S, T>, id: T, given: Variables,
                                                           acts: T -> Outcome)
    requires Valid(w) && Acyclic(w) && Available(w, saved.state, id)
    ensures var f := Fire(w, saved, id, given, acts);
            && f.stored != [] && f.fired != [] && f.fired[0] == id
            && EndVariables(acts, f.fired, saved.variables, given, Last(f.stored).variables)
    decreases Rank(w, id)
  {
    hide Fire, Valid, Acyclic, Rank, IsUpdate, EndVariables, Stores, Follow;
    FireUnfolds(w, saved, id, given, acts);
    OwnVariables(w, saved, id, given, acts(id));
    var last := Last(Stores(w.transitions[id], saved, given, acts(id)));
    var next := Follow(w, acts(id), id);
    if next.Some? && Available(w, last.state, next.value) {
      FireVariables(w, last, next.value, map[], acts);
      var rest := Fire(w, last, next.value, map[], acts);
      EndVariablesCons(acts, id, rest.fired, saved.variables, given, last.variables, Last(rest.stored).variables);
    } else {
      if next.Some? { NothingFires(w, last, next.value, acts); }
      NoMoreVariables(acts, last.variables);
      EndVariablesCons(acts, id, [], saved.variables, given, last.variables, last.variables);
      assert [id] + [] == [id];
      assert Fire(w, saved, id, given, acts).stored == Stores(w.transitions[id], saved, given, acts(id));
    }
  }

  lemma NoMoreVariables<T>(acts: T -> Outcome, v: Variables)
    ensures EndVariables(acts, [], v, map[], v)
  {
  }

  lemma NothingFires<S(!new), T(!new)>(w: Table<S, T>, saved: Saved<S, T>, id: T, acts: T -> Outcome)
    requires Valid(w) && Acyclic(w) && !Available(w, saved.state, id)
    ensures var f := Fire(w, saved, id, map[], acts); f.fired == [] && f.stored == []
  {
  }

  lemma OwnVariables<S(!new), T(!new)>(w: Table<S, T>, saved: Saved<S, T>, id: T, given: Variables, outcome: Outcome)
    requires Valid(w) && Available(w, saved.state, id)
    ensures var last := Last(Stores(w.transitions[id], saved, given, outcome));
            if outcome.Failed? then last.variables == saved.variables
            else IsUpdate(given, outcome.variables, last.variables)
  {
  }

  lemma ChainOne<S, T>(w: Table<S, T>, acts: T -> Outcome, id: T)
    requires id in w.transitions && Follow(w, acts(id), id).None?
    ensures IsChain(w, acts, [id])
  {
  }

  lemma ChainCons<S, T>(w: Table<S, T>, acts: T -> Outcome, id: T, rest: seq<T>)
    requires id in w.transitions && IsChain(w, acts, rest) && Follow(w, acts(id), id) == Some(rest[0])
    ensures IsChain(w, acts, [id] + rest)
  {
    var all := [id] + rest;
    forall i | 0 <= i < |all|
      ensures all[i] in w.transitions
      ensures Follow(w, acts(all[i]), all[i]) == if i + 1 < |all| then Some(all[i + 1]) else None
    {
      if i > 0 { assert all[i] == rest[i - 1]; }
    }
  }

  lemma ChainDescends<S(!new), T(!new)>(w: Table<S, T>, acts: T -> Outcome, fired: seq<T>, i: nat)
    requires Valid(w) && Acyclic(w) && IsChain(w, acts, fired) && i + 1 < |fired|
    ensures Rank(w, fired[i + 1]) < Rank(w, fired[i])
  {
    hide Rank, Acyclic;
    assert Follow(w, acts(fired[i]), fired[i]) == Some(fired[i + 1]);
    FollowFiresNext(w, acts(fired[i]), fired[i]);
    RankShrinks(w, fired[i], fired[i + 1]);
  }

  /** Ranks go down along a chain, so no transition fires twice in one call. */
  lemma {:induction false} FiresOnce<S(!new), T(!new)>(w: Table<S, T>, acts: T -> Outcome, fired: seq<T>, i: nat,
                                                       j: nat)
    requires Valid(w) && Acyclic(w) && IsChain(w, acts, fired) && i < j < |fired|
    ensures Rank(w, fired[j]) < Rank(w, fired[i]) && fired[i] != fired[j]
    decreases j - i
  {
    hide Rank, Acyclic, Valid, IsChain;
    ChainDescends(w, acts, fired, i);
    if i + 1 < j {
      FiresOnce(w, acts, fired, i + 1, j);
    }
  }

  /** The recorded transition is absent or leaves the recorded state. */
  ghost predicate InflightFits<S, T>(w: Table<S, T>, saved: Saved<S, T>) {
    saved.inflight.Some? ==> Available(w, saved.state, saved.inflight.value)
  }

  ghost predicate AllFit<S, T>(w: Table<S, T>, stored: seq<Saved<S, T>>) {
    forall r :: r in stored ==> r.state in w.sources && InflightFits(w, r)
  }

  lemma StoresFit<S(!new), T(!new)>(w: Table<S, T>, saved: Saved<S, T>, id: T, given: Variables, outcome: Outcome)
    requires Valid(w) && Available(w, saved.state, id)
    ensures AllFit(w, Stores(w.transitions[id], saved, given, outcome))
  {
  }

  lemma AllFitJoins<S, T>(w: Table<S, T>, a: seq<Saved<S, T>>, b: seq<Saved<S, T>>)
    requires AllFit(w, a) && AllFit(w, b)
    ensures AllFit(w, a + b)
  {
  }

  /** Every record that fire_transition stores has a fitting transition in flight, whatever fails. */
  lemma {:induction false} FireStoresFitting<S(!new), T(!new)>(w: Table<S, T>, saved: Saved<S, T>, id: T,
                                                               given: Variables, acts: T -> Outcome)
    requires Valid(w) && Acyclic(w)
    ensures AllFit(w, Fire(w, saved, id, given, acts).stored)
    decreases Rank(w, id)
  {
    if Available(w, saved.state, id) {
      hide Fire, Acyclic, Rank, Stores, Follow, AllFit;
      FireUnfolds(w, saved, id, given, acts);
      StoresFit(w, saved, id, given, acts(id));
      var own := Stores(w.transitions[id], saved, given, acts(id));
      var next := Follow(w, acts(id), id);
      if next.Some? {
        FireStoresFitting(w, Last(own), next.value, map[], acts);
        AllFitJoins(w, own, Fire(w, Last(own), next.value, map[], acts).stored);
      }
    } else {
      assert Fire(w, saved, id, given, acts).stored == [];
    }
  }

  // -------------------------------------------- choosing the transition to fire

  function WithAlias<S, T>(w: Table<S, T>, ids: seq<T>, alias: string): seq<T>
    requires forall id :: id in ids ==> id in w.transitions
  {
    if ids == [] then []
    else
      var id := ids[|ids| - 1];
      WithAlias(w, ids[..|ids| - 1], alias) + if w.transitions[id].alias == Some(alias) then [id] else []
  }

  /** The one transition of that alias, as fire_transition_alias demands. */
  function TheAlias<S, T>(w: Table<S, T>, s: S, alias: string): Option<T>
    requires s in w.sources && forall id :: id in w.sources[s] ==> id in w.transitions
  {
    var found := WithAlias(w, w.sources[s], alias);
    if |found| == 1 then Some(found[0]) else None
  }

  lemma {:induction false} WithAliasIn<S, T>(w: Table<S, T>, ids: seq<T>, alias: string, id: T)
    requires forall k :: k in ids ==> k in w.transitions
    ensures id in WithAlias(w, ids, alias) <==> id in ids && w.transitions[id].alias == Some(alias)
  {
    if ids != [] {
      WithAliasIn(w, ids[..|ids| - 1], alias, id);
      assert id in ids <==> id in ids[..|ids| - 1] || id == ids[|ids| - 1];
    }
  }

  ghost predicate NoRepeats<A>(s: seq<A>) {
    forall i, j :: 0 <= i < j < |s| ==> s[i] != s[j]
  }

  lemma {:induction false} WithAliasNoRepeats<S, T>(w: Table<S, T>, ids: seq<T>, alias: string)
    requires (forall k :: k in ids ==> k in w.transitions) && NoRepeats(ids)
    ensures NoRepeats(WithAlias(w, ids, alias))
  {
    if ids != [] {
      var n := |ids| - 1;
      WithAliasNoRepeats(w, ids[..n], alias);
      WithAliasIn(w, ids[..n], alias, ids[n]);
      assert ids[n] !in ids[..n];
    }
  }

  lemma {:induction false} IdsFromNoRepeats<S, T>(ts: seq<Transition<S, T>>, s: S)
    requires forall i, j :: 0 <= i < j < |ts| ==> ts[i].id != ts[j].id
    ensures NoRepeats(IdsFrom(ts, s))
  {
    if ts != [] {
      var n := |ts| - 1;
      IdsFromNoRepeats(ts[..n], s);
      IdsFromMeans(ts[..n], s, ts[n].id);
      assert forall t :: t in ts[..n] ==> t.id != ts[n].id;
    }
  }

  /** id is the one available transition of the alias. */
  ghost predicate IsTheOne<S, T(!new)>(w: Table<S, T>, s: S, alias: string, id: T)
    requires forall k :: Available(w, s, k) ==> k in w.transitions
  {
    Available(w, s, id)
    && forall k :: Available(w, s, k) ==> (w.transitions[k].alias == Some(alias) <==> k == id)
  }

  lemma TheAliasIs<S(!new), T(!new)>(w: Table<S, T>, s: S, alias: string, id: T)
    requires Valid(w) && s in w.sources && NoRepeats(w.sources[s])
    ensures TheAlias(w, s, alias) == Some(id) <==> IsTheOne(w, s, alias, id)
  {
    hide WithAlias;
    var ids := w.sources[s];
    var found := WithAlias(w, ids, alias);
    WithAliasNoRepeats(w, ids, alias);
    forall k
      ensures k in found <==> k in ids && w.transitions[k].alias == Some(alias)
    {
      WithAliasIn(w, ids, alias, k);
    }
    if |found| > 1 {
      assert found[0] in found && found[1] in found;
    } else if |found| == 1 {
      assert found[0] in found;
      assert forall k :: k in found ==> k == found[0];
    }
  }

  /** With distinct ids, an alias can be fired from s exactly when one transition there has it. */
  lemma TheAliasIff<S(!new), T(!new)>(ts: seq<Transition<S, T>>, s: S, alias: string, id: T)
    requires forall i, j :: 0 <= i < j < |ts| ==> ts[i].id != ts[j].id
    requires s in Build(ts).sources && Valid(Build(ts))
    ensures TheAlias(Build(ts), s, alias) == Some(id) <==> IsTheOne(Build(ts), s, alias, id)
  {
    hide Build, IdsFrom, TheAlias, IsTheOne;
    BuildLists(ts, s);
    IdsFromNoRepeats(ts, s);
    TheAliasIs(Build(ts), s, alias, id);
  }

  function FirstTo<S(==), T>(w: Table<S, T>, ids: seq<T>, target: S): (r: Option<T>)
    requires forall id :: id in ids ==> id in w.transitions
    ensures r.Some? ==> r.value in ids && w.transitions[r.value].destination == target
    ensures r.Some? ==> exists i :: 0 <= i < |ids| && ids[i] == r.value
                                    && forall j :: 0 <= j < i ==> w.transitions[ids[j]].destination != target
    ensures r.None? ==> forall id :: id in ids ==> w.transitions[id].destination != target
  {
    if ids == [] then None
    else if w.transitions[ids[0]].destination == target then Some(ids[0])
    else FirstTo(w, ids[1..], target)
  }

  /** fire_transition_alias */
  ghost function FireAlias<S(!new), T(!new)>(w: Table<S, T>, saved: Saved<S, T>, alias: string,
                                             acts: T -> Outcome): Firing<S, T>
    requires Valid(w) && Acyclic(w)
  {
    if saved.state !in w.sources then Firing([], [], Err(InvalidState))
    else
      match TheAlias(w, saved.state, alias)
      case None => Firing([], [], Err(InvalidTransition))
      case Some(id) => Fire(w, saved, id, map[], acts)
  }

  /** transition_state */
  ghost function FireTo<S(!new), T(!new)>(w: Table<S, T>, saved: Saved<S, T>, target: S,
                                          acts: T -> Outcome): Firing<S, T>
    requires Valid(w) && Acyclic(w)
  {
    if target !in w.sources || saved.state !in w.sources then Firing([], [], Err(InvalidState))
    else
      match FirstTo(w, w.sources[saved.state], target)
      case None => Firing([], [], Ok(false))
      case Some(id) => Fire(w, saved, id, map[], acts)
  }

  /** synchronize */
  ghost function Resume<S(!new), T(!new)>(w: Table<S, T>, saved: Saved<S, T>, acts: T -> Outcome): Firing<S, T>
    requires Valid(w) && Acyclic(w)
  {
    if saved.inflight.Some? then Fire(w, saved, saved.inflight.value, map[], acts)
    else if saved.state !in w.sources then Firing([], [], Err(InvalidState))
    else
      match Automatic(w, saved.state)
      case None => Firing([], [], Ok(true))
      case Some(id) => Fire(w, saved, id, map[], acts)
  }

  /** transition_state answers whether an edge to the target exists and its action worked. The target is
      then where the workflow is, unless an automatic transition has already left it. */
  lemma FireToAnswers<S(!new), T(!new)>(w: Table<S, T>, saved: Saved<S, T>, target: S, acts: T -> Outcome)
    requires Valid(w) && Acyclic(w) && ErrorsFit(w, acts) && target in w.sources && saved.state in w.sources
    ensures var f := FireTo(w, saved, target, acts);
            var edge := FirstTo(w, w.sources[saved.state], target);
            && (f.result == Ok(true) <==> edge.Some? && acts(edge.value).Done?)
            && (f.result == Ok(true) ==> f.stored != [])
            && (f.result == Ok(true) && Automatic(w, target).None? ==> Last(f.stored).state == target)
            && (edge.None? ==> f.stored == [] && f.result == Ok(false))
            && (edge.Some? ==> f.fired != [] && f.fired[0] == edge.value)
  {
    var edge := FirstTo(w, w.sources[saved.state], target);
    if edge.Some? {
      FireEnds(w, saved, edge.value, map[], acts);
    }
  }

  /** In a table that lists no id twice, fire_transition_alias fires the one available transition of the
      alias, and raises without storing anything when there are none or several. */
  lemma FireAliasFires<S(!new), T(!new)>(w: Table<S, T>, saved: Saved<S, T>, alias: string, acts: T -> Outcome, id: T)
    requires Valid(w) && Acyclic(w) && ErrorsFit(w, acts) && saved.state in w.sources
    requires NoRepeats(w.sources[saved.state])
    ensures var f := FireAlias(w, saved, alias, acts);
            && (f.fired != [] && f.fired[0] == id <==> IsTheOne(w, saved.state, alias, id))
            && (f.fired == [] ==> f.stored == [] && f.result == Err(InvalidTransition))
            && (f.fired != [] ==> f.result == Ok(acts(f.fired[0]).Done?))
  {
    hide Fire, Acyclic, TheAlias, IsTheOne, IsChain, ErrorsFit;
    TheAliasIs(w, saved.state, alias, id);
    var the := TheAlias(w, saved.state, alias);
    if the.Some? {
      TheAliasIs(w, saved.state, alias, the.value);
      assert IsTheOne(w, saved.state, alias, the.value);
      TheOneIsAvailable(w, saved.state, alias, the.value);
      FireEnds(w, saved, the.value, map[], acts);
    }
  }

  lemma TheOneIsAvailable<S(!new), T(!new)>(w: Table<S, T>, s: S, alias: string, id: T)
    requires Valid(w) && IsTheOne(w, s, alias, id)
    ensures Available(w, s, id)
  {
  }

  /** Whenever transition_state answers true, the workflow is in the state asked for. */
  ghost predicate TrueMeansThere<S(!new), T(!new)>(w: Table<S, T>, saved: Saved<S, T>, target: S)
    requires Valid(w) && Acyclic(w)
  {
    forall acts: T -> Outcome ::
      ErrorsFit(w, acts) && FireTo(w, saved, target, acts).result == Ok(true) ==>
        FireTo(w, saved, target, acts).stored != [] && Last(FireTo(w, saved, target, acts).stored).state == target
  }

  /** Its true answer means what it is documented to mean exactly when no edge leads to the target, so
      that it never answers true, or no automatic transition leaves it. */
  lemma TrueMeansThereIff<S(!new), T(!new)>(w: Table<S, T>, saved: Saved<S, T>, target: S)
    requires Valid(w) && Acyclic(w) && target in w.sources && saved.state in w.sources
    ensures TrueMeansThere(w, saved, target)
            <==> FirstTo(w, w.sources[saved.state], target).None? || Automatic(w, target).None?
  {
    hide Fire, FireTo, Acyclic;
    var edge := FirstTo(w, w.sources[saved.state], target);
    if edge.None? || Automatic(w, target).None? {
      forall acts: T -> Outcome | ErrorsFit(w, acts) && FireTo(w, saved, target, acts).result == Ok(true)
        ensures FireTo(w, saved, target, acts).stored != []
             && Last(FireTo(w, saved, target, acts).stored).state == target
      {
        FireToAnswers(w, saved, target, acts);
      }
    } else {
      var acts: T -> Outcome := _ => Done(map[]);
      FireToAnswers(w, saved, target, acts);
      NotThere(w, saved, target, edge.value);
    }
  }

  /** If all actions work, an automatic transition out of the target is taken. */
  lemma NotThere<S(!new), T(!new)>(w: Table<S, T>, saved: Saved<S, T>, target: S, edge: T)
    requires Valid(w) && Acyclic(w) && target in w.sources && saved.state in w.sources
    requires FirstTo(w, w.sources[saved.state], target) == Some(edge) && Automatic(w, target).Some?
    ensures var f := FireTo(w, saved, target, _ => Done(map[])); f.stored != [] && Last(f.stored).state != target
  {
    hide Fire, Acyclic, FirstTo;
    var acts: T -> Outcome := _ => Done(map[]);
    FireEnds(w, saved, edge, map[], acts);
    ChainEndsQuiet(w, acts, Fire(w, saved, edge, map[], acts).fired);
  }

  /** Where nothing fails, a chain ends in a state that no automatic transition leaves. */
  lemma ChainEndsQuiet<S, T>(w: Table<S, T>, acts: T -> Outcome, fired: seq<T>)
    requires IsChain(w, acts, fired) && acts(Last(fired)).Done?
    ensures Last(fired) in w.transitions && Automatic(w, w.transitions[Last(fired)].destination).None?
  {
    assert fired[|fired| - 1] in w.transitions;
  }

  /** A workflow found at any record with a fitting transition in flight can be resumed: nothing is
      raised, and nothing stays in flight. */
  lemma ResumeWorks<S(!new), T(!new)>(w: Table<S, T>, saved: Saved<S, T>, acts: T -> Outcome)
    requires Valid(w) && Acyclic(w) && ErrorsFit(w, acts)
    requires saved.state in w.sources && InflightFits(w, saved)
    ensures var f := Resume(w, saved, acts);
            && f.result.Ok? && (if f.stored == [] then saved.inflight.None? else Last(f.stored).inflight.None?)
            && (if saved.inflight.Some? then f.fired != [] && f.fired[0] == saved.inflight.value
                else if Automatic(w, saved.state).Some? then
                  f.fired != [] && f.fired[0] == Automatic(w, saved.state).value
                else f.fired == [] && f.stored == [])
  {
    if saved.inflight.Some? {
      FireEnds(w, saved, saved.inflight.value, map[], acts);
    } else if Automatic(w, saved.state).Some? {
      FireEnds(w, saved, Automatic(w, saved.state).value, map[], acts);
    }
  }

  // ------------------------------------------------------- the objects in place

  class Workflow<S(==), T(==)> {
    var table: Table<S, T>

    constructor (ts: seq<Transition<S, T>>)
      ensures table == Build(ts)
    {
      table := Table(map[], map[]);
      new;
      Initialize(ts);
    }

    /** initialize */
    method Initialize(ts: seq<Transition<S, T>>)
      modifies this
      ensures table == Build(ts)
    {
      var sources: map<S, seq<T>> := map[];
      var transitions: map<T, Transition<S, T>> := map[];
      assert ts[..0] == [];
      for i := 0 to |ts|
        invariant Table(sources, transitions) == Build(ts[..i])
      {
        var t := ts[i];
        assert ts[..i + 1][..i] == ts[..i];
        if t.source !in sources { sources := sources[t.source := []]; }
        sources := sources[t.source := sources[t.source] + [t.id]];
        if t.destination !in sources { sources := sources[t.destination := []]; }
        transitions := transitions[t.id := t];
      }
      assert ts[..|ts|] == ts;
      table := Table(sources, transitions);
    }
  }

  /** A WorkflowState with its stored record and the history of all records stored. */
  class WorkflowState<S(==, !new), T(==, !new)> {
    const table: Table<S, T>
    var saved: Saved<S, T>
    var history: seq<Saved<S, T>>

    constructor (table: Table<S, T>, saved: Saved<S, T>)
      ensures this.table == table && this.saved == saved && history == []
    {
      this.table := table;
      this.saved := saved;
      history := [];
    }

    /** The object did what the firing says: these records were stored in this order. */
    ghost predicate Did(before: Saved<S, T>, was: seq<Saved<S, T>>, f: Firing<S, T>, r: Result<bool, Error>)
      reads this
    {
      r == f.result && Recorded(before, was, f.stored, saved, history)
    }

    method Store(record: Saved<S, T>)
      modifies this
      ensures saved == record && history == old(history) + [record]
    {
      saved := record;
      history := history + [record];
    }

    method SetState(state: S, variables: Variables)
      modifies this
      ensures saved == Saved(state, variables, None) && history == old(history) + [saved]
    {
      Store(Saved(state, variables, None));
    }

    method SetInflight(id: Option<T>)
      modifies this
      ensures saved == old(saved).(inflight := id) && history == old(history) + [saved]
    {
      Store(saved.(inflight := id));
    }

    method FireTransition(id: T, given: Variables, acts: T -> Outcome) returns (r: Result<bool, Error>)
      requires Valid(table) && Acyclic(table)
      modifies this
      ensures Did(old(saved), old(history), Fire(table, old(saved), id, given, acts), r)
      decreases Rank(table, id)
    {
      if saved.state !in table.sources { return Err(InvalidState); }
      if id !in table.sources[saved.state] { return Err(InvalidTransition); }
      hide Fire, Acyclic, Rank, Valid, Recorded, Stores, Follow;
      FireUnfolds(table, saved, id, given, acts);
      ghost var before, was, own := saved, history, Stores(table.transitions[id], saved, given, acts(id));
      var next := RunTransition(id, given, acts(id));
      if next.None? {
        RecordedOnce(before, was, own);
      } else {
        var nested := FireTransition(next.value, map[], acts);
        RecordedJoins(before, was, own, Fire(table, Last(own), next.value, map[], acts).stored, saved, history);
        if nested.Err? { return nested; }
      }
      r := Ok(acts(id).Done?);
    }

    /** The part of fire_transition around the action, up to the transition that fires next: the error
        transition or the first automatic one. */
    method RunTransition(id: T, given: Variables, outcome: Outcome) returns (next: Option<T>)
      requires Valid(table) && Available(table, saved.state, id)
      modifies this
      ensures next == Follow(table, outcome, id)
      ensures var own := Stores(table.transitions[id], old(saved), given, outcome);
              saved == Last(own) && history == old(history) + own
    {
      SetInflight(Some(id));
      var t := table.transitions[id];
      match outcome {
        case Failed =>
          next := t.error;
          if next.None? { SetInflight(None); }
        case Done(returned) =>
          SetState(t.destination, given + returned);
          next := FindAutomatic();
      }
    }

    /** The search of _fire_automatic_transitions. */
    method FindAutomatic() returns (r: Option<T>)
      requires Valid(table) && saved.state in table.sources
      ensures r == Automatic(table, saved.state)
    {
      var ids := table.sources[saved.state];
      for i := 0 to |ids|
        invariant FirstAutomatic(table, ids) == FirstAutomatic(table, ids[i..])
      {
        assert ids[i..][1..] == ids[i + 1..];
        if table.transitions[ids[i]].automatic { return Some(ids[i]); }
      }
      r := None;
    }

    /** The search of fire_transition_alias. */
    method FindAlias(alias: string) returns (found: seq<T>)
      requires Valid(table) && saved.state in table.sources
      ensures found == WithAlias(table, table.sources[saved.state], alias)
    {
      var ids := table.sources[saved.state];
      found := [];
      for i := 0 to |ids|
        invariant found == WithAlias(table, ids[..i], alias)
      {
        assert ids[..i + 1][..i] == ids[..i];
        if table.transitions[ids[i]].alias == Some(alias) { found := found + [ids[i]]; }
      }
      assert ids[..|ids|] == ids;
    }

    method FireTransitionAlias(alias: string, acts: T -> Outcome) returns (r: Result<bool, Error>)
      requires Valid(table) && Acyclic(table)
      modifies this
      ensures Did(old(saved), old(history), FireAlias(table, old(saved), alias, acts), r)
    {
      if saved.state !in table.sources { return Err(InvalidState); }
      var found := FindAlias(alias);
      if |found| != 1 { return Err(InvalidTransition); }
      r := FireTransition(found[0], map[], acts);
    }

    method TransitionState(target: S, acts: T -> Outcome) returns (r: Result<bool, Error>)
      requires Valid(table) && Acyclic(table)
      modifies this
      ensures Did(old(saved), old(history), FireTo(table, old(saved), target, acts), r)
    {
      if target !in table.sources || saved.state !in table.sources { return Err(InvalidState); }
      var ids := table.sources[saved.state];
      var i := 0;
      while i < |ids| && table.transitions[ids[i]].destination != target
        invariant i <= |ids|
        invariant FirstTo(table, ids, target) == FirstTo(table, ids[i..], target)
      {
        assert ids[i..][1..] == ids[i + 1..];
        i := i + 1;
      }
      if i == |ids| { return Ok(false); }
      r := FireTransition(ids[i], map[], acts);
    }

    method Synchronize(acts: T -> Outcome) returns (r: Result<bool, Error>)
      requires Valid(table) && Acyclic(table)
      modifies this
      ensures Did(old(saved), old(history), Resume(table, old(saved), acts), r)
    {
      if saved.inflight.Some? {
        r := FireTransition(saved.inflight.value, map[], acts);
      } else {
        if saved.state !in table.sources { return Err(InvalidState); }
        var auto := FindAutomatic();
        if auto.None? { return Ok(true); }
        r := FireTransition(auto.value, map[], acts);
      }
    }
  }
}
