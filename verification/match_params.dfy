/** match_params of juju/lib/mocker.py: the arguments of a call against a recorded pattern in which
    ARGS stands for any run of positional arguments and KWARGS for any further keywords. */
module MatchParams {
  /** One element of a recorded call: Special is a matcher of one value, Plain a value compared by ==. */
  datatype Pattern<!V> = ARGS | KWARGS | Special(matches: V -> bool) | Plain(value: V)

  predicate MatchOne<V(==)>(p: Pattern<V>, a: V) {
    match p
    case ARGS => true
    case KWARGS => true
    case Special(f) => f(a)
    case Plain(v) => v == a
  }

  // ------------------------------------------------------------ what a match is

  /** The arguments can be cut so that each ARGS takes a possibly empty run and every other
      element takes one argument, which it matches. */
  ghost predicate Matches<V>(p: seq<Pattern<V>>, a: seq<V>)
    decreases |p|
  {
    if p == [] then a == []
    else if p[0].ARGS? then exists k :: 0 <= k <= |a| && Matches(p[1..], a[k..])
    else a != [] && MatchOne(p[0], a[0]) && Matches(p[1..], a[1..])
  }

  lemma CutBehind<V>(a: seq<V>, i: nat, m: nat)
    requires i + m <= |a|
    ensures a[..i + m][i..] == a[i..][..m] && a[i + m..] == a[i..][m..]
  {
  }

  lemma Behind<A>(p: seq<A>, q: seq<A>)
    ensures p == [] ==> p + q == q
    ensures p != [] ==> (p + q)[0] == p[0] && (p + q)[1..] == p[1..] + q
  {
  }

  lemma ArgsTake<V>(p: seq<Pattern<V>>, a: seq<V>) returns (i: nat)
    requires p != [] && p[0].ARGS? && Matches(p, a)
    ensures i <= |a| && Matches(p[1..], a[i..])
  {
    i :| 0 <= i <= |a| && Matches(p[1..], a[i..]);
  }

  lemma ArgsTook<V>(p: seq<Pattern<V>>, a: seq<V>, i: nat)
    requires p != [] && p[0].ARGS? && i <= |a| && Matches(p[1..], a[i..])
    ensures Matches(p, a)
  {
  }

  lemma OneTakes<V>(p: seq<Pattern<V>>, a: seq<V>)
    requires p != [] && !p[0].ARGS?
    ensures Matches(p, a) <==> a != [] && MatchOne(p[0], a[0]) && Matches(p[1..], a[1..])
  {
  }

  lemma NothingMatches<V>(a: seq<V>)
    ensures Matches([], a) <==> a == []
  {
  }

  lemma {:induction false} MatchesCut<V>(p: seq<Pattern<V>>, q: seq<Pattern<V>>, a: seq<V>) returns (k: nat)
    requires Matches(p + q, a)
    ensures k <= |a| && Matches(p, a[..k]) && Matches(q, a[k..])
    decreases |p|
  {
    hide Matches;
    Behind(p, q);
    if p == [] {
      assert a[0..] == a;
      NothingMatches(a[..0]);
      return 0;
    }
    if p[0].ARGS? {
      var i := ArgsTake(p + q, a);
      var m := MatchesCut(p[1..], q, a[i..]);
      k := i + m;
      CutBehind(a, i, m);
      ArgsTook(p, a[..k], i);
    } else {
      OneTakes(p + q, a);
      var m := MatchesCut(p[1..], q, a[1..]);
      k := 1 + m;
      CutBehind(a, 1, m);
      OneTakes(p, a[..k]);
    }
  }

  lemma {:induction false} MatchesJoin<V>(p: seq<Pattern<V>>, q: seq<Pattern<V>>, a: seq<V>, b: seq<V>)
    requires Matches(p, a) && Matches(q, b)
    ensures Matches(p + q, a + b)
    decreases |p|
  {
    if p == [] {
      assert p + q == q && a + b == b;
    } else {
      assert (p + q)[1..] == p[1..] + q;
      if p[0].ARGS? {
        var i :| 0 <= i <= |a| && Matches(p[1..], a[i..]);
        MatchesJoin(p[1..], q, a[i..], b);
        assert (a + b)[i..] == a[i..] + b;
      } else {
        MatchesJoin(p[1..], q, a[1..], b);
        assert (a + b)[1..] == a[1..] + b;
      }
    }
  }

  /** A pattern in two parts cuts the arguments in two. */
  lemma MatchesSplit<V>(p: seq<Pattern<V>>, q: seq<Pattern<V>>, a: seq<V>)
    ensures Matches(p + q, a) <==> exists k :: 0 <= k <= |a| && Matches(p, a[..k]) && Matches(q, a[k..])
  {
    hide Matches;
    if Matches(p + q, a) {
      var k := MatchesCut(p, q, a);
    }
    if k :| 0 <= k <= |a| && Matches(p, a[..k]) && Matches(q, a[k..]) {
      MatchesJoin(p, q, a[..k], a[k..]);
      assert a[..k] + a[k..] == a;
    }
  }

  /** A trailing ARGS takes any tail. */
  lemma EndsInArgs<V>(p: seq<Pattern<V>>, a: seq<V>)
    ensures Matches(p + [ARGS], a) <==> exists k :: 0 <= k <= |a| && Matches(p, a[..k])
  {
    var tail: seq<Pattern<V>> := [ARGS];
    MatchesSplit(p, tail, a);
    forall b: seq<V>
      ensures Matches(tail, b)
    {
      assert Matches(tail[1..], b[|b|..]);
    }
  }

  /** A trailing single element takes the last argument. */
  lemma EndsInOne<V>(p: seq<Pattern<V>>, x: Pattern<V>, a: seq<V>)
    requires !x.ARGS?
    ensures Matches(p + [x], a) <==> a != [] && MatchOne(x, a[|a| - 1]) && Matches(p, a[..|a| - 1])
  {
    hide Matches;
    MatchesSplit(p, [x], a);
    forall b: seq<V>
      ensures Matches([x], b) <==> |b| == 1 && MatchOne(x, b[0])
    {
      SingleMatches(x, b);
    }
    if a != [] && MatchOne(x, a[|a| - 1]) && Matches(p, a[..|a| - 1]) {
      assert Matches([x], a[|a| - 1..]);
    }
  }

  lemma SingleMatches<V>(x: Pattern<V>, b: seq<V>)
    requires !x.ARGS?
    ensures Matches([x], b) <==> |b| == 1 && MatchOne(x, b[0])
  {
    assert [x][1..] == [];
  }

  predicate OnlyArgs<V>(p: seq<Pattern<V>>) {
    forall i :: 0 <= i < |p| ==> p[i].ARGS?
  }

  /** No arguments match exactly the patterns of nothing but ARGS. */
  lemma {:induction false} MatchesNothing<V>(p: seq<Pattern<V>>)
    ensures Matches(p, []) <==> OnlyArgs(p)
    decreases |p|
  {
    if p != [] {
      MatchesNothing(p[1..]);
      var none: seq<V> := [];
      assert none[0..] == none;
      if p[0].ARGS? {
        assert Matches(p, none) <==> Matches(p[1..], none[0..]);
      }
      assert OnlyArgs(p) <==> p[0].ARGS? && OnlyArgs(p[1..]) by {
        if OnlyArgs(p[1..]) {
          forall i | 1 <= i < |p| ensures p[i] == p[1..][i - 1] {}
        }
      }
    }
  }

  /** Nothing but ARGS, at least one of them, matches everything. */
  lemma {:induction false} OnlyArgsMatchAll<V>(p: seq<Pattern<V>>, a: seq<V>)
    requires p != [] && OnlyArgs(p)
    ensures Matches(p, a)
  {
    MatchesNothing(p[1..]);
    assert a[|a|..] == [];
    assert Matches(p[1..], a[|a|..]);
  }

  // ------------------------------------------------------------- with KWARGS

  /** A match of the pattern as it was recorded: KWARGS takes no positional argument, ARGS any run, and every
      other element the one argument in its place. */
  ghost predicate MatchesCall<V>(p: seq<Pattern<V>>, a: seq<V>)
    decreases |p|
  {
    if p == [] then a == []
    else match p[0]
      case KWARGS => MatchesCall(p[1..], a)
      case ARGS => exists k :: 0 <= k <= |a| && MatchesCall(p[1..], a[k..])
      case Special(f) => a != [] && f(a[0]) && MatchesCall(p[1..], a[1..])
      case Plain(v) => a != [] && v == a[0] && MatchesCall(p[1..], a[1..])
  }

  /** Dropping KWARGS changes nothing else: order and number of the other elements stay. */
  lemma {:induction false} WithoutKwargsMatches<V>(p: seq<Pattern<V>>, a: seq<V>)
    ensures MatchesCall(p, a) <==> Matches(WithoutKwargs(p), a)
    decreases |p|
  {
    if p != [] {
      var q := WithoutKwargs(p[1..]);
      if p[0].KWARGS? {
        WithoutKwargsMatches(p[1..], a);
      } else {
        assert WithoutKwargs(p)[1..] == q;
        if p[0].ARGS? {
          forall k | 0 <= k <= |a|
            ensures MatchesCall(p[1..], a[k..]) <==> Matches(q, a[k..])
          {
            WithoutKwargsMatches(p[1..], a[k..]);
          }
        } else if a != [] {
          WithoutKwargsMatches(p[1..], a[1..]);
        }
      }
    }
  }

  lemma {:induction false} WithoutKwargsConcat<V>(p: seq<Pattern<V>>, q: seq<Pattern<V>>)
    ensures WithoutKwargs(p + q) == WithoutKwargs(p) + WithoutKwargs(q)
  {
    if p == [] {
      assert p + q == q;
    } else {
      assert (p + q)[1..] == p[1..] + q;
      WithoutKwargsConcat(p[1..], q);
    }
  }

  /** Without KWARGS the pattern is taken as it is. */
  lemma {:induction false} NothingToDrop<V>(p: seq<Pattern<V>>)
    requires !HasKwargs(p)
    ensures WithoutKwargs(p) == p
  {
    if p != [] {
      assert forall i :: 0 <= i < |p[1..]| ==> p[1..][i] == p[i + 1];
      NothingToDrop(p[1..]);
    }
  }

  // ------------------------------------------------------- the rolling array

  predicate HasArgs<V>(p: seq<Pattern<V>>) {
    exists i :: 0 <= i < |p| && p[i].ARGS?
  }

  predicate StartsWithTwoArgs<V>(p: seq<Pattern<V>>) {
    |p| >= 2 && p[0].ARGS? && p[1].ARGS?
  }

  /** The array algorithm drops one leading ARGS; behind a second one it never sees the first argument. */
  function Unseen<V>(p: seq<Pattern<V>>): nat {
    if StartsWithTwoArgs(p) then 1 else 0
  }

  function Lead<V>(p: seq<Pattern<V>>): nat {
    if p != [] && p[0].ARGS? then 1 else 0
  }

  /** What a zero at position j means once the first m elements are done. */
  ghost predicate Cell<V>(p: seq<Pattern<V>>, m: nat, a: seq<V>, j: nat)
    requires m <= |p| && j < |a|
  {
    Matches(p[..m], a[Unseen(p)..j + 1])
  }

  ghost predicate Row<V>(p: seq<Pattern<V>>, m: nat, a: seq<V>, row: seq<nat>)
    requires m <= |p|
  {
    |row| == |a| && forall j :: 0 <= j < |a| ==> (row[j] == 0 <==> Cell(p, m, a, j))
  }

  /** Before the first element the array stands for the empty pattern, or for the dropped ARGS. */
  lemma FirstRow<V>(p: seq<Pattern<V>>, a: seq<V>, row: seq<nat>)
    requires p != [] && |row| == |a|
    requires forall j :: 0 <= j < |a| ==> row[j] == if p[0].ARGS? then 0 else 1
    ensures Row(p, Lead(p), a, row)
  {
    forall j | 0 <= j < |a|
      ensures row[j] == 0 <==> Cell(p, Lead(p), a, j)
    {
      if p[0].ARGS? {
        OnlyArgsMatchAll(p[..1], a[Unseen(p)..j + 1]);
      } else {
        assert a[Unseen(p)..j + 1] != [];
      }
    }
  }

  /** Some prefix of the visible arguments up to j matches q. */
  ghost predicate UpTo<V>(q: seq<Pattern<V>>, a: seq<V>, s: nat, j: int) {
    exists k :: s <= k <= j + 1 && k <= |a| && Matches(q, a[s..k])
  }

  lemma ArgsIsUpTo<V>(p: seq<Pattern<V>>, m: nat, a: seq<V>, j: nat)
    requires m < |p| && p[m].ARGS? && j < |a|
    ensures Cell(p, m + 1, a, j) <==> UpTo(p[..m], a, Unseen(p), j)
  {
    var s, q := Unseen(p), p[..m];
    assert p[..m + 1] == q + [ARGS];
    EndsInArgs(q, a[s..j + 1]);
    if UpTo(q, a, s, j) {
      var k :| s <= k <= j + 1 && k <= |a| && Matches(q, a[s..k]);
      assert a[s..j + 1][..k - s] == a[s..k];
    }
    if Cell(p, m + 1, a, j) {
      var k :| 0 <= k <= |a[s..j + 1]| && Matches(q, a[s..j + 1][..k]);
      assert a[s..j + 1][..k] == a[s..s + k];
    }
  }

  /** What the inner loop does for an ARGS element: each zero spreads to the right. */
  ghost predicate Spread(row: seq<nat>, next: seq<nat>) {
    && |row| == |next| > 0 && next[0] == row[0]
    && forall j :: 1 <= j < |next| ==> (next[j] == 0 <==> next[j - 1] == 0 || row[j] == 0 || row[j - 1] == 0)
  }

  /** What it does for the i-th other element: each zero moves one to the right, where the argument matches. */
  ghost predicate Moved<V>(row: seq<nat>, next: seq<nat>, i: nat, x: Pattern<V>, a: seq<V>) {
    && |row| == |next| == |a| > 0
    && (next[0] == 0 <==> i == 0 && MatchOne(x, a[0]))
    && forall j :: 1 <= j < |next| ==> (next[j] == 0 <==> row[j - 1] == 0 && MatchOne(x, a[j]))
  }

  lemma RowAfterArgs<V>(p: seq<Pattern<V>>, m: nat, a: seq<V>, row: seq<nat>, next: seq<nat>)
    requires 1 <= m < |p| && p[m].ARGS? && a != []
    requires Row(p, m, a, row) && Spread(row, next)
    ensures Row(p, m + 1, a, next)
  {
    var j := 0;
    var s, q := Unseen(p), p[..m];
    ArgsIsUpTo(p, m, a, 0);
    if UpTo(q, a, s, 0) && !Cell(p, m, a, 0) {
      NothingThenAll(q, a);
    }
    while j + 1 < |a|
      invariant 0 <= j < |a|
      invariant forall i :: 0 <= i <= j ==> (next[i] == 0 <==> Cell(p, m + 1, a, i))
    {
      ArgsIsUpTo(p, m, a, j);
      ArgsIsUpTo(p, m, a, j + 1);
      assert row[j] == 0 ==> Matches(q, a[s..j + 1]);
      assert UpTo(q, a, s, j + 1) <==> UpTo(q, a, s, j) || Matches(q, a[s..j + 2]);
      assert row[j + 1] == 0 <==> Cell(p, m, a, j + 1);
      j := j + 1;
    }
  }

  /** A pattern that matches no arguments matches the first one too. */
  lemma NothingThenAll<V>(q: seq<Pattern<V>>, a: seq<V>)
    requires q != []
    ensures Matches(q, []) ==> forall b: seq<V> :: Matches(q, b)
  {
    MatchesNothing(q);
    if OnlyArgs(q) {
      forall b: seq<V> ensures Matches(q, b) { OnlyArgsMatchAll(q, b); }
    }
  }

  lemma RowAfterOne<V>(p: seq<Pattern<V>>, m: nat, a: seq<V>, row: seq<nat>, next: seq<nat>)
    requires Lead(p) <= m < |p| && !p[m].ARGS? && a != []
    requires Row(p, m, a, row) && Moved(row, next, m - Lead(p), p[m], a)
    ensures Row(p, m + 1, a, next)
  {
    var s, q := Unseen(p), p[..m];
    assert p[..m + 1] == q + [p[m]];
    forall j | 0 <= j < |a|
      ensures next[j] == 0 <==> Cell(p, m + 1, a, j)
    {
      var b := a[s..j + 1];
      EndsInOne(q, p[m], b);
      if j > 0 {
        assert b[..|b| - 1] == a[s..j];
        assert row[j - 1] == 0 <==> Cell(p, m, a, j - 1);
      } else {
        assert b != [] ==> b[..|b| - 1] == [];
        MatchesNothing(q);
        if m > Lead(p) && s == 0 {
          assert !q[Lead(p)].ARGS?;
        }
      }
    }
  }

  /** An array without a zero settles it: no cut of all the arguments exists. */
  lemma NoZeroNoMatch<V>(p: seq<Pattern<V>>, m: nat, a: seq<V>, row: seq<nat>)
    requires 1 <= m <= |p| && a != [] && Row(p, m, a, row)
    requires 0 !in row
    ensures !Matches(p, a[Unseen(p)..])
  {
    var s, q, b := Unseen(p), p[..m], a[Unseen(p)..];
    forall j | 0 <= j < |a|
      ensures !Cell(p, m, a, j)
    {
      assert row[j] in row;
    }
    forall k | 0 <= k <= |b|
      ensures !Matches(q, b[..k])
    {
      if k + s >= 1 {
        assert b[..k] == a[s..k + s];
        assert !Cell(p, m, a, k + s - 1);
      } else {
        NothingThenAll(q, a);
        assert !Cell(p, m, a, 0);
        assert b[..k] == [];
      }
    }
    assert p == q + p[m..];
    MatchesSplit(q, p[m..], b);
  }

  // --------------------------------------------------------- match_params

  /** What match_params answers for a pattern with ARGS in it. */
  ghost predicate Positional<V>(p: seq<Pattern<V>>, a: seq<V>) {
    if a == [] then OnlyArgs(p) else Matches(p, a[Unseen(p)..])
  }

  ghost predicate NoSpecial<V>(p: seq<Pattern<V>>) {
    forall i :: 0 <= i < |p| ==> p[i].ARGS? || p[i].Plain?
  }

  /** An element as the array algorithm compares it, with `!=`: to a special argument no value is equal. */
  function Compared<V>(x: Pattern<V>): Pattern<V> {
    if x.ARGS? || x.Plain? then x else Special(_ => false)
  }

  function AsCompared<V>(p: seq<Pattern<V>>): (q: seq<Pattern<V>>)
    ensures |q| == |p| && forall i :: 0 <= i < |p| ==> q[i] == Compared(p[i])
  {
    seq(|p|, i requires 0 <= i < |p| => Compared(p[i]))
  }

  lemma ComparedKeepsShape<V>(p: seq<Pattern<V>>)
    ensures StartsWithTwoArgs(AsCompared(p)) <==> StartsWithTwoArgs(p)
    ensures OnlyArgs(AsCompared(p)) <==> OnlyArgs(p)
    ensures NoSpecial(p) ==> AsCompared(p) == p
  {
    assert forall i :: 0 <= i < |p| ==> (AsCompared(p)[i].ARGS? <==> p[i].ARGS?);
  }

  function Min(a: nat, b: nat): nat {
    if a <= b then a else b
  }

  /** The inner loop for an ARGS element, in place, with the rolling `last`. */
  method SpreadRight(row: array<nat>)
    requires row.Length > 0
    modifies row
    ensures Spread(old(row[..]), row[..])
  {
    ghost var before := row[..];
    var last := row[0];
    for j := 1 to row.Length
      invariant last == before[j - 1]
      invariant row[0] == before[0]
      invariant forall k :: j <= k < row.Length ==> row[k] == before[k]
      invariant forall k :: 1 <= k < j ==> (row[k] == 0 <==> row[k - 1] == 0 || before[k] == 0 || before[k - 1] == 0)
    {
      assert row[j] == before[j];
      last, row[j] := row[j], Min(Min(row[j - 1], row[j]), last);
    }
  }

  /** The inner loop for any other element, the i-th after a dropped leading ARGS. */
  method MoveRight<V(==)>(row: array<nat>, i: nat, element: Pattern<V>, args2: seq<V>)
    requires row.Length == |args2| > 0 && !element.ARGS?
    modifies row
    ensures Moved(old(row[..]), row[..], i, Compared(element), args2)
  {
    ghost var before := row[..];
    var last := row[0];
    row[0] := if i != 0 then i else Unequal(element, args2[0]);
    for j := 1 to row.Length
      invariant last == before[j - 1]
      invariant row[0] == 0 <==> i == 0 && MatchOne(Compared(element), args2[0])
      invariant forall k :: j <= k < row.Length ==> row[k] == before[k]
      invariant forall k :: 1 <= k < j ==>
          (row[k] == 0 <==> before[k - 1] == 0 && MatchOne(Compared(element), args2[k]))
    {
      last, row[j] := row[j], if last != 0 then last else Unequal(element, args2[j]);
    }
  }

  /** int(args1[i] != args2[j]) */
  function Unequal<V(==)>(x: Pattern<V>, a: V): (r: nat)
    requires !x.ARGS?
    ensures r == 0 <==> MatchOne(Compared(x), a)
  {
    if x.Plain? && x.value == a then 0 else 1
  }

  method HasZero(row: array<nat>) returns (found: bool)
    ensures found <==> 0 in row[..]
  {
    for j := 0 to row.Length
      invariant 0 !in row[..j]
    {
      if row[j] == 0 { return true; }
    }
    assert row[..row.Length] == row[..];
    found := false;
  }

  /** The array algorithm, on a pattern with at least one element and some arguments. */
  method MatchWithArray<V(==)>(args1: seq<Pattern<V>>, args2: seq<V>) returns (r: bool)
    requires args1 != [] && args2 != []
    ensures r <==> Positional(AsCompared(args1), args2)
  {
    hide Matches;
    ghost var p := AsCompared(args1);
    var start := if args1[0].ARGS? then 0 else 1;
    var lead := Lead(args1);
    var row := new nat[|args2|](_ => start);
    FirstRow(p, args2, row[..]);
    for i := 0 to |args1| - lead
      invariant Row(p, i + lead, args2, row[..])
    {
      ghost var before := row[..];
      var element := args1[i + lead];
      if element.ARGS? {
        SpreadRight(row);
        RowAfterArgs(p, i + lead, args2, before, row[..]);
      } else {
        MoveRight(row, i, element, args2);
        RowAfterOne(p, i + lead, args2, before, row[..]);
      }
      var alive := HasZero(row);
      if !alive {
        NoZeroNoMatch(p, i + lead + 1, args2, row[..]);
        return false;
      }
    }
    LastCell(p, args2, row[..]);
    r := row[|args2| - 1] == 0;
  }

  /** Once all elements are done, the last cell is the answer. */
  lemma LastCell<V>(p: seq<Pattern<V>>, a: seq<V>, row: seq<nat>)
    requires a != [] && Row(p, |p|, a, row)
    ensures row[|a| - 1] == 0 <==> Positional(p, a)
  {
    assert p[..|p|] == p && a[Unseen(p)..|a| - 1 + 1] == a[Unseen(p)..];
    assert row[|a| - 1] == 0 <==> Cell(p, |p|, a, |a| - 1);
  }

  /** The list comprehension that drops KWARGS. */
  function WithoutKwargs<V>(p: seq<Pattern<V>>): (q: seq<Pattern<V>>)
    ensures forall i :: 0 <= i < |q| ==> !q[i].KWARGS? && q[i] in p
    ensures forall x :: x in p && !x.KWARGS? ==> x in q
  {
    if p == [] then []
    else if p[0].KWARGS? then WithoutKwargs(p[1..])
    else [p[0]] + WithoutKwargs(p[1..])
  }

  predicate HasKwargs<V>(p: seq<Pattern<V>>) {
    exists i :: 0 <= i < |p| && p[i].KWARGS?
  }

  /** Every recorded keyword is given and matches; without KWARGS nothing else is given. */
  ghost predicate KeywordsMatch<V>(open_: bool, kwargs1: map<string, Pattern<V>>, kwargs2: map<string, V>) {
    && (forall k :: k in kwargs1 ==> k in kwargs2 && MatchOne(kwargs1[k], kwargs2[k]))
    && (!open_ ==> kwargs1.Keys == kwargs2.Keys)
  }

  /** The loop over kwargs1. */
  method CheckKeywords<V(==)>(kwargs1: map<string, Pattern<V>>, kwargs2: map<string, V>) returns (r: bool)
    ensures r <==> KeywordsMatch(true, kwargs1, kwargs2)
  {
    var todo := kwargs1.Keys;
    while todo != {}
      invariant todo <= kwargs1.Keys
      invariant forall k :: k in kwargs1 && k !in todo ==> k in kwargs2 && MatchOne(kwargs1[k], kwargs2[k])
      decreases |todo|
    {
      var k :| k in todo;
      if k !in kwargs2 || !MatchOne(kwargs1[k], kwargs2[k]) { return false; }
      todo := todo - {k};
    }
    r := true;
  }

  /** Without ARGS the arguments match one on one. */
  method MatchOneOnOne<V(==)>(args1: seq<Pattern<V>>, args2: seq<V>) returns (r: bool)
    requires !HasArgs(args1) && |args1| == |args2|
    ensures r <==> Matches(args1, args2)
  {
    for i := 0 to |args1|
      invariant Matches(args1, args2) <==> Matches(args1[i..], args2[i..])
    {
      assert args1[i..][1..] == args1[i + 1..] && args2[i..][1..] == args2[i + 1..];
      if !MatchOne(args1[i], args2[i]) { return false; }
    }
    r := true;
  }

  lemma {:induction false} OneOnOneLength<V>(p: seq<Pattern<V>>, a: seq<V>)
    requires Matches(p, a)
    ensures |a| >= |Plains(p)|
    ensures !HasArgs(p) ==> |a| == |p|
    decreases |p|
  {
    if p != [] {
      if p[0].ARGS? {
        var k :| 0 <= k <= |a| && Matches(p[1..], a[k..]);
        OneOnOneLength(p[1..], a[k..]);
      } else {
        OneOnOneLength(p[1..], a[1..]);
        if HasArgs(p[1..]) {
          var i :| 0 <= i < |p[1..]| && p[1..][i].ARGS?;
          assert p[i + 1].ARGS?;
        }
      }
    }
  }

  /** The values of the plain elements, in order. */
  function Plains<V>(p: seq<Pattern<V>>): seq<V> {
    if p == [] then []
    else if p[0].Plain? then [p[0].value] + Plains(p[1..])
    else Plains(p[1..])
  }

  /** match_params. */
  method MatchParams<V(==, !new)>(args1: seq<Pattern<V>>, kwargs1: map<string, Pattern<V>>,
                            args2: seq<V>, kwargs2: map<string, V>) returns (r: bool)
    ensures var p := WithoutKwargs(args1);
            r <==> KeywordsMatch(HasKwargs(args1), kwargs1, kwargs2)
                   && if HasArgs(args1) then Positional(AsCompared(p), args2) else Matches(p, args2)
    ensures !HasArgs(args1) || IsServed(WithoutKwargs(args1)) ==>
              (r <==> KeywordsMatch(HasKwargs(args1), kwargs1, kwargs2) && MatchesCall(args1, args2))
    ensures r ==> MatchesCall(args1, args2)
  {
    hide Matches, MatchesCall, IsServed;
    var hasArgs := HasArgs(args1);
    var hasKwargs := HasKwargs(args1);
    var pattern := WithoutKwargs(args1);
    if !hasKwargs && |kwargs1| != |kwargs2| {
      assert kwargs1.Keys != kwargs2.Keys by {
        assert |kwargs1.Keys| == |kwargs1| && |kwargs2.Keys| == |kwargs2|;
      }
      return false;
    }
    ArgsSurvive(args1);
    ComparedKeepsShape(pattern);
    WithoutKwargsMatches(args1, args2);
    if Positional(AsCompared(pattern), args2) { PositionalIsSound(pattern, args2); }
    if hasArgs { PositionalIsRightIff(pattern); }
    if !hasArgs && |pattern| != |args2| {
      if Matches(pattern, args2) { OneOnOneLength(pattern, args2); }
      return false;
    }
    var keywords := CheckKeywords(kwargs1, kwargs2);
    if !keywords { return false; }
    if !hasKwargs {
      SameKeys(kwargs1.Keys, kwargs2.Keys);
    }
    if !hasArgs {
      r := MatchOneOnOne(pattern, args2);
      return;
    }
    if !hasKwargs && |pattern| == 1 {
      assert pattern[0].ARGS?;
      OnlyArgsMatchAll(AsCompared(pattern), args2[Unseen(pattern)..]);
      return true;
    }
    if args2 == [] {
      for i := 0 to |pattern|
        invariant forall k :: 0 <= k < i ==> pattern[k].ARGS?
      {
        if !pattern[i].ARGS? { return false; }
      }
      return true;
    }
    r := MatchWithArray(pattern, args2);
  }

  lemma ArgsSurvive<V>(p: seq<Pattern<V>>)
    ensures HasArgs(p) <==> HasArgs(WithoutKwargs(p))
  {
    var q := WithoutKwargs(p);
    if i :| 0 <= i < |p| && p[i].ARGS? {
      assert p[i] in p && p[i] in q;
    }
    if i :| 0 <= i < |q| && q[i].ARGS? {
      assert q[i] in p;
    }
  }

  lemma SameKeys(a: set<string>, b: set<string>)
    ensures a <= b && |a| == |b| ==> a == b
  {
    if a <= b && |a| == |b| {
      assert b == a + (b - a);
    }
  }

  // ------------------------------------------------------ where it is right

  /** The values of the plain elements are a call the pattern matches. */
  lemma {:induction false} PlainsMatch<V>(p: seq<Pattern<V>>)
    requires NoSpecial(p)
    ensures Matches(p, Plains(p))
    decreases |p|
  {
    if p != [] {
      PlainsMatch(p[1..]);
      var a := Plains(p);
      if p[0].ARGS? {
        assert a[0..] == a;
      } else {
        assert a[1..] == Plains(p[1..]);
      }
    }
  }

  lemma {:induction false} PlainsOfArgs<V>(p: seq<Pattern<V>>)
    requires NoSpecial(p)
    ensures Plains(p) == [] <==> OnlyArgs(p)
    decreases |p|
  {
    if p != [] {
      PlainsOfArgs(p[1..]);
      if OnlyArgs(p[1..]) {
        forall i | 1 <= i < |p| ensures p[i].ARGS? { assert p[i] == p[1..][i - 1]; }
      }
    }
  }

  /** What matches as compared matches. */
  lemma {:induction false} ComparedIsStricter<V>(p: seq<Pattern<V>>, a: seq<V>)
    requires Matches(AsCompared(p), a)
    ensures Matches(p, a)
    decreases |p|
  {
    if p != [] {
      assert AsCompared(p)[1..] == AsCompared(p[1..]);
      if p[0].ARGS? {
        var k :| 0 <= k <= |a| && Matches(AsCompared(p)[1..], a[k..]);
        ComparedIsStricter(p[1..], a[k..]);
      } else {
        ComparedIsStricter(p[1..], a[1..]);
      }
    }
  }

  /** The algorithm never claims a match that is none. */
  lemma PositionalIsSound<V>(p: seq<Pattern<V>>, a: seq<V>)
    requires Positional(AsCompared(p), a)
    ensures Matches(p, a)
  {
    var q := AsCompared(p);
    ComparedKeepsShape(p);
    MatchesNothing(p);
    if a != [] {
      if StartsWithTwoArgs(q) {
        var b := a[1..];
        var k :| 0 <= k <= |b| && Matches(q[1..], b[k..]);
        assert a[k + 1..] == b[k..];
      }
      assert a[0..] == a;
      ComparedIsStricter(p, a);
    }
  }

  /** An element that no value matches. */
  ghost predicate IsHopeless<V(!new)>(x: Pattern<V>) {
    x.Special? && forall v :: !MatchOne(x, v)
  }

  ghost predicate HasHopeless<V(!new)>(p: seq<Pattern<V>>) {
    exists i :: 0 <= i < |p| && IsHopeless(p[i])
  }

  lemma {:induction false} HopelessNeverMatches<V(!new)>(p: seq<Pattern<V>>, a: seq<V>)
    requires HasHopeless(p)
    ensures !Matches(p, a)
    decreases |p|
  {
    var i :| 0 <= i < |p| && IsHopeless(p[i]);
    if i > 0 {
      assert p[1..][i - 1] == p[i];
      if p[0].ARGS? {
        forall k | 0 <= k <= |a|
          ensures !Matches(p[1..], a[k..])
        {
          HopelessNeverMatches(p[1..], a[k..]);
        }
      } else if a != [] {
        HopelessNeverMatches(p[1..], a[1..]);
      }
    }
  }

  /** Some value for every single element is a call the pattern matches. */
  lemma {:induction false} SomethingMatches<V(!new)>(p: seq<Pattern<V>>) returns (a: seq<V>)
    requires !HasHopeless(p) && !HasKwargs(p)
    ensures Matches(p, a)
    decreases |p|
  {
    a := [];
    if p != [] {
      assert forall i :: 0 <= i < |p[1..]| ==> p[1..][i] == p[i + 1];
      var rest := SomethingMatches(p[1..]);
      if p[0].ARGS? {
        a := rest;
        assert a[0..] == a;
      } else {
        assert !IsHopeless(p[0]) && !p[0].KWARGS?;
        if p[0].Plain? { assert MatchOne(p[0], p[0].value); }
        var v: V :| MatchOne(p[0], v);
        a := [v] + rest;
        assert a[1..] == rest;
      }
    }
  }

  /** The patterns with ARGS for which the algorithm is right: none of its calls can match anyway; or there
      is no special argument, and two leading ARGS only in front of further ARGS. */
  ghost predicate IsServed<V(!new)>(p: seq<Pattern<V>>) {
    HasHopeless(p) || (NoSpecial(p) && (!StartsWithTwoArgs(p) || OnlyArgs(p)))
  }

  /** For those, and no others, it is right about every call. */
  lemma PositionalIsRightIff<V(!new)>(p: seq<Pattern<V>>)
    requires p != [] && !HasKwargs(p)
    ensures (forall a: seq<V> :: Positional(AsCompared(p), a) <==> Matches(p, a)) <==> IsServed(p)
  {
    if HasHopeless(p) {
      forall a: seq<V>
        ensures !Positional(AsCompared(p), a) && !Matches(p, a)
      {
        HopelessNeverMatches(p, a);
        if Positional(AsCompared(p), a) { PositionalIsSound(p, a); }
      }
    } else if NoSpecial(p) {
      ComparedKeepsShape(p);
      PlainsAreRightIff(p);
    } else {
      var a := SomethingMatches(p);
      ComparedIsHopeless(p);
      if Positional(AsCompared(p), a) {
        ComparedKeepsShape(p);
        HopelessNeverMatches(AsCompared(p), a[if a == [] then 0 else Unseen(AsCompared(p))..]);
      }
      assert !Positional(AsCompared(p), a);
    }
  }

  lemma ComparedIsHopeless<V(!new)>(p: seq<Pattern<V>>)
    requires !NoSpecial(p)
    ensures HasHopeless(AsCompared(p)) && !OnlyArgs(AsCompared(p))
  {
    var i :| 0 <= i < |p| && !(p[i].ARGS? || p[i].Plain?);
    assert IsHopeless(AsCompared(p)[i]);
  }

  /** Of plain elements: exactly the patterns that do not hide one behind two leading ARGS. */
  lemma PlainsAreRightIff<V>(p: seq<Pattern<V>>)
    requires NoSpecial(p) && p != []
    ensures (forall a: seq<V> :: Positional(p, a) <==> Matches(p, a)) <==> (!StartsWithTwoArgs(p) || OnlyArgs(p))
  {
    if !StartsWithTwoArgs(p) || OnlyArgs(p) {
      forall a: seq<V>
        ensures Positional(p, a) <==> Matches(p, a)
      {
        MatchesNothing(p);
        if OnlyArgs(p) {
          OnlyArgsMatchAll(p, a);
          if a != [] { OnlyArgsMatchAll(p, a[Unseen(p)..]); }
        } else {
          assert a[0..] == a;
        }
      }
    } else {
      var a := Plains(p);
      PlainsMatch(p);
      PlainsOfArgs(p);
      if Positional(p, a) {
        OneOnOneLength(p, a[1..]);
      }
      assert !Positional(p, a);
    }
  }
}
