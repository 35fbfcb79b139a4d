/** Relation changes, what a word of hooks means for one unit, and the
    queue rewriting of juju/hooks/scheduler.py as functions on values. */
module HookChanges {
  import opened Wrappers

  type Unit = string

  datatype Kind = Joined | Departed | Modified

  /** One queued change. The sorted, duplicate-free member list of the source is held as a set. */
  datatype Change = Change(unit: Unit, kind: Kind, members: set<Unit>)

  // ---------------------------------------------------------------- meaning

  /** What one hook tells the charm about one unit; None when the hook makes no sense. */
  function Tell(present: bool, k: Kind): Option<bool> {
    match k
    case Joined => if present then None else Some(true)
    case Departed => if present then Some(false) else None
    case Modified => if present then Some(true) else None
  }

  /** The effect of a word of hooks on one unit. */
  function Word(present: bool, ks: seq<Kind>): Option<bool>
    decreases |ks|
  {
    if ks == [] then Some(present)
    else match Tell(present, ks[0])
      case None => None
      case Some(q) => Word(q, ks[1..])
  }

  /** The hooks of unit u in s, in order. */
  function Kinds(u: Unit, s: seq<Change>): seq<Kind> {
    if s == [] then []
    else if s[0].unit == u then [s[0].kind] + Kinds(u, s[1..])
    else Kinds(u, s[1..])
  }

  lemma {:induction false} WordConcat(p: bool, a: seq<Kind>, b: seq<Kind>)
    ensures Word(p, a + b) == (match Word(p, a) case None => None case Some(q) => Word(q, b))
    decreases |a|
  {
    if a == [] {
      assert a + b == b;
    } else {
      assert (a + b)[1..] == a[1..] + b;
      match Tell(p, a[0])
      case None =>
      case Some(q) => WordConcat(q, a[1..], b);
    }
  }

  lemma {:induction false} KindsConcat(u: Unit, a: seq<Change>, b: seq<Change>)
    ensures Kinds(u, a + b) == Kinds(u, a) + Kinds(u, b)
  {
    if a == [] {
      assert a + b == b;
    } else {
      assert (a + b)[1..] == a[1..] + b;
      KindsConcat(u, a[1..], b);
      if a[0].unit == u {
        assert ([a[0].kind] + Kinds(u, a[1..])) + Kinds(u, b) == [a[0].kind] + (Kinds(u, a[1..]) + Kinds(u, b));
      }
    }
  }

  lemma KindsOne(u: Unit, c: Change)
    ensures Kinds(u, [c]) == if c.unit == u then [c.kind] else []
  {
    assert [c][1..] == [];
  }

  lemma WordOne(p: bool, k: Kind)
    ensures Word(p, [k]) == Tell(p, k)
  {
    assert [k][1..] == [];
  }

  /** Every prefix of a legal word is legal. */
  lemma WordPrefix(p: bool, a: seq<Kind>, b: seq<Kind>)
    requires Word(p, a + b).Some?
    ensures Word(p, a).Some?
  {
    WordConcat(p, a, b);
  }

  /** Dropping a Modified from a legal word changes nothing. */
  lemma WordDropModified(p: bool, a: seq<Kind>, b: seq<Kind>)
    requires Word(p, a + [Modified] + b).Some?
    ensures Word(p, a + b) == Word(p, a + [Modified] + b)
  {
    hide Word;
    WordConcat(p, a + [Modified], b);
    WordConcat(p, a, [Modified]);
    WordConcat(p, a, b);
    WordOne(Word(p, a).value, Modified);
  }

  // ------------------------------------------------- the whole-relation view

  /** Replay of a list of changes over a membership set; None as soon as one hook makes no sense. */
  function Fold(base: set<Unit>, s: seq<Change>): Option<set<Unit>>
    decreases |s|
  {
    if s == [] then Some(base)
    else match Tell(s[0].unit in base, s[0].kind)
      case None => None
      case Some(q) => Fold(if q then base + {s[0].unit} else base - {s[0].unit}, s[1..])
  }

  /** The set view and the per-unit view agree: a replay ends in m exactly when every
      unit's own word is legal and ends in that unit's membership of m. */
  lemma {:induction false} FoldIsPointwise(base: set<Unit>, s: seq<Change>, m: set<Unit>)
    ensures Fold(base, s) == Some(m) <==> forall u :: Word(u in base, Kinds(u, s)) == Some(u in m)
    decreases |s|
  {
    if s == [] {
      if forall u :: Word(u in base, Kinds(u, s)) == Some(u in m) {
        assert forall u :: Word(u in base, Kinds(u, s)) == Some(u in base);
        assert base == m;
      }
    } else {
      var h := s[0];
      match Tell(h.unit in base, h.kind)
      case None =>
        assert Kinds(h.unit, s)[0] == h.kind;
        assert Word(h.unit in base, Kinds(h.unit, s)) == None;
      case Some(q) =>
        var base' := if q then base + {h.unit} else base - {h.unit};
        FoldIsPointwise(base', s[1..], m);
        forall u
          ensures Word(u in base, Kinds(u, s)) == Word(u in base', Kinds(u, s[1..]))
        {
          if u == h.unit {
            assert Kinds(u, s) == [h.kind] + Kinds(u, s[1..]);
            assert ([h.kind] + Kinds(u, s[1..]))[1..] == Kinds(u, s[1..]);
          } else {
            assert Kinds(u, s) == Kinds(u, s[1..]);
          }
        }
    }
  }

  // ------------------------------------------------------ the queue rewriting

  /** Outcome of _reduce: the previous clock wins, the new clock wins with a
      change type, both vanish, or the pair is not handled at all. */
  datatype Reduction = KeepPrevious | TakeNew(kind: Kind) | Cancelled | Unhandled

  function Reduce(previous: Kind, new_: Kind): Reduction {
    match (previous, new_)
    case (Departed, Joined) => TakeNew(Modified)
    case (Joined, Modified) => KeepPrevious
    case (Joined, Departed) => Cancelled
    case (Modified, Departed) => TakeNew(Departed)
    case (Modified, Modified) => KeepPrevious
    case (Departed, Modified) => KeepPrevious
    case (_, _) => Unhandled
  }

  /** Reduction is sound on its own: a handled pair has the same effect as what replaces it. */
  lemma ReduceKeepsMeaning(present: bool, previous: Kind, new_: Kind)
    requires Word(present, [previous, new_]).Some?
    ensures Reduce(previous, new_) != Unhandled
    ensures var w := Word(present, [previous, new_]);
            match Reduce(previous, new_)
            case KeepPrevious => Word(present, [previous]) == w
            case TakeNew(k) => Word(present, [k]) == w
            case Cancelled => Word(present, []) == w
            case Unhandled => true
  {
    assert [previous, new_][1..] == [new_];
    assert [new_][1..] == [];
  }

  /** Which index `pending.pop(previous_idx)` uses: the slice-relative one, as the source
      is written, or the absolute one, which it means. They agree when the offset is 0. */
  datatype PopIndex = SliceRelative | Absolute

  /** pending[offset:] with the slicing rules of the source language. */
  function Slice(pending: seq<Change>, offset: nat): seq<Change> {
    if offset <= |pending| then pending[offset..] else []
  }

  /** Index of the last change for a unit. */
  function LastFor(u: Unit, s: seq<Change>): (r: Option<nat>)
    ensures r.None? ==> forall i :: 0 <= i < |s| ==> s[i].unit != u
    ensures r.Some? ==> r.value < |s| && s[r.value].unit == u
                        && forall i :: r.value < i < |s| ==> s[i].unit != u
  {
    if s == [] then None
    else if s[|s| - 1].unit == u then Some(|s| - 1)
    else LastFor(u, s[..|s| - 1])
  }

  /** list.index: the first position holding a given value. */
  function FirstIndex(c: Change, s: seq<Change>): (i: nat)
    requires c in s
    ensures i < |s| && s[i] == c
    ensures forall j :: 0 <= j < i ==> s[j] != c
  {
    if s[0] == c then 0 else 1 + FirstIndex(c, s[1..])
  }

  /** _previous: search backwards for the unit, then report list.index of what was found. */
  function Previous(u: Unit, s: seq<Change>): (r: Option<nat>)
    ensures r.None? ==> forall i :: 0 <= i < |s| ==> s[i].unit != u
    ensures r.Some? ==> r.value < |s| && s[r.value].unit == u
  {
    match LastFor(u, s)
    case None => None
    case Some(i) => Some(FirstIndex(s[i], s))
  }

  function RemoveAt(s: seq<Change>, i: nat): (r: seq<Change>)
    requires i < |s|
    ensures |r| == |s| - 1
  {
    s[..i] + s[i + 1..]
  }

  /** _wipe_member over pending[offset:]. */
  function Wipe(u: Unit, s: seq<Change>, offset: nat): (r: seq<Change>)
    ensures |r| == |s|
    ensures forall i :: 0 <= i < |s| ==> r[i] == if i < offset then s[i] else s[i].(members := s[i].members - {u})
  {
    seq(|s|, i requires 0 <= i < |s| => if i < offset then s[i] else s[i].(members := s[i].members - {u}))
  }

  function PopAt(idx: nat, offset: nat, popAt: PopIndex): nat {
    if popAt.Absolute? then offset + idx else idx
  }

  /** _queue_change. None stands for the TypeError of unpacking a missing reduction. */
  function QueueChange(pending: seq<Change>, c: Change, offset: nat, popAt: PopIndex): Option<seq<Change>> {
    var slice := Slice(pending, offset);
    match Previous(c.unit, slice)
    case None => Some(pending + [c])
    case Some(idx) =>
      match Reduce(slice[idx].kind, c.kind)
      case Unhandled => None
      case KeepPrevious => Some(pending)
      case TakeNew(k) => Some(RemoveAt(pending, PopAt(idx, offset, popAt)) + [c.(kind := k)])
      case Cancelled => Some(RemoveAt(Wipe(c.unit, pending, offset), PopAt(idx, offset, popAt)))
  }
}
