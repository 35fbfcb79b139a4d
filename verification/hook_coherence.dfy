/** What every queue the scheduler can reach has in common, and that queuing a
    change keeps it. */
module HookCoherence {
  import opened Wrappers
  import opened HookChanges

  /** Unit u is a member for the charm once the hooks s have run. */
  predicate Told(base: set<Unit>, u: Unit, s: seq<Change>) {
    Word(u in base, Kinds(u, s)) == Some(true)
  }

  /** `done` are the changes that left the head of the queue, `now` is the membership the
      scheduler knows. Read as one history, done + pending is a legal word for every unit and
      ends in `now`; and no pending change lists a unit the charm will not have been told of. */
  ghost predicate Coherent(base: set<Unit>, done: seq<Change>, pending: seq<Change>, now: set<Unit>) {
    && (forall u :: |Kinds(u, pending)| <= 2)
    && (forall u :: Word(u in base, Kinds(u, done + pending)) == Some(u in now))
    && NoPhantoms(base, done, pending)
  }

  ghost predicate NoPhantoms(base: set<Unit>, done: seq<Change>, pending: seq<Change>) {
    forall i, v :: 0 <= i < |pending| && v in pending[i].members ==> Told(base, v, done + pending[..i + 1])
  }

  /** A change that fits the membership `now` and moves it to `next`. */
  ghost predicate Fits(c: Change, now: set<Unit>, next: set<Unit>) {
    && c.members == next
    && match c.kind
       case Joined => c.unit !in now && next == now + {c.unit}
       case Departed => c.unit in now && next == now - {c.unit}
       case Modified => c.unit in now && next == now
  }

  lemma {:induction false} NoneFor(u: Unit, s: seq<Change>)
    ensures (forall i :: 0 <= i < |s| ==> s[i].unit != u) <==> Kinds(u, s) == []
  {
    if s != [] {
      NoneFor(u, s[1..]);
      assert forall i :: 1 <= i < |s| ==> s[i] == s[1..][i - 1];
      if forall i :: 0 <= i < |s[1..]| ==> s[1..][i].unit != u {
        assert forall i :: 1 <= i < |s| ==> s[i].unit != u;
      } else {
        var i :| 0 <= i < |s[1..]| && s[1..][i].unit == u;
        assert s[i + 1].unit == u;
      }
    }
  }

  /** Taking one entry out takes its kind out of its own unit's word, and nothing else. */
  lemma KindsSplit(u: Unit, s: seq<Change>, k: nat)
    requires k < |s|
    ensures Kinds(u, s) == Kinds(u, s[..k]) + (if s[k].unit == u then [s[k].kind] else []) + Kinds(u, s[k + 1..])
    ensures Kinds(u, RemoveAt(s, k)) == Kinds(u, s[..k]) + Kinds(u, s[k + 1..])
    ensures s[k].unit != u ==> Kinds(u, RemoveAt(s, k)) == Kinds(u, s)
  {
    hide Kinds;
    assert s == s[..k] + [s[k]] + s[k + 1..];
    KindsConcat(u, s[..k] + [s[k]], s[k + 1..]);
    KindsConcat(u, s[..k], [s[k]]);
    KindsOne(u, s[k]);
    KindsConcat(u, s[..k], s[k + 1..]);
    assert Kinds(u, s[..k]) + [] == Kinds(u, s[..k]);
  }

  /** Only units and kinds matter to Kinds. */
  lemma {:induction false} KindsSame(u: Unit, s: seq<Change>, t: seq<Change>)
    requires |s| == |t|
    requires forall i :: 0 <= i < |s| ==> s[i].unit == t[i].unit && s[i].kind == t[i].kind
    ensures Kinds(u, s) == Kinds(u, t)
  {
    if s != [] {
      KindsSame(u, s[1..], t[1..]);
    }
  }

  lemma {:induction false} KindsShort(u: Unit, s: seq<Change>)
    ensures |Kinds(u, s)| <= |s|
  {
    if s != [] {
      KindsShort(u, s[1..]);
    }
  }

  lemma WipeKinds(u: Unit, s: seq<Change>, offset: nat, k: nat)
    requires k <= |s|
    ensures Kinds(u, Wipe(u, s, offset)[k..]) == Kinds(u, s[k..])
  {
    var a, b := Wipe(u, s, offset)[k..], s[k..];
    forall i | 0 <= i < |a|
      ensures a[i].unit == b[i].unit && a[i].kind == b[i].kind
    {
      assert a[i] == Wipe(u, s, offset)[k + i] && b[i] == s[k + i];
    }
    KindsSame(u, a, b);
  }

  /** Appending a change that fits. */
  lemma AppendKeeps(base: set<Unit>, done: seq<Change>, pending: seq<Change>, now: set<Unit>, c: Change,
                    next: set<Unit>)
    requires Coherent(base, done, pending, now)
    requires Fits(c, now, next)
    requires |Kinds(c.unit, pending)| <= 1
    ensures Coherent(base, done, pending + [c], next)
  {
    hide Kinds, Word;
    var p := pending + [c];
    forall u
      ensures |Kinds(u, p)| <= 2
      ensures Word(u in base, Kinds(u, done + p)) == Some(u in next)
    {
      KindsConcat(u, pending, [c]);
      assert done + p == (done + pending) + [c];
      KindsConcat(u, done + pending, [c]);
      KindsOne(u, c);
      WordConcat(u in base, Kinds(u, done + pending), Kinds(u, [c]));
      if u == c.unit {
        WordOne(u in now, c.kind);
      } else {
        assert Kinds(u, done + pending) + [] == Kinds(u, done + pending);
      }
    }
    forall i, v | 0 <= i < |p| && v in p[i].members
      ensures Told(base, v, done + p[..i + 1])
    {
      if i < |pending| {
        assert p[..i + 1] == pending[..i + 1];
      } else {
        assert p[..i + 1] == p;
      }
    }
  }

  /** Taking out an entry whose absence nobody later relies on. */
  lemma RemoveKeepsPhantoms(base: set<Unit>, done: seq<Change>, pending: seq<Change>, k: nat)
    requires NoPhantoms(base, done, pending)
    requires k < |pending|
    requires var u := pending[k].unit;
             forall i :: k < i < |pending| && u in pending[i].members
                         ==> Told(base, u, done + RemoveAt(pending[..i + 1], k))
    ensures NoPhantoms(base, done, RemoveAt(pending, k))
  {
    hide Kinds, Word;
    var p := RemoveAt(pending, k);
    forall i, v | 0 <= i < |p| && v in p[i].members
      ensures Told(base, v, done + p[..i + 1])
    {
      if i < k {
        assert p[..i + 1] == pending[..i + 1];
      } else {
        var q := pending[..i + 2];
        assert p[..i + 1] == RemoveAt(q, k);
        assert p[i] == pending[i + 1];
        if v != pending[k].unit {
          KindsSplit(v, q, k);
          KindsConcat(v, done, q);
          KindsConcat(v, done, RemoveAt(q, k));
          assert Told(base, v, done + q);
        } else {
          var j := i + 1;
          assert pending[..j + 1] == q;
          assert Told(base, v, done + RemoveAt(pending[..j + 1], k));
        }
      }
    }
  }

  /** In a coherent queue, two entries of one unit with equal kinds are both Modified. */
  lemma TwinsAreModified(base: set<Unit>, done: seq<Change>, pending: seq<Change>, now: set<Unit>, i: nat, j: nat)
    requires Coherent(base, done, pending, now)
    requires i < j < |pending|
    requires pending[i].unit == pending[j].unit && pending[i].kind == pending[j].kind
    ensures pending[i].kind == Modified
    ensures Kinds(pending[i].unit, pending) == [Modified, Modified]
  {
    var u := pending[i].unit;
    TwoOfOne(u, pending, i, j);
    var w := Kinds(u, pending);
    KindsConcat(u, done, pending);
    WordConcat(u in base, Kinds(u, done), w);
    assert w[1..] == [w[1]];
    assert w == [pending[i].kind, pending[j].kind];
  }

  lemma TwoOfOne(u: Unit, s: seq<Change>, i: nat, j: nat)
    requires i < j < |s| && s[i].unit == u == s[j].unit
    requires |Kinds(u, s)| <= 2
    ensures Kinds(u, s) == [s[i].kind, s[j].kind]
  {
    hide Kinds;
    var t := s[i + 1..];
    var k := j - i - 1;
    assert t[k] == s[j];
    var a, b, c := Kinds(u, s[..i]), Kinds(u, t[..k]), Kinds(u, t[k + 1..]);
    assert Kinds(u, s) == a + [s[i].kind] + Kinds(u, t) by { KindsSplit(u, s, i); }
    assert Kinds(u, t) == b + [s[j].kind] + c by { KindsSplit(u, t, k); }
    assert a == [] && b == [] && c == [];
  }

  /** Where Previous points, given coherence: either at the unit's last entry, or at the
      first of two equal Modified entries. Either way the unit's word loses its last kind. */
  lemma PreviousTakesLast(base: set<Unit>, done: seq<Change>, pending: seq<Change>, now: set<Unit>, u: Unit,
                          offset: nat)
    requires Coherent(base, done, pending, now)
    requires offset <= |pending|
    requires Previous(u, pending[offset..]).Some?
    ensures var k := offset + Previous(u, pending[offset..]).value;
            && k < |pending| && pending[k].unit == u
            && (pending[k].kind == Modified || Kinds(u, pending[k + 1..]) == [])
            && (pending[k].kind == Modified ==>
                  Kinds(u, pending[k + 1..]) == [] || Kinds(u, pending) == [Modified, Modified])
  {
    hide Kinds, Word;
    var slice := pending[offset..];
    var i := LastFor(u, slice).value;
    var idx := FirstIndex(slice[i], slice);
    assert pending[offset + i] == slice[i] && pending[offset + idx] == slice[idx];
    var rest := pending[offset + i + 1..];
    forall j | 0 <= j < |rest|
      ensures rest[j].unit != u
    {
      assert rest[j] == slice[i + 1 + j];
    }
    NoneFor(u, rest);
    if idx < i {
      TwinsAreModified(base, done, pending, now, offset + idx, offset + i);
    }
  }

  /** The word of the whole history after one entry went and, maybe, one was appended. */
  lemma WordAfterRemove(base: set<Unit>, done: seq<Change>, pending: seq<Change>, k: nat, u: Unit)
    requires k < |pending|
    ensures Kinds(u, done + RemoveAt(pending, k)) == Kinds(u, done + pending[..k]) + Kinds(u, pending[k + 1..])
    ensures Kinds(u, done + pending)
         == Kinds(u, done + pending[..k]) + (if pending[k].unit == u then [pending[k].kind] else [])
             + Kinds(u, pending[k + 1..])
    ensures pending[k].unit != u ==> Kinds(u, done + RemoveAt(pending, k)) == Kinds(u, done + pending)
  {
    hide Kinds, Word;
    KindsSplit(u, pending, k);
    KindsConcat(u, done, pending);
    KindsConcat(u, done, pending[..k]);
    KindsConcat(u, done, RemoveAt(pending, k));
  }

  /** Removing a Modified leaves a coherent queue. */
  lemma RemoveModified(base: set<Unit>, done: seq<Change>, pending: seq<Change>, now: set<Unit>, k: nat)
    requires Coherent(base, done, pending, now)
    requires k < |pending| && pending[k].kind == Modified
    ensures Coherent(base, done, RemoveAt(pending, k), now)
  {
    hide Kinds, Word;
    var u := pending[k].unit;
    var p := RemoveAt(pending, k);
    forall x
      ensures |Kinds(x, p)| <= 2
      ensures Word(x in base, Kinds(x, done + p)) == Some(x in now)
    {
      KindsSplit(x, pending, k);
      WordAfterRemove(base, done, pending, k, x);
      if x == u {
        WordDropModified(x in base, Kinds(x, done + pending[..k]), Kinds(x, pending[k + 1..]));
      }
    }
    forall i | k < i < |pending| && u in pending[i].members
      ensures Told(base, u, done + RemoveAt(pending[..i + 1], k))
    {
      var q := pending[..i + 1];
      assert Told(base, u, done + q);
      WordAfterRemove(base, done, q, k, u);
      WordDropModified(u in base, Kinds(u, done + q[..k]), Kinds(u, q[k + 1..]));
    }
    RemoveKeepsPhantoms(base, done, pending, k);
  }

  /** Removing a unit's last entry undoes that entry's effect, provided later entries do not
      rely on it: which holds for a departure, and for a join once the unit is wiped. */
  lemma RemoveLast(base: set<Unit>, done: seq<Change>, pending: seq<Change>, now: set<Unit>, k: nat)
    requires Coherent(base, done, pending, now)
    requires k < |pending| && pending[k].kind != Modified
    requires Kinds(pending[k].unit, pending[k + 1..]) == []
    requires pending[k].kind == Joined ==> forall i :: k < i < |pending| ==> pending[k].unit !in pending[i].members
    ensures var u := pending[k].unit;
            Coherent(base, done, RemoveAt(pending, k), if pending[k].kind == Joined then now - {u} else now + {u})
  {
    hide Kinds, Word;
    var u := pending[k].unit;
    var p := RemoveAt(pending, k);
    var now' := if pending[k].kind == Joined then now - {u} else now + {u};
    forall x
      ensures |Kinds(x, p)| <= 2
      ensures Word(x in base, Kinds(x, done + p)) == Some(x in now')
    {
      KindsSplit(x, pending, k);
      WordAfterRemove(base, done, pending, k, x);
      if x == u {
        var before := Kinds(u, done + pending[..k]);
        assert Kinds(u, done + pending) == before + [pending[k].kind];
        assert Kinds(u, done + p) == before;
        WordConcat(u in base, before, [pending[k].kind]);
        WordOne(Word(u in base, before).value, pending[k].kind);
      }
    }
    forall i | k < i < |pending|
      ensures u !in pending[i].members
    {
      var q := pending[..i + 1];
      WordAfterRemove(base, done, q, k, u);
      assert pending[k + 1..] == q[k + 1..] + pending[i + 1..];
      KindsConcat(u, q[k + 1..], pending[i + 1..]);
      assert Kinds(u, done + q) == Kinds(u, done + q[..k]) + [q[k].kind];
      if Told(base, u, done + q) {
        EndsPresent(u in base, Kinds(u, done + q[..k]), q[k].kind);
      }
    }
    RemoveKeepsPhantoms(base, done, pending, k);
  }

  /** Wiping a unit that is pending only from position `offset` on leaves a coherent queue. */
  lemma WipeKeeps(base: set<Unit>, done: seq<Change>, pending: seq<Change>, now: set<Unit>, u: Unit, offset: nat)
    requires Coherent(base, done, pending, now)
    ensures Coherent(base, done, Wipe(u, pending, offset), now)
  {
    hide Kinds, Word;
    var p := Wipe(u, pending, offset);
    forall x
      ensures |Kinds(x, p)| <= 2
      ensures Word(x in base, Kinds(x, done + p)) == Some(x in now)
    {
      KindsSame(x, pending, p);
      KindsSame(x, done + pending, done + p);
    }
    forall i, v | 0 <= i < |p| && v in p[i].members
      ensures Told(base, v, done + p[..i + 1])
    {
      assert v in pending[i].members;
      KindsSame(v, done + pending[..i + 1], done + p[..i + 1]);
    }
  }

  /** No entry within reach: the change goes to the end. */
  lemma FreshKeeps(base: set<Unit>, done: seq<Change>, pending: seq<Change>, now: set<Unit>,
                   c: Change, next: set<Unit>, offset: nat)
    requires Coherent(base, done, pending, now)
    requires offset <= 1 && offset <= |pending|
    requires Fits(c, now, next)
    requires Previous(c.unit, pending[offset..]).None?
    ensures Coherent(base, done, pending + [c], next)
  {
    hide Coherent, Kinds;
    var slice := pending[offset..];
    NoneFor(c.unit, slice);
    assert pending == pending[..offset] + slice;
    KindsConcat(c.unit, pending[..offset], slice);
    KindsShort(c.unit, pending[..offset]);
    AppendKeeps(base, done, pending, now, c, next);
  }

  /** A pending join and the departure of the same unit vanish together, and so does the unit. */
  lemma CancelKeeps(base: set<Unit>, done: seq<Change>, pending: seq<Change>, now: set<Unit>, u: Unit, offset: nat,
                    k: nat)
    requires Coherent(base, done, pending, now)
    requires offset <= k < |pending| && pending[k].unit == u && pending[k].kind == Joined
    requires Kinds(u, pending[k + 1..]) == []
    ensures Coherent(base, done, RemoveAt(Wipe(u, pending, offset), k), now - {u})
    ensures forall i :: offset <= i < |pending| - 1 ==> u !in RemoveAt(Wipe(u, pending, offset), k)[i].members
  {
    hide Coherent, Kinds;
    var wiped := Wipe(u, pending, offset);
    WipeKeeps(base, done, pending, now, u, offset);
    WipeKinds(u, pending, offset, k + 1);
    RemoveLast(base, done, wiped, now, k);
  }

  /** A departing or joining or changing unit queued where `offset` entries are out of reach:
      the reduction is defined and the queue stays coherent. */
  lemma QueueKeepsCoherent(base: set<Unit>, done: seq<Change>, pending: seq<Change>, now: set<Unit>,
                           c: Change, next: set<Unit>, offset: nat)
    requires Coherent(base, done, pending, now)
    requires offset <= 1 && offset <= |pending|
    requires Fits(c, now, next)
    ensures var r := QueueChange(pending, c, offset, Absolute);
            r.Some? && Coherent(base, done, r.value, next)
  {
    hide Kinds, Coherent, Wipe, RemoveAt, Previous;
    var slice := pending[offset..];
    match Previous(c.unit, slice)
    case None =>
      FreshKeeps(base, done, pending, now, c, next, offset);
    case Some(idx) =>
      var k := offset + idx;
      PreviousTakesLast(base, done, pending, now, c.unit, offset);
      assert slice[idx] == pending[k];
      KindOfWord(base, done, pending, now, c.unit, k);
      match Reduce(pending[k].kind, c.kind)
      case KeepPrevious =>
      case TakeNew(kind) => TakeNewKeeps(base, done, pending, now, c, next, k);
      case Cancelled => CancelKeeps(base, done, pending, now, c.unit, offset, k);
  }

  /** A legal word ends with the unit absent exactly when its last hook was a departure. */
  lemma EndsPresent(p: bool, a: seq<Kind>, k: Kind)
    requires Word(p, a + [k]).Some?
    ensures Word(p, a + [k]) == Some(k != Departed)
  {
    hide Word;
    WordConcat(p, a, [k]);
    WordOne(Word(p, a).value, k);
  }

  /** The found entry tells whether its unit is a member now. */
  lemma KindOfWord(base: set<Unit>, done: seq<Change>, pending: seq<Change>, now: set<Unit>, u: Unit, k: nat)
    requires Coherent(base, done, pending, now)
    requires k < |pending| && pending[k].unit == u
    requires Kinds(u, pending[k + 1..]) == []
        || (pending[k].kind == Modified && Kinds(u, pending) == [Modified, Modified])
    ensures u in now <==> pending[k].kind != Departed
  {
    hide Kinds, Word;
    WordAfterRemove(base, done, pending, k, u);
    KindsConcat(u, done, pending);
    if Kinds(u, pending[k + 1..]) == [] {
      assert Kinds(u, done + pending) == Kinds(u, done + pending[..k]) + [pending[k].kind];
      EndsPresent(u in base, Kinds(u, done + pending[..k]), pending[k].kind);
    } else {
      assert Kinds(u, done + pending) == (Kinds(u, done) + [Modified]) + [Modified];
      EndsPresent(u in base, Kinds(u, done) + [Modified], Modified);
    }
  }

  /** The two pairs whose reduction is a fresh entry at the end of the queue. */
  lemma TakeNewKeeps(base: set<Unit>, done: seq<Change>, pending: seq<Change>, now: set<Unit>,
                     c: Change, next: set<Unit>, k: nat)
    requires Coherent(base, done, pending, now)
    requires Fits(c, now, next)
    requires k < |pending| && pending[k].unit == c.unit
    requires pending[k].kind == Modified || Kinds(c.unit, pending[k + 1..]) == []
    requires Reduce(pending[k].kind, c.kind).TakeNew?
    ensures Coherent(base, done, RemoveAt(pending, k) + [c.(kind := Reduce(pending[k].kind, c.kind).kind)], next)
  {
    hide Kinds, Word;
    var u := c.unit;
    var p := RemoveAt(pending, k);
    KindsSplit(u, pending, k);
    if c.kind == Joined {
      RemoveLast(base, done, pending, now, k);
      assert now + {u} == next;
      AppendKeeps(base, done, p, next, c.(kind := Modified), next);
    } else {
      RemoveModified(base, done, pending, now, k);
      AppendKeeps(base, done, p, now, c, next);
      assert c.(kind := Departed) == c;
    }
  }

  /** The run loop queues a Modified after every joined hook. Its unit may meanwhile have
      left: then the pending departure absorbs it. */
  lemma LoopModifiedKeeps(base: set<Unit>, done: seq<Change>, pending: seq<Change>, now: set<Unit>, u: Unit)
    requires Coherent(base, done, pending, now)
    requires pending != [] && pending[0].unit == u && pending[0].kind == Joined
    ensures var r := QueueChange(pending, Change(u, Modified, now), 1, Absolute);
            && r.Some? && Coherent(base, done, r.value, now)
            && r.value[..1] == pending[..1]
  {
    hide Kinds, Word, RemoveAt, Wipe;
    var c := Change(u, Modified, now);
    if u in now {
      QueueKeepsCoherent(base, done, pending, now, c, now, 1);
    }
    match Previous(u, pending[1..])
    case None =>
      if u !in now { AloneIsMember(base, done, pending, now, u); }
    case Some(idx) =>
      BehindAJoin(base, done, pending, now, u, idx);
  }

  /** A join with nothing of its unit behind it means the unit is a member. */
  lemma AloneIsMember(base: set<Unit>, done: seq<Change>, pending: seq<Change>, now: set<Unit>, u: Unit)
    requires Coherent(base, done, pending, now)
    requires pending != [] && pending[0].unit == u && pending[0].kind == Joined
    requires Previous(u, pending[1..]).None?
    ensures u in now
  {
    NoneFor(u, pending[1..]);
    KindOfWord(base, done, pending, now, u, 0);
  }

  /** Behind a pending join of the same unit there is no second join. */
  lemma BehindAJoin(base: set<Unit>, done: seq<Change>, pending: seq<Change>, now: set<Unit>, u: Unit, idx: nat)
    requires Coherent(base, done, pending, now)
    requires pending != [] && pending[0].unit == u && pending[0].kind == Joined
    requires Previous(u, pending[1..]) == Some(idx)
    ensures pending[1..][idx].kind != Joined
  {
    if pending[1..][idx].kind == Joined {
      TwinsAreModified(base, done, pending, now, 0, 1 + idx);
    }
  }
}
