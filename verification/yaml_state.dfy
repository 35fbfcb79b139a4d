/** YAMLState of juju/state/utils.py: a local copy of a shared node's dictionary, written back by a
    three-way merge inside a read, compute, conditional-write loop. */
module YamlState {
  import opened Wrappers

  datatype Item<V> =
    | AddedItem(key: string, new_: V)
    | ModifiedItem(key: string, old_: V, new_: V)
    | DeletedItem(key: string, old_: V)

  /** dict.get with a sentinel for what is missing. */
  function Get<V>(m: map<string, V>, k: string): Option<V> {
    if k in m then Some(m[k]) else None
  }

  /** The local copy differs from what was read, at this key. */
  predicate Changed<V(==)>(pristine: map<string, V>, cache: map<string, V>, k: string) {
    Get(pristine, k) != Get(cache, k)
  }

  /** What a three-way merge is: changed keys take the local value or deletion, all others keep `current`. */
  ghost predicate IsMerge<V>(pristine: map<string, V>, cache: map<string, V>, current: map<string, V>, r: map<string,
                             V>) {
    forall k :: Get(r, k) == if Changed(pristine, cache, k) then Get(cache, k) else Get(current, k)
  }

  ghost function Merge<V>(pristine: map<string, V>, cache: map<string, V>, current: map<string, V>): (r: map<string, V>)
    ensures IsMerge(pristine, cache, current, r)
  {
    map k | k in cache.Keys + current.Keys && (if Changed(pristine, cache, k) then k in cache else k in current)
      :: if Changed(pristine, cache, k) then cache[k] else current[k]
  }

  /** Maps are what their lookups are. */
  lemma SameLookups<V>(a: map<string, V>, b: map<string, V>)
    requires forall k :: Get(a, k) == Get(b, k)
    ensures a == b
  {
    forall k
      ensures k in a <==> k in b
      ensures k in a ==> a[k] == b[k]
    {
      assert Get(a, k) == Get(b, k);
    }
  }

  lemma MergeIsUnique<V>(pristine: map<string, V>, cache: map<string, V>, current: map<string, V>, r: map<string, V>)
    requires IsMerge(pristine, cache, current, r)
    ensures r == Merge(pristine, cache, current)
  {
    SameLookups(r, Merge(pristine, cache, current));
  }

  /** Applying one reported change. */
  function Apply<V>(m: map<string, V>, item: Item<V>): map<string, V> {
    match item
    case AddedItem(k, v) => m[k := v]
    case ModifiedItem(k, _, v) => m[k := v]
    case DeletedItem(k, _) => m - {k}
  }

  function Replay<V>(m: map<string, V>, items: seq<Item<V>>): map<string, V> {
    if items == [] then m else Apply(Replay(m, items[..|items| - 1]), items[|items| - 1])
  }

  /** The report for one key: nothing for an unchanged key or one already gone from `current`. */
  function ItemFor<V(==)>(pristine: map<string, V>, cache: map<string, V>, current: map<string, V>,
                          k: string): Option<Item<V>> {
    if !Changed(pristine, cache, k) then None
    else if k in cache then
      Some(if k in pristine then ModifiedItem(k, pristine[k], cache[k]) else AddedItem(k, cache[k]))
    else if k in current then Some(DeletedItem(k, pristine[k]))
    else None
  }

  /** The dictionary after the keys in `seen` were walked. */
  ghost predicate PartialDict<V>(pristine: map<string, V>, cache: map<string, V>, before: map<string, V>,
                                 seen: set<string>,
                                 current: map<string, V>)
  {
    forall k :: Get(current, k) == if k in seen && Changed(pristine, cache, k) then Get(cache, k) else Get(before, k)
  }

  /** The report after the keys in `seen` were walked: each with something to tell is there, once. */
  ghost predicate PartialReport<V>(pristine: map<string, V>, cache: map<string, V>, before: map<string, V>,
                                   seen: set<string>,
                                   changes: seq<Item<V>>)
  {
    && (forall c :: c in changes ==> c.key in seen && ItemFor(pristine, cache, before, c.key) == Some(c))
    && (forall k :: k in seen && ItemFor(pristine, cache, before, k).Some? ==>
        ItemFor(pristine, cache, before, k).value in changes)
    && (forall i, j :: 0 <= i < j < |changes| ==> changes[i].key != changes[j].key)
  }

  /** The loop of apply_changes after the keys in `seen`. */
  ghost predicate Partial<V>(pristine: map<string, V>, cache: map<string, V>, before: map<string, V>, seen: set<string>,
                             current: map<string, V>, changes: seq<Item<V>>)
  {
    && PartialDict(pristine, cache, before, seen, current)
    && PartialReport(pristine, cache, before, seen, changes)
    && current == Replay(before, changes)
  }

  lemma DictStep<V>(pristine: map<string, V>, cache: map<string, V>, before: map<string, V>, seen: set<string>,
                    current: map<string, V>, key: string, item: Item<V>)
    requires PartialDict(pristine, cache, before, seen, current) && key !in seen
    requires ItemFor(pristine, cache, before, key) == Some(item)
    ensures PartialDict(pristine, cache, before, seen + {key}, Apply(current, item))
  {
    forall k
      ensures Get(Apply(current, item), k) == if k in seen + {key} && Changed(pristine, cache, k) then Get(cache, k)
          else Get(before, k)
    {
      if k != key { assert Get(Apply(current, item), k) == Get(current, k); }
    }
  }

  lemma ReportStep<V>(pristine: map<string, V>, cache: map<string, V>, before: map<string, V>, seen: set<string>,
                      changes: seq<Item<V>>, key: string, item: Item<V>)
    requires PartialReport(pristine, cache, before, seen, changes) && key !in seen
    requires ItemFor(pristine, cache, before, key) == Some(item)
    ensures PartialReport(pristine, cache, before, seen + {key}, changes + [item])
  {
    var changes' := changes + [item];
    assert forall c :: c in changes' <==> c in changes || c == item;
    forall i, j | 0 <= i < j < |changes'|
      ensures changes'[i].key != changes'[j].key
    {
      assert changes'[i] in changes;
    }
  }

  /** One more key, when it has something to report. */
  lemma PartialStep<V>(pristine: map<string, V>, cache: map<string, V>, before: map<string, V>, seen: set<string>,
                       current: map<string, V>, changes: seq<Item<V>>, key: string, item: Item<V>)
    requires Partial(pristine, cache, before, seen, current, changes) && key !in seen
    requires ItemFor(pristine, cache, before, key) == Some(item)
    ensures Partial(pristine, cache, before, seen + {key}, Apply(current, item), changes + [item])
  {
    hide PartialDict, PartialReport;
    DictStep(pristine, cache, before, seen, current, key, item);
    ReportStep(pristine, cache, before, seen, changes, key, item);
    assert (changes + [item])[..|changes + [item]| - 1] == changes;
  }

  /** One more key, when it has not. */
  lemma PartialSkip<V>(pristine: map<string, V>, cache: map<string, V>, before: map<string, V>, seen: set<string>,
                       current: map<string, V>, changes: seq<Item<V>>, key: string)
    requires Partial(pristine, cache, before, seen, current, changes) && key !in seen
    requires ItemFor(pristine, cache, before, key) == None
    ensures Partial(pristine, cache, before, seen + {key}, current, changes)
  {
  }

  lemma PartialStart<V>(pristine: map<string, V>, cache: map<string, V>, before: map<string, V>)
    ensures Partial(pristine, cache, before, {}, before, [])
  {
  }

  /** A key not yet walked is as it was. */
  lemma Untouched<V>(pristine: map<string, V>, cache: map<string, V>, before: map<string, V>, seen: set<string>,
                     current: map<string, V>, changes: seq<Item<V>>, key: string)
    requires Partial(pristine, cache, before, seen, current, changes) && key !in seen
    ensures ItemFor(pristine, cache, current, key) == ItemFor(pristine, cache, before, key)
  {
    assert Get(current, key) == Get(before, key);
  }

  lemma PartialReplays<V>(pristine: map<string, V>, cache: map<string, V>, before: map<string, V>, seen: set<string>,
                          current: map<string, V>, changes: seq<Item<V>>)
    requires Partial(pristine, cache, before, seen, current, changes)
    ensures current == Replay(before, changes)
    ensures forall i, j :: 0 <= i < j < |changes| ==> changes[i].key != changes[j].key
  {
  }

  lemma PartialAll<V>(pristine: map<string, V>, cache: map<string, V>, before: map<string, V>,
                      current: map<string, V>, changes: seq<Item<V>>)
    requires Partial(pristine, cache, before, pristine.Keys + cache.Keys, current, changes)
    ensures current == Merge(pristine, cache, before)
    ensures forall c :: c in changes <==> exists k :: ItemFor(pristine, cache, before, k) == Some(c)
  {
    forall k
      ensures Get(current, k) == if Changed(pristine, cache, k) then Get(cache, k) else Get(before, k)
    {
      assert Changed(pristine, cache, k) ==> k in pristine.Keys + cache.Keys;
    }
    MergeIsUnique(pristine, cache, before, current);
    forall c
      ensures c in changes <==> exists k :: ItemFor(pristine, cache, before, k) == Some(c)
    {
      if k :| ItemFor(pristine, cache, before, k) == Some(c) {
        assert k in pristine.Keys + cache.Keys;
      }
    }
  }

  // ------------------------------------------------------------ the objects

  /** The shared node: None when it does not exist. Every write by anyone moves the version. */
  class Node<V> {
    var content: Option<map<string, V>>
    var version: nat

    constructor (content: Option<map<string, V>>)
      ensures this.content == content
    {
      this.content := content;
      version := 0;
    }

    /** Any other client's write, creation or deletion. */
    method Interfere(content: Option<map<string, V>>)
      modifies this
      ensures this.content == content && version == old(version) + 1
    {
      this.content := content;
      version := version + 1;
    }

    /** A write or creation that succeeds only on the version that was read. */
    method WriteIf(content: map<string, V>, version: nat) returns (ok: bool)
      modifies this
      ensures ok <==> version == old(this.version)
      ensures ok ==> this.content == Some(content) && this.version == old(this.version) + 1
      ensures !ok ==> unchanged(this)
    {
      ok := this.version == version;
      if ok {
        this.content := Some(content);
        this.version := version + 1;
      }
    }
  }

  function Dict<V>(content: Option<map<string, V>>): map<string, V> {
    if content.Some? then content.value else map[]
  }

  datatype Error = NotRead | NoSuchKey | StateNotFound

  class YAMLState<V(==)> {
    var pristine: Option<map<string, V>>
    var cache: map<string, V>

    constructor ()
      ensures pristine == None && cache == map[]
    {
      pristine := None;
      cache := map[];
    }

    method Read(node: Node<V>, required: bool) returns (r: Result<(), Error>)
      modifies this
      ensures pristine == Some(Dict(node.content)) && cache == Dict(node.content)
      ensures r == if node.content.None? && required then Err(StateNotFound) else Ok(())
    {
      pristine := Some(map[]);
      cache := map[];
      if node.content.None? {
        return if required then Err(StateNotFound) else Ok(());
      }
      pristine := node.content;
      cache := node.content.value;
      r := Ok(());
    }

    method GetItem(key: string) returns (r: Result<V, Error>)
      ensures r == if pristine.None? then Err(NotRead) else if key in cache then Ok(cache[key]) else Err(NoSuchKey)
    {
      if pristine.None? { return Err(NotRead); }
      r := if key in cache then Ok(cache[key]) else Err(NoSuchKey);
    }

    method SetItem(key: string, value: V) returns (r: Result<(), Error>)
      modifies this`cache
      ensures r == if pristine.None? then Err(NotRead) else Ok(())
      ensures cache == if r.Ok? then old(cache)[key := value] else old(cache)
    {
      if pristine.None? { return Err(NotRead); }
      cache := cache[key := value];
      r := Ok(());
    }

    method DelItem(key: string) returns (r: Result<(), Error>)
      modifies this`cache
      ensures r == if pristine.None? then Err(NotRead) else if key in old(cache) then Ok(()) else Err(NoSuchKey)
      ensures cache == if r.Ok? then old(cache) - {key} else old(cache)
    {
      if pristine.None? { return Err(NotRead); }
      if key !in cache { return Err(NoSuchKey); }
      cache := cache - {key};
      r := Ok(());
    }

    /** The body of the loop of apply_changes. */
    static method EditKey(pristine: map<string, V>, cache: map<string, V>, current: map<string, V>,
                          changes: seq<Item<V>>, key: string)
      returns (current': map<string, V>, changes': seq<Item<V>>)
      ensures match ItemFor(pristine, cache, current, key)
              case None => current' == current && changes' == changes
              case Some(item) => current' == Apply(current, item) && changes' == changes + [item]
    {
      current', changes' := current, changes;
      if Changed(pristine, cache, key) {
        if key in cache {
          current' := current[key := cache[key]];
          changes' := changes + [if key in pristine then ModifiedItem(key, pristine[key], cache[key])
                                 else AddedItem(key, cache[key])];
        } else if key in current {
          current' := current - {key};
          changes' := changes + [DeletedItem(key, pristine[key])];
        }
      }
    }

    /** apply_changes: walks the keys of both dictionaries, in any order, editing `current` in place. */
    static method ApplyChanges(pristine: map<string, V>, cache: map<string, V>, content: Option<map<string, V>>)
      returns (current: map<string, V>, changes: seq<Item<V>>)
      ensures current == Merge(pristine, cache, Dict(content))
      ensures current == Replay(Dict(content), changes)
      ensures forall c :: c in changes <==> exists k :: ItemFor(pristine, cache, Dict(content), k) == Some(c)
      ensures forall i, j :: 0 <= i < j < |changes| ==> changes[i].key != changes[j].key
    {
      hide Partial, ItemFor, Apply;
      ghost var before := Dict(content);
      current, changes := Dict(content), [];
      var todo := pristine.Keys + cache.Keys;
      ghost var seen: set<string> := {};
      PartialStart(pristine, cache, before);
      while todo != {}
        invariant todo + seen == pristine.Keys + cache.Keys && todo !! seen
        invariant Partial(pristine, cache, before, seen, current, changes)
        decreases |todo|
      {
        var key :| key in todo;
        Untouched(pristine, cache, before, seen, current, changes, key);
        ghost var item := ItemFor(pristine, cache, before, key);
        if item.Some? { PartialStep(pristine, cache, before, seen, current, changes, key, item.value); }
        else { PartialSkip(pristine, cache, before, seen, current, changes, key); }
        current, changes := EditKey(pristine, cache, current, changes, key);
        todo, seen := todo - {key}, seen + {key};
      }
      assert seen == pristine.Keys + cache.Keys;
      PartialAll(pristine, cache, before, current, changes);
      PartialReplays(pristine, cache, before, seen, current, changes);
    }

    /** write. `others` are the contents the node takes by other clients' hands between this
        client's read and its conditional write, one a failed attempt; any number may fail. */
    method Write(node: Node<V>, others: seq<Option<map<string, V>>>) returns (r: Result<seq<Item<V>>, Error>)
      modifies this, node
      ensures old(pristine).None? ==> r == Err(NotRead) && unchanged(this) && unchanged(node)
      ensures old(pristine).Some? ==>
                && r.Ok? && pristine == Some(old(cache)) && cache == old(cache)
                && var replaced := Dict(if others == [] then old(node.content) else others[|others| - 1]);
                   && node.content == Some(Merge(old(pristine).value, cache, replaced))
                   && node.content == Some(Replay(replaced, r.value))
                   && (forall c :: c in r.value <==>
                       exists k :: ItemFor(old(pristine).value, cache, replaced, k) == Some(c))
    {
      if pristine.None? { return Err(NotRead); }
      var was := pristine.value;
      pristine := Some(cache);
      var attempt := 0;
      while true
        invariant 0 <= attempt <= |others|
        invariant node.content == if attempt == 0 then old(node.content) else others[attempt - 1]
        invariant pristine == Some(old(cache)) && cache == old(cache)
        decreases |others| - attempt
      {
        var content, version := node.content, node.version;
        var current, changes := ApplyChanges(was, cache, content);
        if attempt < |others| {
          node.Interfere(others[attempt]);
        }
        var ok := node.WriteIf(current, version);
        if ok { return Ok(changes); }
        attempt := attempt + 1;
      }
    }
  }

  // --------------------------------------------------------------- the report

  /** What is reported of a key, by where it is: an addition where the reader had none and the local copy has
      one, a modification with the value read where both have one and they differ, and a deletion with the
      value read where the local copy has none any more and the replaced content still has. */
  lemma ReportMeans<V>(pristine: map<string, V>, cache: map<string, V>, replaced: map<string, V>, item: Item<V>)
    ensures (exists k :: ItemFor(pristine, cache, replaced, k) == Some(item)) <==>
              match item
              case AddedItem(k, new_) => k !in pristine && k in cache && new_ == cache[k]
              case ModifiedItem(k, old_, new_) =>
                k in pristine && k in cache && old_ == pristine[k] && new_ == cache[k] && old_ != new_
              case DeletedItem(k, old_) => k in pristine && k !in cache && k in replaced && old_ == pristine[k]
  {
    var k := item.key;
    assert forall j :: ItemFor(pristine, cache, replaced, j) == Some(item) ==> j == k;
    if ItemFor(pristine, cache, replaced, k) == Some(item) {
      assert exists j :: ItemFor(pristine, cache, replaced, j) == Some(item);
    }
  }

  // -------------------------------------------------------- several writers

  /** Nothing changed locally: nothing is written over. */
  lemma MergeOfNothing<V>(cache: map<string, V>, current: map<string, V>)
    ensures Merge(cache, cache, current) == current
  {
    SameLookups(Merge(cache, cache, current), current);
  }

  /** Writing twice is writing once. */
  lemma MergeIsIdempotent<V>(pristine: map<string, V>, cache: map<string, V>, current: map<string, V>)
    ensures Merge(pristine, cache, Merge(pristine, cache, current)) == Merge(pristine, cache, current)
  {
    var once := Merge(pristine, cache, current);
    SameLookups(Merge(pristine, cache, once), once);
  }

  /** Writers that changed different keys commute. */
  lemma DisjointWritersCommute<V>(p1: map<string, V>, c1: map<string, V>, p2: map<string, V>, c2: map<string, V>,
                                  current: map<string, V>)
    requires forall k :: !(Changed(p1, c1, k) && Changed(p2, c2, k))
    ensures Merge(p2, c2, Merge(p1, c1, current)) == Merge(p1, c1, Merge(p2, c2, current))
  {
    var a, b := Merge(p1, c1, current), Merge(p2, c2, current);
    SameLookups(Merge(p2, c2, a), Merge(p1, c1, b));
  }

  /** The documentation says that a write leaves the object with the final merged state. It keeps its
      own copy instead, which is the merged state exactly when nobody else touched, since the read,
      a key this writer left alone. */
  lemma LocalCopyIsMergedStateIff<V>(pristine: map<string, V>, cache: map<string, V>, current: map<string, V>)
    ensures Merge(pristine, cache, current) == cache
            <==> forall k :: !Changed(pristine, cache, k) ==> Get(current, k) == Get(pristine, k)
  {
    var r := Merge(pristine, cache, current);
    if forall k :: !Changed(pristine, cache, k) ==> Get(current, k) == Get(pristine, k) {
      SameLookups(r, cache);
    }
    if r == cache {
      assert forall k :: Get(r, k) == Get(cache, k);
    }
  }

  /** A client's pending write: what it read and what it wants. */
  datatype Writer<V> = Writer(pristine: map<string, V>, cache: map<string, V>)

  /** The node after the writers' writes took effect in this order. */
  ghost function AfterAll<V>(current: map<string, V>, ws: seq<Writer<V>>): map<string, V> {
    if ws == [] then current
    else
      var w := ws[|ws| - 1];
      Merge(w.pristine, w.cache, AfterAll(current, ws[..|ws| - 1]))
  }

  /** The last of the writers that changed a key. */
  ghost function LastToChange<V>(ws: seq<Writer<V>>, k: string): (r: Option<nat>)
    ensures r.None? ==> forall i :: 0 <= i < |ws| ==> !Changed(ws[i].pristine, ws[i].cache, k)
    ensures r.Some? ==> r.value < |ws| && Changed(ws[r.value].pristine, ws[r.value].cache, k)
                        && forall i :: r.value < i < |ws| ==> !Changed(ws[i].pristine, ws[i].cache, k)
  {
    if ws == [] then None
    else if Changed(ws[|ws| - 1].pristine, ws[|ws| - 1].cache, k) then Some(|ws| - 1)
    else LastToChange(ws[..|ws| - 1], k)
  }

  /** Whatever the order of the writes, each key ends with the last writer that changed it, or
      untouched if none did: no write undoes another client's change to a key it left alone. */
  lemma {:induction false} LastChangeWins<V>(current: map<string, V>, ws: seq<Writer<V>>, k: string)
    ensures Get(AfterAll(current, ws), k)
         == match LastToChange(ws, k)
            case None => Get(current, k)
            case Some(i) => Get(ws[i].cache, k)
  {
    if ws != [] {
      LastChangeWins(current, ws[..|ws| - 1], k);
    }
  }
}
