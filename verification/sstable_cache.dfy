/** The block cache of sstable/cache.go: least recently used blocks go first. */
module BlockCaches {
  import opened Bytes
  import opened RaftTypes

  datatype Key = Key(file: string, offset: nat)

  datatype Cached = Cached(key: Key, data: Bytes)

  function Total(es: seq<Cached>): nat {
    if es == [] then 0 else Total(es[..|es| - 1]) + |es[|es| - 1].data|
  }

  /** What is left of a list, most recent first, once its back has been cut to fit a budget. */
  function Fit(es: seq<Cached>, budget: nat): (r: seq<Cached>)
    ensures r <= es && Total(r) <= budget
    ensures |r| < |es| ==> Total(es[..|r| + 1]) > budget
  {
    if Total(es) <= budget then
      es
    else
      var init := es[..|es| - 1];
      var r := Fit(init, budget);
      assert |r| < |init| ==> init[..|r| + 1] == es[..|r| + 1];
      assert |r| == |init| ==> es[..|r| + 1] == es;
      r
  }

  /** The list with one entry moved to the front. */
  function Moved(es: seq<Cached>, i: nat): seq<Cached>
    requires i < |es|
  {
    [es[i]] + es[..i] + es[i + 1..]
  }

  ghost predicate NoRepeats(es: seq<Cached>) { forall i, j :: 0 <= i < j < |es| ==> es[i].key != es[j].key }

  // --------------------------------------------------------------------- lemmas

  lemma {:induction false} TotalConcat(a: seq<Cached>, b: seq<Cached>)
    ensures Total(a + b) == Total(a) + Total(b)
    decreases |b|
  {
    if b == [] {
      assert a + b == a;
    } else {
      assert (a + b)[..|a + b| - 1] == a + b[..|b| - 1];
      TotalConcat(a, b[..|b| - 1]);
    }
  }

  lemma TotalOne(e: Cached)
    ensures Total([e]) == |e.data|
  {
    assert [e][..0] == [];
  }

  lemma TotalMoved(es: seq<Cached>, i: nat)
    requires i < |es|
    ensures Total(Moved(es, i)) == Total(es)
  {
    hide Total;
    assert es == es[..i] + [es[i]] + es[i + 1..];
    TotalConcat(es[..i] + [es[i]], es[i + 1..]);
    TotalConcat(es[..i], [es[i]]);
    TotalConcat([es[i]] + es[..i], es[i + 1..]);
    TotalConcat([es[i]], es[..i]);
  }

  /** Cutting the back never reaches an entry that fits on its own at the front. */
  lemma FitKeepsFront(e: Cached, es: seq<Cached>, budget: nat)
    requires |e.data| <= budget
    ensures Fit([e] + es, budget) != [] && Fit([e] + es, budget)[0] == e
  {
    TotalOne(e);
    assert ([e] + es)[..1] == [e];
  }

  lemma MovedKeys(es: seq<Cached>, i: nat)
    requires i < |es| && NoRepeats(es)
    ensures NoRepeats(Moved(es, i)) && forall e :: e in Moved(es, i) <==> e in es
  {
    var m := Moved(es, i);
    forall e | e in es
      ensures e in m
    {
      var j :| 0 <= j < |es| && es[j] == e;
      assert m[if j < i then j + 1 else if j == i then 0 else j] == e;
    }
  }

  // ---------------------------------------------------------------------- the cache

  class BlockCache {
    const maxBytes: int
    var curBytes: int
    var order: seq<Cached>
    var items: map<Key, Bytes>

    /** The list and the map hold the same blocks, and the byte count is theirs. */
    ghost predicate Loose()
      reads this
    {
      && NoRepeats(order)
      && (forall e :: e in order ==> e.key in items && items[e.key] == e.data)
      && (forall k :: k in items ==> Cached(k, items[k]) in order)
      && curBytes == Total(order)
    }

    /** What put restores: the budget holds too. */
    ghost predicate Valid()
      reads this
    {
      Loose() && (order != [] ==> curBytes <= maxBytes)
    }

    constructor (maxBytes: int)
      ensures Valid() && order == [] && this.maxBytes == maxBytes
    {
      this.maxBytes, curBytes, order, items := maxBytes, 0, [], map[];
    }

    /** Where the list holds a key. */
    method Position(k: Key) returns (i: nat)
      requires Valid() && k in items
      ensures i < |order| && order[i] == Cached(k, items[k])
    {
      ghost var at: nat :| at < |order| && order[at] == Cached(k, items[k]);
      i := 0;
      while order[i].key != k
        invariant i <= at && forall j :: 0 <= j < i ==> order[j].key != k
        decreases at - i
      {
        i := i + 1;
      }
      assert order[i] in order;
    }

    /** get: a hit moves its block to the front. */
    method Get(k: Key) returns (r: Option<Bytes>)
      requires Valid()
      modifies this`order
      ensures Valid() && r == if k in items then Some(items[k]) else None
      ensures r.None? ==> order == old(order)
      ensures r.Some? ==> exists i :: 0 <= i < |old(order)| && old(order)[i].key == k && order == Moved(old(order), i)
    {
      if k !in items { return None; }
      var i := Position(k);
      MovedKeys(order, i);
      TotalMoved(order, i);
      order := [order[i]] + order[..i] + order[i + 1..];
      assert order == Moved(old(order), i);
      return Some(items[k]);
    }

    /** evictOldest. */
    method EvictOldest()
      requires Loose() && order != []
      modifies this
      ensures Loose() && order == old(order)[..|old(order)| - 1] && items.Keys == old(items).Keys - {old(order)[|old(order)| - 1].key}
      ensures forall k :: k in items ==> items[k] == old(items)[k]
    {
      var last := order[|order| - 1];
      order := order[..|order| - 1];
      items := items - {last.key};
      curBytes := curBytes - |last.data|;
      assert old(order) == order + [last];
    }

    /**
     * put: a new block goes to the front, and blocks leave from the back until the budget holds;
     * a block already there is only refreshed, and one larger than the whole cache is not stored.
     */
    method Put(k: Key, data: Bytes)
      requires Valid()
      modifies this
      ensures Valid()
      ensures maxBytes <= 0 || (k !in old(items) && |data| > maxBytes) ==> order == old(order)
      ensures maxBytes > 0 && k !in old(items) && |data| <= maxBytes ==> order == Fit([Cached(k, data)] + old(order), maxBytes)
      ensures maxBytes > 0 && k !in old(items) && |data| <= maxBytes ==> order != [] && order[0] == Cached(k, data)
      ensures maxBytes > 0 && k in old(items) ==>
        exists i :: 0 <= i < |old(order)| && old(order)[i].key == k && order == Moved(old(order), i)
    {
      if maxBytes <= 0 { return; }
      if k in items {
        var r := Get(k);
        return;
      }
      if |data| > maxBytes { return; }
      FitKeepsFront(Cached(k, data), order, maxBytes);
      Push(k, data);
      ghost var full := order;
      while curBytes > maxBytes
        invariant Loose() && order <= full && Fit(full, maxBytes) == Fit(order, maxBytes)
        decreases |order|
      {
        assert order != [];
        EvictOldest();
      }
      FitWhole(order, maxBytes);
    }

    method Push(k: Key, data: Bytes)
      requires Loose() && k !in items
      modifies this
      ensures Loose() && order == [Cached(k, data)] + old(order)
    {
      TotalOne(Cached(k, data));
      TotalConcat([Cached(k, data)], order);
      order := [Cached(k, data)] + order;
      items := items[k := data];
      curBytes := curBytes + |data|;
    }
  }

  lemma FitWhole(es: seq<Cached>, budget: nat)
    requires Total(es) <= budget
    ensures Fit(es, budget) == es
  {
  }
}
