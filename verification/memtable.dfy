/** The order of bytes.Compare. */
module ByteOrder {
  import opened Bytes

  predicate Less(a: Bytes, b: Bytes) {
    b != [] && (a == [] || a[0] < b[0] || (a[0] == b[0] && Less(a[1..], b[1..])))
  }

  lemma {:induction false} LessNotEqual(a: Bytes)
    ensures !Less(a, a)
  {
    if a != [] { LessNotEqual(a[1..]); }
  }

  lemma {:induction false} LessTrans(a: Bytes, b: Bytes, c: Bytes)
    requires Less(a, b) && Less(b, c)
    ensures Less(a, c)
  {
    if a != [] && a[0] == b[0] && b[0] == c[0] { LessTrans(a[1..], b[1..], c[1..]); }
  }

  lemma {:induction false} LessTotal(a: Bytes, b: Bytes)
    ensures Less(a, b) || a == b || Less(b, a)
  {
    if a != [] && b != [] && a[0] == b[0] {
      LessTotal(a[1..], b[1..]);
      assert a == [a[0]] + a[1..] && b == [b[0]] + b[1..];
    }
  }

  lemma LessAsym(a: Bytes, b: Bytes)
    requires Less(a, b)
    ensures !Less(b, a) && a != b
  {
    LessNotEqual(a);
    if Less(b, a) { LessTrans(a, b, a); }
  }
}

/** A memtable as a sorted run of items: what the skip list stands for, and what an SSTable stores. */
module Runs {
  import opened Bytes
  import opened RaftTypes
  import opened ByteOrder

  /** One entry: a value, or a tombstone for a deleted key. */
  datatype Item = Item(key: Bytes, value: Bytes, seqNum: nat, deleted: bool)

  ghost predicate Sorted(items: seq<Item>) {
    forall i, j :: 0 <= i < j < |items| ==> Less(items[i].key, items[j].key)
  }

  function Find(items: seq<Item>, key: Bytes): (r: Option<Item>)
    ensures r.Some? ==> r.value in items && r.value.key == key
    ensures r.None? ==> forall it :: it in items ==> it.key != key
  {
    if items == [] then None
    else if items[|items| - 1].key == key then Some(items[|items| - 1])
    else Find(items[..|items| - 1], key)
  }

  const NodeOverhead: nat := 48

  function ItemSize(it: Item): nat { |it.key| + |it.value| + NodeOverhead }

  function Size(items: seq<Item>): nat {
    if items == [] then 0 else Size(items[..|items| - 1]) + ItemSize(items[|items| - 1])
  }

  /** The position of the first key not below the given one. */
  ghost predicate Splits(items: seq<Item>, key: Bytes, p: nat) {
    && p <= |items|
    && (forall i :: 0 <= i < p ==> Less(items[i].key, key))
    && (forall i :: p <= i < |items| ==> !Less(items[i].key, key))
  }

  /** The run with an item written over its key's, or put in its place. */
  ghost function Write(items: seq<Item>, it: Item, p: nat): seq<Item>
    requires p <= |items|
  {
    if p < |items| && items[p].key == it.key then items[p := it] else items[..p] + [it] + items[p..]
  }

  // --------------------------------------------------------------------- lemmas

  lemma {:induction false} SizeAppend(a: seq<Item>, b: seq<Item>)
    ensures Size(a + b) == Size(a) + Size(b)
    decreases |b|
  {
    if b == [] {
      assert a + b == a;
    } else {
      assert (a + b)[..|a + b| - 1] == a + b[..|b| - 1];
      SizeAppend(a, b[..|b| - 1]);
    }
  }

  lemma SizeOne(it: Item)
    ensures Size([it]) == ItemSize(it)
  {
    assert [it][..0] == [];
  }

  lemma SizeAround(a: seq<Item>, it: Item, b: seq<Item>)
    ensures Size(a + [it] + b) == Size(a) + ItemSize(it) + Size(b)
  {
    SizeAppend(a + [it], b);
    SizeAppend(a, [it]);
    SizeOne(it);
  }

  /** What a write adds to the total size. */
  lemma WriteSize(items: seq<Item>, it: Item, p: nat)
    requires p <= |items|
    ensures Size(Write(items, it, p)) - Size(items)
            == if p < |items| && items[p].key == it.key then ItemSize(it) - ItemSize(items[p]) else ItemSize(it)
  {
    hide Size;
    if p < |items| && items[p].key == it.key {
      assert items == items[..p] + [items[p]] + items[p + 1..] && items[p := it] == items[..p] + [it] + items[p + 1..];
      SizeAround(items[..p], items[p], items[p + 1..]);
      SizeAround(items[..p], it, items[p + 1..]);
    } else {
      assert items == items[..p] + items[p..];
      SizeAppend(items[..p], items[p..]);
      SizeAround(items[..p], it, items[p..]);
    }
  }

  lemma {:induction false} FindAt(items: seq<Item>, i: nat)
    requires Sorted(items) && i < |items|
    ensures Find(items, items[i].key) == Some(items[i])
    decreases |items|
  {
    var last := items[|items| - 1];
    if i < |items| - 1 {
      LessAsym(items[i].key, last.key);
      FindAt(items[..|items| - 1], i);
    }
  }

  lemma FindNone(items: seq<Item>, key: Bytes)
    requires forall it :: it in items ==> it.key != key
    ensures Find(items, key) == None
  {
  }

  lemma WriteSorted(items: seq<Item>, it: Item, p: nat)
    requires Sorted(items) && Splits(items, it.key, p)
    ensures Sorted(Write(items, it, p))
  {
    if p == |items| || items[p].key != it.key {
      forall i | p <= i < |items|
        ensures Less(it.key, items[i].key)
      {
        LessTotal(it.key, items[i].key);
        if i > p && items[i].key == it.key { assert Less(items[p].key, items[i].key); }
      }
    }
  }

  /** The run behaves as a map: a write changes the answer for its own key only. */
  lemma FindWrite(items: seq<Item>, it: Item, p: nat, key: Bytes)
    requires Sorted(items) && Splits(items, it.key, p)
    ensures Find(Write(items, it, p), key) == if key == it.key then Some(it) else Find(items, key)
  {
    hide Find;
    var w := Write(items, it, p);
    WriteSorted(items, it, p);
    if key == it.key {
      FindAt(w, p);
    } else if Find(items, key).Some? {
      var i :| 0 <= i < |items| && items[i] == Find(items, key).value;
      FindAt(items, i);
      FindAt(w, if w[i] == items[i] then i else i + 1);
    } else {
      forall x | x in w
        ensures x.key != key
      {
        assert x == it || x in items;
      }
    }
  }

  /** A key that is not at its place is nowhere. */
  lemma FindSplit(items: seq<Item>, key: Bytes, p: nat)
    requires Sorted(items) && Splits(items, key, p) && (p < |items| ==> items[p].key != key)
    ensures Find(items, key) == None
  {
    forall it | it in items
      ensures it.key != key
    {
      var i :| 0 <= i < |items| && items[i] == it;
      if i < p {
        LessAsym(items[i].key, key);
      } else if i > p {
        LessTotal(key, items[p].key);
        LessTrans(key, items[p].key, items[i].key);
        LessAsym(key, items[i].key);
      }
    }
  }
}
