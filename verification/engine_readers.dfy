/** The names of an engine's tables. */
module TableNames {

  /** A number in decimal. */
  function Decimal(n: nat): string {
    if n < 10 then [Digit(n)] else Decimal(n / 10) + [Digit(n % 10)]
  }

  function Digit(d: nat): char
    requires d < 10
  {
    '0' + d as char
  }

  function Padded(s: string, width: nat): string
    decreases width - |s|
  {
    if |s| < width then Padded("0" + s, width) else s
  }

  function TableName(n: nat): string { Padded(Decimal(n), 6) + ".sst" }

  /** What a string of digits stands for. */
  function Value(s: string): int {
    if s == "" then 0 else 10 * Value(s[..|s| - 1]) + (s[|s| - 1] as int - '0' as int)
  }

  lemma {:induction false} DecimalValue(n: nat)
    ensures Value(Decimal(n)) == n
  {
    if n < 10 {
      assert [Digit(n)][..0] == "";
    } else {
      DecimalValue(n / 10);
      var s := Decimal(n / 10);
      assert (s + [Digit(n % 10)])[..|s|] == s;
    }
  }

  lemma {:induction false} ZeroFirst(s: string)
    ensures Value("0" + s) == Value(s)
    decreases |s|
  {
    if s == "" {
      assert "0"[..0] == "" && "0" + s == "0";
    } else {
      var n := |s| - 1;
      assert ("0" + s)[..n + 1] == "0" + s[..n];
      ZeroFirst(s[..n]);
    }
  }

  lemma {:induction false} PaddedValue(s: string, width: nat)
    ensures Value(Padded(s, width)) == Value(s)
    decreases width - |s|
  {
    if |s| < width {
      ZeroFirst(s);
      PaddedValue("0" + s, width);
    }
  }

  /** Two tables never share a name. */
  lemma NamesDiffer(m: nat, n: nat)
    ensures TableName(m) == TableName(n) ==> m == n
  {
    hide Decimal, Padded, Value;
    var a, b := Padded(Decimal(m), 6), Padded(Decimal(n), 6);
    DecimalValue(m);
    DecimalValue(n);
    PaddedValue(Decimal(m), 6);
    PaddedValue(Decimal(n), 6);
    assert (a + ".sst")[..|a + ".sst"| - 4] == a && (b + ".sst")[..|b + ".sst"| - 4] == b;
  }
}

/**
 * An engine's open tables: readers of real files over one block cache.  No number is ever used for two
 * tables while a cache lives (see `EngineRuns.NumbersRise`), so the cache never holds another file's blocks.
 */
module EngineReaders {
  import opened Bytes
  import opened RaftTypes
  import opened LittleEndian
  import opened Runs
  import opened Bloom
  import opened TableLayout
  import opened TableLookup
  import opened BlockCaches
  import opened TableReading
  import opened TableTrips
  import opened TableNames
  import opened Stores
  import opened EngineSteps
  import opened Memtables
  import opened Engines

  /** The file is a table of these entries, as the Writer leaves one (see `TableReading.FinishedTable`). */
  ghost predicate Reads(crc: Checksum, hash: Hash, file: Bytes, items: seq<Item>) {
    OpenTable(crc, file).Some? && ReadsAs(crc, hash, file, OpenTable(crc, file).value, items)
  }

  ghost predicate ReadsAs(crc: Checksum, hash: Hash, file: Bytes, table: Table, items: seq<Item>) {
    && OneBlockPerOffset(table.index) && IndexSorted(table.index)
    && forall key :: GetIn(crc, hash, file, table, key) == Some(Find(items, key))
  }

  /** The reader stands for the table. */
  ghost predicate Stands(r: Reader, t: SSTable, cache: BlockCache) {
    r.cache == cache && r.path == TableName(t.number) && ReadsAs(r.crc, r.hash, r.file, r.table, t.items)
  }

  /** Every cached block is of a file that has been opened. */
  ghost predicate Named(held: seq<Cached>, used: set<nat>) {
    forall c :: c in held ==> exists n :: n in used && c.key.file == TableName(n)
  }

  class Shelf {
    const crc: Checksum
    const hash: Hash
    const cache: BlockCache
    var readers: seq<Reader>
    /** What they stand for, newest first, and the numbers of all tables opened so far. */
    ghost var tables: seq<SSTable>
    ghost var used: set<nat>

    ghost predicate Valid()
      reads this, cache
    {
      && cache.Valid() && |readers| == |tables| && Named(cache.order, used)
      && (forall i :: 0 <= i < |tables| ==> tables[i].number in used && Stands(readers[i], tables[i], cache))
      && (forall i, j :: 0 <= i < j < |tables| ==> tables[i].number != tables[j].number)
      && (forall i :: 0 <= i < |tables| ==> Faithful(readers[i], cache.order))
    }

    constructor (crc: Checksum, hash: Hash, cacheBytes: int)
      ensures Valid() && fresh(cache) && tables == [] && used == {} && this.crc == crc && this.hash == hash
    {
      this.crc, this.hash, readers, tables, used := crc, hash, [], [], {};
      cache := new BlockCache(cacheBytes);
    }

    /** A table found on disk goes below the ones opened before it; false when it cannot be opened. */
    method Load(number: nat, file: Bytes, ghost items: seq<Item>) returns (ok: bool)
      requires Valid() && number !in used && (OpenTable(crc, file).Some? ==> Reads(crc, hash, file, items))
      modifies this
      ensures Valid() && ok == OpenTable(crc, file).Some?
      ensures tables == (if ok then old(tables) + [SSTable(number, items)] else old(tables)) && used == (if ok then old(used) + {number} else old(used))
    {
      hide OpenTable, ReadsAs, Find, Faithful, Named, BlockCache.Valid;
      var r := OpenWithCache(crc, hash, TableName(number), file, cache);
      if r == null { return false; }
      Foreign(r, number, cache.order, used);
      NamedMore(cache.order, used, number);
      readers, tables, used := readers + [r], tables + [SSTable(number, items)], used + {number};
      return true;
    }

    /** A flush's table, or with `alone` a restored snapshot's, which takes the place of all others. */
    method Add(number: nat, items: seq<Item>, blockSize: int, m: nat, k: nat, alone: bool) returns (file: Bytes)
      requires Valid() && number !in used && Sorted(items) && TableLookup.AllFit(items) && m + 7 < TwoTo64 && k < TwoTo32
      modifies this
      ensures |file| < TwoTo64 ==> Valid() && used == old(used) + {number}
      ensures |file| < TwoTo64 ==> tables == [SSTable(number, items)] + if alone then [] else old(tables)
    {
      hide OpenTable, Find, Faithful, Named, Sorted, TableLookup.AllFit, Reader.Valid, ReadsAs;
      NotSeen(cache.order, used, number);
      var r;
      ghost var blocks;
      r, file, blocks := WriteAndOpen(crc, hash, TableName(number), blockSize, items, m, k, cache);
      if |file| < TwoTo64 {
        Opened(r, items);
        Front(r, number, items, alone);
      }
    }

    method Front(r: Reader, number: nat, ghost items: seq<Item>, alone: bool)
      requires Valid() && number !in used && Stands(r, SSTable(number, items), cache)
      modifies this
      ensures Valid() && used == old(used) + {number} && tables == [SSTable(number, items)] + if alone then [] else old(tables)
    {
      hide ReadsAs, Faithful, Named, BlockCache.Valid;
      Foreign(r, number, cache.order, used);
      NamedMore(cache.order, used, number);
      if alone { readers, tables := [], []; }
      readers, tables, used := [r] + readers, [SSTable(number, items)] + tables, used + {number};
    }

    /** Get's loop over the tables, newest first: the first that knows the key decides. */
    method Search(key: Bytes) returns (r: Option<Bytes>)
      requires Valid()
      modifies cache
      ensures Valid() && r == Answer(Stack(tables), key)
    {
      hide LayerOf, Find, Stack, Shelf.Valid, ReadsAs;
      SameCount(this);
      var i := 0;
      while i < |readers|
        invariant Valid() && |readers| == |tables| && 0 <= i <= |tables| && Answer(Stack(tables), key) == Answer(Stack(tables[i..]), key)
      {
        var found := Ask(i, key);
        StackTop(tables[i..], key);
        assert tables[i..][1..] == tables[i + 1..];
        if found.Some? { return EntryOfItem(found.value); }
        i := i + 1;
      }
      assert tables[i..] == [];
      StackNone(key);
      return None;
    }

    /** One table's answer; the others' blocks stay what they were. */
    method Ask(i: nat, key: Bytes) returns (r: Option<Item>)
      requires Valid() && i < |readers|
      modifies cache
      ensures Valid() && |readers| == |tables| && r == Find(tables[i].items, key)
    {
      hide Find, GetIn, Honest, Named, OnlyFor, OneBlockPerOffset, IndexSorted, BlockCache.Valid;
      ghost var held := cache.order;
      var found := readers[i].Get(key);
      NamedStill(held, cache.order, used, tables[i].number);
      forall j | 0 <= j < |tables|
        ensures Faithful(readers[j], cache.order)
      {
        if j != i {
          NamesDiffer(tables[i].number, tables[j].number);
          HonestStill(readers[j], readers[i].path, held, cache.order);
        }
      }
      r := found.value;
    }
  }

  /** What the cache holds for the reader's file is what is in it. */
  ghost predicate Faithful(r: Reader, held: seq<Cached>) { Honest(r.crc, r.path, r.file, r.table.index, held) }

  lemma SameCount(s: Shelf)
    requires s.Valid()
    ensures |s.readers| == |s.tables|
  {
  }

  lemma NotSeen(held: seq<Cached>, used: set<nat>, number: nat)
    requires Named(held, used) && number !in used
    ensures forall c :: c in held ==> c.key.file != TableName(number)
  {
    hide TableName;
    forall c | c in held
      ensures c.key.file != TableName(number)
    {
      var n :| n in used && c.key.file == TableName(n);
      NamesDiffer(n, number);
    }
  }

  lemma Foreign(r: Reader, number: nat, held: seq<Cached>, used: set<nat>)
    requires Named(held, used) && number !in used && r.path == TableName(number)
    ensures Faithful(r, held)
  {
    hide TableName, Named;
    NotSeen(held, used, number);
  }

  lemma NamedMore(held: seq<Cached>, used: set<nat>, number: nat)
    requires Named(held, used)
    ensures Named(held, used + {number})
  {
    hide TableName;
  }

  lemma NamedStill(held: seq<Cached>, now: seq<Cached>, used: set<nat>, number: nat)
    requires Named(held, used) && OnlyFor(TableName(number), held, now) && number in used
    ensures Named(now, used)
  {
    hide TableName;
  }

  lemma HonestStill(r: Reader, path: string, held: seq<Cached>, now: seq<Cached>)
    requires Faithful(r, held) && OnlyFor(path, held, now) && path != r.path
    ensures Faithful(r, now)
  {
    hide ReadChecked;
  }

  lemma Opened(r: Reader, items: seq<Item>)
    requires r.Valid() && forall key :: GetIn(r.crc, r.hash, r.file, r.table, key) == Some(Find(items, key))
    ensures ReadsAs(r.crc, r.hash, r.file, r.table, items)
  {
    hide GetIn, Find;
  }

  /** Get with the tables searched through their readers: the answer is the engine's. */
  method GetThrough(e: Engine, shelf: Shelf, key: Bytes) returns (r: Option<Bytes>)
    requires e.Valid() && shelf.Valid() && shelf.tables == e.sstables
    requires shelf.cache !in e.mem.repr && (e.immutable != null ==> shelf.cache !in e.immutable.repr)
    modifies shelf.cache
    ensures e.Valid() && shelf.Valid() && r == Answer(View(e.Now()), key)
  {
    hide Stack, View, Good, Memtable.Valid, Shelf.Valid;
    ghost var now := e.Now();
    var known := e.GetFromMemory(key);
    if known.Some? { return known.value; }
    r := shelf.Search(key);
    assert e.Now() == now;
  }
}
