/** Writing and reading SSTable files: the Writer, Reader and Iterator objects. */
module TableFiles {
  import opened Bytes
  import opened LittleEndian
  import opened ByteOrder
  import opened Runs
  import opened Bloom
  import opened TableBlocks
  import opened TableLayout
  import opened TableLookup

  const DefaultBlockSize: nat := 4096

  function MaxSeq(items: seq<Item>): nat {
    if items == [] then 0
    else
      var m := MaxSeq(items[..|items| - 1]);
      if items[|items| - 1].seqNum > m then items[|items| - 1].seqNum else m
  }

  lemma {:induction false} EncodeEmpty(items: seq<Item>)
    ensures EncodeItems(items) == [] <==> items == []
  {
    hide EncodeItem;
  }

  /** An entry may follow the others: the first one, or a larger key. */
  ghost predicate Follows(items: seq<Item>, key: Bytes) {
    items == [] || Less(items[|items| - 1].key, key)
  }

  lemma AppendSorted(items: seq<Item>, it: Item)
    requires Sorted(items) && Follows(items, it.key)
    ensures Sorted(items + [it])
  {
    AllBelow(items, it.key);
  }

  /** The file and the index are those of the blocks flushed so far; what is pending is the rest. */
  ghost predicate Laid(crc: Checksum, blocks: seq<seq<Item>>, cur: seq<Item>, file: Bytes, offset: nat, index: seq<IndexEntry>, pending: Bytes) {
    NonEmpty(blocks) && file == DataBytes(crc, blocks) && offset == |file| && index == IndexOf(crc, blocks) && pending == EncodeItems(cur)
  }

  /** The counters are those of the entries added so far. */
  ghost predicate Tally(items: seq<Item>, keys: seq<Bytes>, lastKey: Bytes, haveLastKey: bool, numEntries: nat, maxSeq: nat) {
    && Sorted(items) && numEntries == |items| && maxSeq == MaxSeq(items)
    && |keys| == |items| && (forall i :: 0 <= i < |keys| ==> keys[i] == items[i].key)
    && haveLastKey == (items != []) && (items != [] ==> lastKey == items[|items| - 1].key)
  }

  lemma TallyMore(items: seq<Item>, keys: seq<Bytes>, lastKey: Bytes, haveLastKey: bool, numEntries: nat, maxSeq: nat, it: Item)
    requires Tally(items, keys, lastKey, haveLastKey, numEntries, maxSeq) && Follows(items, it.key)
    ensures Tally(items + [it], keys + [it.key], it.key, true, numEntries + 1, if it.seqNum > maxSeq then it.seqNum else maxSeq)
  {
    AppendSorted(items, it);
    assert (items + [it])[..|items|] == items;
  }

  lemma LaidMore(crc: Checksum, blocks: seq<seq<Item>>, cur: seq<Item>, file: Bytes, offset: nat, index: seq<IndexEntry>, pending: Bytes, it: Item)
    requires Laid(crc, blocks, cur, file, offset, index, pending)
    ensures Laid(crc, blocks, cur + [it], file, offset, index, pending + EncodeItem(it))
    ensures Flatten(blocks) + (cur + [it]) == Flatten(blocks) + cur + [it]
  {
    assert (cur + [it])[..|cur|] == cur;
  }

  lemma LaidFlush(crc: Checksum, blocks: seq<seq<Item>>, cur: seq<Item>, file: Bytes, offset: nat, index: seq<IndexEntry>, pending: Bytes)
    requires Laid(crc, blocks, cur, file, offset, index, pending) && cur != []
    ensures Laid(crc, blocks + [cur], [], file + Checked(crc, pending), offset + |pending| + 4,
                 index + [IndexEntry(LastKey(cur), offset, |pending| + 4)], [])
    ensures Flatten(blocks + [cur]) + [] == Flatten(blocks) + cur
  {
    hide EncodeItems, DataBytes, IndexOf, Flatten, Checked;
    BlockAdded(crc, blocks, cur);
    EncodeEmpty([]);
  }

  /** A block was cut as soon as it reached the block size, and not before. */
  predicate Full(block: seq<Item>, size: nat) {
    block != [] && |EncodeItems(block)| >= size && |EncodeItems(block[..|block| - 1])| < size
  }

  /** All blocks were, but for a last one that Finish sends out as it is. */
  predicate Filled(blocks: seq<seq<Item>>, size: nat, closed: bool) {
    forall i :: 0 <= i < |blocks| ==>
      Full(blocks[i], size) || (closed && i == |blocks| - 1 && blocks[i] != [] && |EncodeItems(blocks[i])| < size)
  }

  lemma FilledMore(blocks: seq<seq<Item>>, size: nat, block: seq<Item>, closed: bool)
    requires Filled(blocks, size, false) && (Full(block, size) || (closed && block != [] && |EncodeItems(block)| < size))
    ensures Filled(blocks + [block], size, closed)
  {
    hide Full, EncodeItems;
  }

  lemma FilledStill(blocks: seq<seq<Item>>, size: nat)
    requires Filled(blocks, size, false)
    ensures Filled(blocks, size, true)
  {
    hide Full, EncodeItems;
  }

  lemma FullNow(cur: seq<Item>, it: Item, size: nat)
    requires |EncodeItems(cur)| < size && |EncodeItems(cur + [it])| >= size
    ensures Full(cur + [it], size)
  {
    hide EncodeItems;
    assert (cur + [it])[..|cur|] == cur;
  }

  class Writer {
    const crc: Checksum
    const hash: Hash
    const blockSize: nat
    var file: Bytes
    var offset: nat
    var curBlock: Bytes
    var index: seq<IndexEntry>
    var keys: seq<Bytes>
    var lastKey: Bytes
    var haveLastKey: bool
    var numEntries: nat
    var maxSeq: nat
    var closed: bool
    ghost var blocks: seq<seq<Item>>
    ghost var cur: seq<Item>

    /** Everything added so far. */
    ghost function Items(): seq<Item>
      reads this
    {
      Flatten(blocks) + cur
    }

    ghost predicate Flushed()
      reads this
    {
      Laid(crc, blocks, cur, file, offset, index, curBlock)
    }

    ghost predicate Counted()
      reads this
    {
      Tally(Items(), keys, lastKey, haveLastKey, numEntries, maxSeq)
    }

    ghost predicate Valid()
      reads this
    {
      && Counted() && (!closed ==> Flushed() && Filled(blocks, blockSize, false) && |curBlock| < blockSize)
    }

    constructor (crc: Checksum, hash: Hash, blockSize: int)
      ensures Valid() && !closed && Items() == [] && this.crc == crc && this.hash == hash
      ensures this.blockSize == if blockSize <= 0 then DefaultBlockSize else blockSize
    {
      this.crc, this.hash := crc, hash;
      this.blockSize := if blockSize <= 0 then DefaultBlockSize else blockSize;
      file, offset, curBlock, index, keys := [], 0, [], [], [];
      lastKey, haveLastKey, numEntries, maxSeq, closed := [], false, 0, 0, false;
      blocks, cur := [], [];
    }

    /** Add; false stands for an entry after Finish, out of order, or for a key already there. */
    method Add(it: Item) returns (ok: bool)
      requires Valid()
      modifies this
      ensures Valid() && closed == old(closed)
      ensures ok == (!old(closed) && Follows(old(Items()), it.key))
      ensures Items() == if ok then old(Items()) + [it] else old(Items())
    {
      hide Tally, Laid, Flatten, Full, EncodeItems, Filled;
      if closed { return false; }
      CurIs(crc, blocks, cur, file, offset, index, curBlock);
      LastAdded(Items(), keys, lastKey, haveLastKey, numEntries, maxSeq);
      if haveLastKey && !Less(lastKey, it.key) { return false; }
      ghost var was := cur;
      Append(it);
      CurIs(crc, blocks, cur, file, offset, index, curBlock);
      if |curBlock| >= blockSize {
        FullNow(was, it, blockSize);
        FilledMore(blocks, blockSize, cur, false);
        FlushBlock();
      }
      return true;
    }

    method Append(it: Item)
      requires Flushed() && Counted() && Follows(Items(), it.key)
      modifies this`curBlock, this`cur, this`keys, this`lastKey, this`haveLastKey, this`numEntries, this`maxSeq
      ensures Flushed() && Counted() && Items() == old(Items()) + [it] && cur == old(cur) + [it]
    {
      hide Tally, Laid, Flatten, EncodeItem;
      TallyMore(Items(), keys, lastKey, haveLastKey, numEntries, maxSeq, it);
      LaidMore(crc, blocks, cur, file, offset, index, curBlock, it);
      curBlock, cur := curBlock + EncodeItem(it), cur + [it];
      keys, lastKey, haveLastKey, numEntries := keys + [it.key], it.key, true, numEntries + 1;
      if it.seqNum > maxSeq { maxSeq := it.seqNum; }
    }

    /** writeChecksummed. */
    method WriteChecksummed(data: Bytes) returns (length: nat)
      modifies this`file, this`offset
      ensures file == old(file) + Checked(crc, data) && offset == old(offset) + length && length == |data| + 4
    {
      var buf := data + Put(4, crc(data));
      file := file + buf;
      length := |buf|;
      offset := offset + length;
    }

    /** flushBlock: the pending block goes out, and the index gains an entry for it. */
    method FlushBlock()
      requires Flushed() && Counted()
      modifies this`file, this`offset, this`index, this`curBlock, this`blocks, this`cur
      ensures Flushed() && Counted() && Items() == old(Items()) && cur == [] && curBlock == []
      ensures blocks == if old(cur) == [] then old(blocks) else old(blocks) + [old(cur)]
    {
      hide Tally, Laid, Checked, Flatten;
      Pending(crc, blocks, cur, file, offset, index, curBlock);
      if |curBlock| == 0 { return; }
      LastAdded(Items(), keys, lastKey, haveLastKey, numEntries, maxSeq);
      LaidFlush(crc, blocks, cur, file, offset, index, curBlock);
      assert Items()[|Items()| - 1] == cur[|cur| - 1];
      var start := offset;
      var length := WriteChecksummed(curBlock);
      index := index + [IndexEntry(lastKey, start, length)];
      blocks, cur, curBlock := blocks + [cur], [], [];
    }

    /** The filter loop of Finish: every key is added. */
    method BuildFilter(m: nat, k: nat) returns (f: Filter)
      requires m + 7 < TwoTo64
      ensures f.m == m && f.k == k && |f.bits| == BytesFor(m)
      ensures Exact(f, hash, set key | key in keys) && forall i :: 0 <= i < |keys| ==> May(f, hash, keys[i])
    {
      hide May, Exact;
      var bf := new BloomFilter(hash, m, k);
      for i := 0 to |keys|
        invariant bf.Valid(hash) && fresh(bf) && fresh(bf.bits)
        invariant bf.m == m && bf.k == k && bf.added == set key | key in keys[..i]
      {
        bf.Add(hash, keys[i]);
        assert keys[..i + 1] == keys[..i] + [keys[i]];
      }
      f := Filter(bf.m, bf.k, bf.bits[..]);
      assert keys[..|keys|] == keys;
      forall i | 0 <= i < |keys| ensures May(f, hash, keys[i]) { MayExact(f, hash, bf.added, keys[i]); }
    }

    /**
     * Finish: the last block, the filter, the index and the footer go out.  The filter's size and
     * hash count are whatever bloomParams computes.
     */
    method Finish(m: nat, k: nat) returns (ok: bool, f: Filter)
      requires Valid() && m + 7 < TwoTo64
      modifies this
      ensures ok == !old(closed) && closed && Items() == old(Items()) && Valid()
      ensures ok ==>
        && NonEmpty(blocks) && Flatten(blocks) == Items() && f.m == m && f.k == k && |f.bits| == BytesFor(m)
        && (forall it :: it in Items() ==> May(f, hash, it.key)) && Exact(f, hash, set it | it in Items() :: it.key)
        && file == TableBytes(crc, DataBytes(crc, blocks), f, IndexOf(crc, blocks), numEntries, maxSeq)
        && Filled(blocks, blockSize, true)
    {
      hide Tally, Laid, Checked, Flatten, DataBytes, IndexOf, EncodeFilter, EncodeIndex, Footer, May, Exact, Filled, Full, EncodeItems;
      f := Filter(0, 0, []);
      if closed { return false, f; }
      CurIs(crc, blocks, cur, file, offset, index, curBlock);
      FilledStill(blocks, blockSize);
      if cur != [] { FilledMore(blocks, blockSize, cur, true); }
      closed := true;
      FlushBlock();
      f := BuildFilter(m, k);
      KeysCovered(Items(), keys, lastKey, haveLastKey, numEntries, maxSeq, f, hash);
      LaidFacts(crc, blocks, cur, file, offset, index, curBlock);
      ghost var data := file;
      var bloomOffset := offset;
      var bloomLength := WriteChecksummed(EncodeFilter(f));
      var indexOffset := offset;
      var indexLength := WriteChecksummed(EncodeIndex(index));
      file := file + Footer(indexOffset, indexLength, bloomOffset, bloomLength, numEntries, maxSeq);
      offset := offset + FooterSize;
      return true, f;
    }
  }

  lemma KeysCovered(items: seq<Item>, keys: seq<Bytes>, lastKey: Bytes, haveLastKey: bool, numEntries: nat, maxSeq: nat, f: Filter, h: Hash)
    requires Tally(items, keys, lastKey, haveLastKey, numEntries, maxSeq) && forall i :: 0 <= i < |keys| ==> May(f, h, keys[i])
    ensures (forall it :: it in items ==> May(f, h, it.key)) && (set key | key in keys) == (set it | it in items :: it.key)
  {
    hide May;
    forall it | it in items
      ensures May(f, h, it.key)
    {
      var i :| 0 <= i < |items| && items[i] == it;
      assert keys[i] == it.key;
    }
  }

  lemma CurIs(crc: Checksum, blocks: seq<seq<Item>>, cur: seq<Item>, file: Bytes, offset: nat, index: seq<IndexEntry>, pending: Bytes)
    requires Laid(crc, blocks, cur, file, offset, index, pending)
    ensures pending == EncodeItems(cur)
  {
  }

  lemma LaidFacts(crc: Checksum, blocks: seq<seq<Item>>, cur: seq<Item>, file: Bytes, offset: nat, index: seq<IndexEntry>, pending: Bytes)
    requires Laid(crc, blocks, cur, file, offset, index, pending)
    ensures NonEmpty(blocks) && file == DataBytes(crc, blocks) && offset == |file| && index == IndexOf(crc, blocks)
  {
  }

  lemma LastAdded(items: seq<Item>, keys: seq<Bytes>, lastKey: Bytes, haveLastKey: bool, numEntries: nat, maxSeq: nat)
    requires Tally(items, keys, lastKey, haveLastKey, numEntries, maxSeq)
    ensures haveLastKey == (items != []) && (items != [] ==> lastKey == items[|items| - 1].key)
  {
  }

  lemma Pending(crc: Checksum, blocks: seq<seq<Item>>, cur: seq<Item>, file: Bytes, offset: nat, index: seq<IndexEntry>, pending: Bytes)
    requires Laid(crc, blocks, cur, file, offset, index, pending)
    ensures pending == [] <==> cur == []
  {
    EncodeEmpty(cur);
  }

  lemma BlockAdded(crc: Checksum, blocks: seq<seq<Item>>, cur: seq<Item>)
    requires NonEmpty(blocks) && cur != []
    ensures var more := blocks + [cur];
            && NonEmpty(more) && Flatten(more) == Flatten(blocks) + cur
            && DataBytes(crc, more) == DataBytes(crc, blocks) + Checked(crc, EncodeItems(cur))
            && IndexOf(crc, more) == IndexOf(crc, blocks) + [IndexEntry(LastKey(cur), |DataBytes(crc, blocks)|, |EncodeItems(cur)| + 4)]
  {
    hide EncodeItems, Checked;
    assert (blocks + [cur])[..|blocks|] == blocks;
  }
}

/** Reading a table back: lookups through the block cache, and iteration. */
module TableReading {
  import opened Bytes
  import opened RaftTypes
  import opened LittleEndian
  import opened ByteOrder
  import opened Runs
  import opened Bloom
  import opened TableBlocks
  import opened TableLayout
  import opened TableLookup
  import opened BlockCaches

  /** Two index entries at one place are one block. */
  ghost predicate OneBlockPerOffset(ix: seq<IndexEntry>) {
    forall i, j :: 0 <= i < |ix| && 0 <= j < |ix| && ix[i].offset == ix[j].offset ==> ix[i].length == ix[j].length
  }

  ghost predicate IndexSorted(ix: seq<IndexEntry>) {
    forall i, j :: 0 <= i < j < |ix| ==> Less(ix[i].lastKey, ix[j].lastKey)
  }

  /** What the cache holds for a file is what reading the file gives. */
  ghost predicate Honest(crc: Checksum, path: string, file: Bytes, ix: seq<IndexEntry>, held: seq<Cached>) {
    forall c, i :: c in held && c.key.file == path && 0 <= i < |ix| && ix[i].offset == c.key.offset ==>
      ReadChecked(crc, file, ix[i].offset, ix[i].length) == Some(c.data)
  }

  /** What is new in the cache is for one file. */
  ghost predicate OnlyFor(path: string, before: seq<Cached>, after: seq<Cached>) {
    forall c :: c in after ==> c in before || c.key.file == path
  }

  lemma HonestFewer(crc: Checksum, path: string, file: Bytes, ix: seq<IndexEntry>, held: seq<Cached>, fewer: seq<Cached>)
    requires Honest(crc, path, file, ix, held) && forall c :: c in fewer ==> c in held
    ensures Honest(crc, path, file, ix, fewer)
  {
  }

  lemma HonestMore(crc: Checksum, path: string, file: Bytes, ix: seq<IndexEntry>, held: seq<Cached>, i: nat, data: Bytes)
    requires Honest(crc, path, file, ix, held) && OneBlockPerOffset(ix) && i < |ix|
    requires ReadChecked(crc, file, ix[i].offset, ix[i].length) == Some(data)
    ensures Honest(crc, path, file, ix, [Cached(Key(path, ix[i].offset), data)] + held)
  {
    hide ReadChecked;
  }

  class Reader {
    const crc: Checksum
    const hash: Hash
    const path: string
    const file: Bytes
    const table: Table
    const cache: BlockCache?

    constructor (crc: Checksum, hash: Hash, path: string, file: Bytes, table: Table, cache: BlockCache?)
      ensures this.crc == crc && this.hash == hash && this.path == path && this.file == file && this.table == table && this.cache == cache
    {
      this.crc, this.hash, this.path, this.file, this.table, this.cache := crc, hash, path, file, table, cache;
    }

    ghost predicate Valid()
      reads this, cache
    {
      && OneBlockPerOffset(table.index) && IndexSorted(table.index)
      && (cache != null ==> cache.Valid() && Honest(crc, path, file, table.index, cache.order))
    }

    /** readDataBlock: from the cache if it is there, otherwise from the file, and then into the cache. */
    method ReadDataBlock(i: nat) returns (r: Option<Bytes>)
      requires Valid() && i < |table.index|
      modifies cache
      ensures Valid() && r == ReadChecked(crc, file, table.index[i].offset, table.index[i].length)
      ensures cache != null ==> OnlyFor(path, old(cache.order), cache.order)
    {
      hide ReadChecked;
      var e := table.index[i];
      var key := Key(path, e.offset);
      if cache != null {
        ghost var held := cache.order;
        if key in cache.items { CachedIsListed(cache, key); }
        var hit := cache.Get(key);
        GotIsListed(held, cache.order);
        HonestFewer(crc, path, file, table.index, held, cache.order);
        if hit.Some? { return hit; }
      }
      r := ReadChecked(crc, file, e.offset, e.length);
      if r.Some? && cache != null {
        ghost var held := cache.order;
        HonestMore(crc, path, file, table.index, held, i, r.value);
        cache.Put(key, r.value);
        PutIsListed(held, Cached(key, r.value), cache.order, cache.maxBytes);
        HonestFewer(crc, path, file, table.index, [Cached(key, r.value)] + held, cache.order);
      }
    }

    /** sort.Search over the index. */
    method SearchIndex(key: Bytes) returns (i: nat)
      requires IndexSorted(table.index)
      ensures i == FirstNotBelow(table.index, key)
    {
      var j: nat := |table.index|;
      i := 0;
      while i < j
        invariant i <= j <= |table.index|
        invariant i > 0 ==> Less(table.index[i - 1].lastKey, key)
        invariant j < |table.index| ==> !Less(table.index[j].lastKey, key)
      {
        var mid := (i + j) / 2;
        if Less(table.index[mid].lastKey, key) { i := mid + 1; } else { j := mid; }
      }
      FirstIs(table.index, key, i);
    }

    /** The scan loop of Get over one block. */
    static method ScanBlock(data: Bytes, key: Bytes) returns (r: Option<Option<Item>>)
      ensures r == Scan(data, key)
    {
      hide DecodeItem;
      var off: nat := 0;
      assert data[0..] == data;
      while off < |data|
        invariant off <= |data| && Scan(data[off..], key) == Scan(data, key)
      {
        var one := DecodeItem(data[off..]);
        if one.None? { return None; }
        var it := one.value.0;
        if it.key == key { return Some(Some(it)); }
        if Less(key, it.key) { return Some(None); }
        assert data[off..][one.value.1..] == data[off + one.value.1..];
        off := off + one.value.1;
      }
      return Some(None);
    }

    /** Get: the answer does not depend on what the cache holds. */
    method Get(key: Bytes) returns (r: Option<Option<Item>>)
      requires Valid()
      modifies cache
      ensures Valid() && r == GetIn(crc, hash, file, table, key)
      ensures cache != null ==> OnlyFor(path, old(cache.order), cache.order)
    {
      hide ReadChecked, Scan, FirstNotBelow, May;
      if !May(table.filter, hash, key) { return Some(None); }
      var i := SearchIndex(key);
      if i == |table.index| { return Some(None); }
      var data := ReadDataBlock(i);
      if data.None? { return None; }
      r := ScanBlock(data.value, key);
    }
  }

  lemma CachedIsListed(c: BlockCache, k: Key)
    requires c.Valid() && k in c.items
    ensures Cached(k, c.items[k]) in c.order
  {
  }

  lemma GotIsListed(before: seq<Cached>, after: seq<Cached>)
    requires after == before || exists i :: 0 <= i < |before| && after == Moved(before, i)
    ensures forall c :: c in after ==> c in before
  {
  }

  lemma PutIsListed(before: seq<Cached>, e: Cached, after: seq<Cached>, budget: int)
    requires after == before || (budget >= 0 && after == Fit([e] + before, budget)) || exists i :: 0 <= i < |before| && after == Moved(before, i)
    ensures forall c :: c in after ==> c in [e] + before
  {
  }

  lemma {:induction false} FirstIs(ix: seq<IndexEntry>, key: Bytes, i: nat)
    requires IndexSorted(ix) && i <= |ix| && (i > 0 ==> Less(ix[i - 1].lastKey, key)) && (i < |ix| ==> !Less(ix[i].lastKey, key))
    ensures FirstNotBelow(ix, key) == i
  {
    hide FirstNotBelow;
    var f := FirstNotBelow(ix, key);
    if f < i - 1 { LessTrans(ix[f].lastKey, ix[i - 1].lastKey, key); }
  }

  /** OpenWithCache: null stands for any of its errors. */
  method OpenWithCache(crc: Checksum, hash: Hash, path: string, file: Bytes, cache: BlockCache?) returns (r: Reader?)
    ensures r != null <==> OpenTable(crc, file).Some?
    ensures r != null ==> fresh(r) && r.crc == crc && r.hash == hash && r.path == path && r.file == file
                          && r.cache == cache && Some(r.table) == OpenTable(crc, file)
  {
    hide ReadChecked, DecodeFilter, DecodeIndex, Get;
    if |file| < FooterSize { return null; }
    var footer := file[|file| - FooterSize..];
    if Get(footer[48..56]) != Magic { return null; }
    var bloomRaw := ReadChecked(crc, file, Get(footer[16..24]), Get(footer[24..32]));
    if bloomRaw.None? { return null; }
    var filter := DecodeFilter(bloomRaw.value);
    if filter.None? { return null; }
    var indexRaw := ReadChecked(crc, file, Get(footer[0..8]), Get(footer[8..16]));
    if indexRaw.None? { return null; }
    var index := DecodeIndex(indexRaw.value);
    if index.None? { return null; }
    r := new Reader(crc, hash, path, file, Table(index.value, filter.value, Get(footer[32..40]), Get(footer[40..48])), cache);
  }

  // ------------------------------------------------------------------- built tables

  lemma {:induction false} OffsetsGrow(crc: Checksum, blocks: seq<seq<Item>>, i: nat, j: nat)
    requires i < j <= |blocks|
    ensures |DataBytes(crc, blocks[..i])| < |DataBytes(crc, blocks[..j])|
    decreases j
  {
    hide EncodeItems;
    assert blocks[..j][..j - 1] == blocks[..j - 1];
    if i < j - 1 { OffsetsGrow(crc, blocks, i, j - 1); }
  }

  lemma IndexApart(crc: Checksum, blocks: seq<seq<Item>>)
    requires NonEmpty(blocks)
    ensures OneBlockPerOffset(IndexOf(crc, blocks))
  {
    hide IndexOf, DataBytes;
    var ix := IndexOf(crc, blocks);
    forall i, j | 0 <= i < |ix| && 0 <= j < |ix| && ix[i].offset == ix[j].offset
      ensures ix[i].length == ix[j].length
    {
      IndexAt(crc, blocks, i);
      IndexAt(crc, blocks, j);
      if i < j { OffsetsGrow(crc, blocks, i, j); }
      if j < i { OffsetsGrow(crc, blocks, j, i); }
    }
  }

  /** The last keys of consecutive blocks are in order. */
  lemma LastKeysOrdered(blocks: seq<seq<Item>>, i: nat, j: nat)
    requires NonEmpty(blocks) && Sorted(Flatten(blocks)) && i < j < |blocks|
    ensures Less(LastKey(blocks[i]), LastKey(blocks[j]))
  {
    var after := FlattenSplit(blocks, j);
    var a := Flatten(blocks[..j]);
    var inner := FlattenSplit(blocks[..j], i);
    var b := Flatten(blocks[..j][..i]);
    var all := Flatten(blocks);
    var x, y := |b| + |blocks[i]| - 1, |a| + |blocks[j]| - 1;
    assert all[x] == a[x] == blocks[i][|blocks[i]| - 1];
    assert all[y] == blocks[j][|blocks[j]| - 1];
  }

  lemma IndexOrdered(crc: Checksum, blocks: seq<seq<Item>>)
    requires NonEmpty(blocks) && Sorted(Flatten(blocks))
    ensures IndexSorted(IndexOf(crc, blocks))
  {
    hide IndexOf, Sorted;
    var ix := IndexOf(crc, blocks);
    forall i, j | 0 <= i < j < |ix|
      ensures Less(ix[i].lastKey, ix[j].lastKey)
    {
      IndexAt(crc, blocks, i);
      IndexAt(crc, blocks, j);
      LastKeysOrdered(blocks, i, j);
    }
  }

  /**
   * What the Writer finished, the Reader opens, and every Get is lookup in the entries added, for any
   * block size, filter parameters and hash functions.
   */
  lemma FinishedTable(crc: Checksum, h: Hash, blocks: seq<seq<Item>>, f: Filter, numEntries: nat, maxSeq: nat)
    requires NonEmpty(blocks) && Sorted(Flatten(blocks)) && AllFit(Flatten(blocks))
    requires forall it :: it in Flatten(blocks) ==> May(f, h, it.key)
    requires Sizes(DataBytes(crc, blocks), f, IndexOf(crc, blocks), numEntries, maxSeq)
    ensures var file := TableBytes(crc, DataBytes(crc, blocks), f, IndexOf(crc, blocks), numEntries, maxSeq);
            && OpenTable(crc, file) == Some(Table(IndexOf(crc, blocks), f, numEntries, maxSeq))
            && OneBlockPerOffset(IndexOf(crc, blocks)) && IndexSorted(IndexOf(crc, blocks))
            && Built(crc, h, blocks, f, file)
            && forall key :: GetIn(crc, h, file, OpenTable(crc, file).value, key) == Some(Find(Flatten(blocks), key))
  {
    hide Find, May, GetIn, OpenTable, Sorted, AllFit, IndexOf, DataBytes, Sizes;
    var data, ix := DataBytes(crc, blocks), IndexOf(crc, blocks);
    var file := TableBytes(crc, data, f, ix, numEntries, maxSeq);
    OpenBack(crc, data, f, ix, numEntries, maxSeq);
    IndexApart(crc, blocks);
    IndexOrdered(crc, blocks);
    DataFirst(crc, data, f, ix, numEntries, maxSeq);
    forall key: Bytes
      ensures GetIn(crc, h, file, Table(ix, f, numEntries, maxSeq), key) == Some(Find(Flatten(blocks), key))
    {
      GetFinds(crc, h, blocks, f, file, numEntries, maxSeq, key);
    }
  }

  lemma DataFirst(crc: Checksum, data: Bytes, f: Filter, ix: seq<IndexEntry>, numEntries: nat, maxSeq: nat)
    ensures exists tail :: TableBytes(crc, data, f, ix, numEntries, maxSeq) == data + tail
  {
    hide Checked, EncodeFilter, EncodeIndex, Footer;
    var bloom, index := Checked(crc, EncodeFilter(f)), Checked(crc, EncodeIndex(ix));
    var footer := Footer(|data| + |bloom|, |index|, |data|, |bloom|, numEntries, maxSeq);
    Regroup(data, bloom, index, footer);
    Regroup(data, [], bloom, index + footer);
    assert data + [] == data && [] + bloom == bloom;
    assert TableBytes(crc, data, f, ix, numEntries, maxSeq) == data + (bloom + (index + footer));
  }
}

/** Iteration over a table, block by block. */
module TableIteration {
  import opened Bytes
  import opened RaftTypes
  import opened Runs
  import opened Bloom
  import opened TableBlocks
  import opened TableLayout
  import opened TableLookup
  import opened TableReading

  function FlattenFrom(blocks: seq<seq<Item>>, i: nat): seq<Item>
    decreases |blocks| - i
  {
    if i >= |blocks| then [] else blocks[i] + FlattenFrom(blocks, i + 1)
  }

  lemma {:induction false} FlattenBoth(blocks: seq<seq<Item>>, i: nat)
    requires i <= |blocks|
    ensures Flatten(blocks[..i]) + FlattenFrom(blocks, i) == Flatten(blocks)
    decreases |blocks| - i
  {
    if i == |blocks| {
      assert blocks[..i] == blocks;
    } else {
      FlattenBoth(blocks, i + 1);
      assert blocks[..i + 1][..i] == blocks[..i];
    }
  }

  lemma FlattenWhole(blocks: seq<seq<Item>>)
    ensures FlattenFrom(blocks, 0) == Flatten(blocks)
  {
    FlattenBoth(blocks, 0);
    assert blocks[..0] == [];
  }

  /** The decoding loop of loadBlock. */
  method DecodeAll(data: Bytes) returns (r: Option<seq<Item>>)
    ensures r == DecodeItems(data)
  {
    hide DecodeItem;
    var items, off: nat := [], 0;
    assert data[0..] == data;
    while off < |data|
      invariant off <= |data| && (DecodeItems(data).None? <==> DecodeItems(data[off..]).None?)
      invariant DecodeItems(data).Some? ==> DecodeItems(data).value == items + DecodeItems(data[off..]).value
    {
      var one := DecodeItem(data[off..]);
      if one.None? { return None; }
      assert data[off..][one.value.1..] == data[off + one.value.1..];
      items, off := items + [one.value.0], off + one.value.1;
    }
    assert data[|data|..] == [] && items + [] == items;
    return Some(items);
  }

  /** The reader's file holds these blocks, one per index entry, none of them empty. */
  ghost predicate Serves(crc: Checksum, file: Bytes, ix: seq<IndexEntry>, blocks: seq<seq<Item>>) {
    |ix| == |blocks| && forall i :: 0 <= i < |blocks| ==>
      blocks[i] != [] && AllFit(blocks[i]) && ReadChecked(crc, file, ix[i].offset, ix[i].length) == Some(EncodeItems(blocks[i]))
  }

  lemma BuiltServes(crc: Checksum, h: Hash, blocks: seq<seq<Item>>, f: Filter, file: Bytes)
    requires Built(crc, h, blocks, f, file)
    ensures Serves(crc, file, IndexOf(crc, blocks), blocks)
  {
    hide ReadChecked, IndexOf, DataBytes, EncodeItems, Sorted, May;
    var tail :| file == DataBytes(crc, blocks) + tail;
    forall i | 0 <= i < |blocks|
      ensures AllFit(blocks[i])
      ensures ReadChecked(crc, file, IndexOf(crc, blocks)[i].offset, IndexOf(crc, blocks)[i].length) == Some(EncodeItems(blocks[i]))
    {
      ReadBlock(crc, blocks, i, tail);
      BlockFits(blocks, i);
    }
  }

  /** The entries of the block an index entry points to. */
  function Loaded(crc: Checksum, file: Bytes, e: IndexEntry): Option<seq<Item>> {
    match ReadChecked(crc, file, e.offset, e.length)
    case None => None
    case Some(data) => DecodeItems(data)
  }

  lemma ServesLoaded(crc: Checksum, file: Bytes, ix: seq<IndexEntry>, blocks: seq<seq<Item>>, i: nat)
    requires Serves(crc, file, ix, blocks) && i < |blocks|
    ensures |ix| == |blocks| && Loaded(crc, file, ix[i]) == Some(blocks[i]) && blocks[i] != []
  {
    hide ReadChecked, EncodeItems, DecodeItems;
    DecodeItemsBack(blocks[i]);
  }

  lemma ServesCount(crc: Checksum, file: Bytes, ix: seq<IndexEntry>, blocks: seq<seq<Item>>)
    requires Serves(crc, file, ix, blocks)
    ensures |ix| == |blocks|
  {
  }

  lemma FlattenStep(blocks: seq<seq<Item>>, i: nat)
    ensures FlattenFrom(blocks, i) == if i < |blocks| then blocks[i] + FlattenFrom(blocks, i + 1) else []
  {
  }

  lemma OneFewer(entries: seq<Item>, e: nat, rest: seq<Item>)
    requires e < |entries|
    ensures (entries[e..] + rest)[1..] == entries[e + 1..] + rest && entries[e..] + rest != []
    ensures e + 1 == |entries| ==> entries[e + 1..] + rest == rest
  {
  }

  lemma WholeSlice(entries: seq<Item>)
    ensures entries[0..] == entries
  {
  }

  class Iterator {
    const r: Reader
    var blockIdx: int
    var entries: seq<Item>
    var entryIdx: int
    var err: bool

    constructor (r: Reader)
      ensures this.r == r && blockIdx == -1 && entries == [] && entryIdx == -1 && !err
    {
      this.r, blockIdx, entries, entryIdx, err := r, -1, [], -1, false;
    }

    /** On an entry of a block, or past the last block. */
    ghost predicate At(blocks: seq<seq<Item>>)
      reads this, r, r.cache
    {
      && r.Valid() && Serves(r.crc, r.file, r.table.index, blocks) && !err && blockIdx >= 0
      && if blockIdx < |blocks| then entries == blocks[blockIdx] && 0 <= entryIdx < |entries| else entries == [] && entryIdx == -1
    }

    /** What is left to visit. */
    ghost function Remaining(blocks: seq<seq<Item>>): seq<Item>
      requires At(blocks)
      reads this, r, r.cache
    {
      if blockIdx < |blocks| then entries[entryIdx..] + FlattenFrom(blocks, blockIdx + 1) else []
    }

    /** Valid: positioned at an entry. */
    predicate Positioned()
      reads this
    {
      !err && 0 <= entryIdx < |entries|
    }

    /** loadBlock: past the end it leaves no entries; a block that cannot be read or decoded is an error. */
    method LoadBlock(idx: nat)
      requires r.Valid() && !err
      modifies this, r.cache
      ensures r.Valid()
      ensures idx >= |r.table.index| ==> !err && entries == [] && entryIdx == -1 && blockIdx == idx
      ensures idx < |r.table.index| ==>
        match Loaded(r.crc, r.file, r.table.index[idx])
        case None => err && entries == [] && entryIdx == -1
        case Some(items) => !err && entries == items && entryIdx == 0 && blockIdx == idx
    {
      hide ReadChecked, DecodeItems, OneBlockPerOffset, IndexSorted, Honest;
      if idx >= |r.table.index| {
        entries, entryIdx, blockIdx := [], -1, idx;
        return;
      }
      var data := r.ReadDataBlock(idx);
      if data.None? {
        err, entries, entryIdx := true, [], -1;
        return;
      }
      var items := DecodeAll(data.value);
      if items.None? {
        err, entries, entryIdx := true, [], -1;
        return;
      }
      entries, entryIdx, blockIdx := items.value, 0, idx;
    }

    /** SeekToFirst: everything is still to come. */
    method SeekToFirst(ghost blocks: seq<seq<Item>>)
      requires r.Valid() && Serves(r.crc, r.file, r.table.index, blocks)
      modifies this, r.cache
      ensures At(blocks) && Remaining(blocks) == Flatten(blocks)
    {
      hide Loaded, Serves, Flatten, OneBlockPerOffset, IndexSorted, Honest;
      FlattenWhole(blocks);
      ServesCount(r.crc, r.file, r.table.index, blocks);
      if |blocks| > 0 { ServesLoaded(r.crc, r.file, r.table.index, blocks, 0); }
      err := false;
      LoadBlock(0);
      assert entries[0..] == entries;
    }

    /** Next: one entry fewer to come. */
    method Next(ghost blocks: seq<seq<Item>>)
      requires At(blocks)
      modifies this, r.cache
      ensures At(blocks)
      ensures Remaining(blocks) == if old(Remaining(blocks)) == [] then [] else old(Remaining(blocks))[1..]
    {
      hide Loaded, Serves, OneBlockPerOffset, IndexSorted, Honest, Reader.Valid, FlattenFrom;
      ghost var next := blockIdx + 1;
      FlattenStep(blocks, next);
      if blockIdx < |blocks| { OneFewer(entries, entryIdx, FlattenFrom(blocks, next)); }
      ServesCount(r.crc, r.file, r.table.index, blocks);
      if next < |blocks| { ServesLoaded(r.crc, r.file, r.table.index, blocks, next); }
      entryIdx := entryIdx + 1;
      if entryIdx >= |entries| { LoadBlock(blockIdx + 1); }
      WholeSlice(entries);
    }

    /** The entry the accessors read is the next one to come, and there is one exactly when the iterator is positioned. */
    method Current(ghost blocks: seq<seq<Item>>) returns (it: Option<Item>)
      requires At(blocks)
      ensures it == if Remaining(blocks) == [] then None else Some(Remaining(blocks)[0])
      ensures it.Some? <==> Positioned()
    {
      if Positioned() { return Some(entries[entryIdx]); }
      return None;
    }
  }

  /** A full pass yields exactly the entries the table was built from. */
  method Drain(r: Reader, ghost blocks: seq<seq<Item>>) returns (items: seq<Item>)
    requires r.Valid() && Serves(r.crc, r.file, r.table.index, blocks)
    modifies r.cache
    ensures items == Flatten(blocks)
  {
    hide Serves, Flatten, FlattenFrom, OneBlockPerOffset, IndexSorted, Honest, Iterator.At, Iterator.Remaining, Reader.Valid;
    var it := new Iterator(r);
    it.SeekToFirst(blocks);
    items := [];
    var cur := it.Current(blocks);
    while cur.Some?
      invariant fresh(it) && it.r == r && it.At(blocks)
      invariant items + it.Remaining(blocks) == Flatten(blocks)
      invariant cur == if it.Remaining(blocks) == [] then None else Some(it.Remaining(blocks)[0])
      decreases |it.Remaining(blocks)|
    {
      items := items + [cur.value];
      it.Next(blocks);
      cur := it.Current(blocks);
    }
  }
}

/** A table written, opened and read back. */
module TableTrips {
  import opened Bytes
  import opened RaftTypes
  import opened LittleEndian
  import opened ByteOrder
  import opened Runs
  import opened Bloom
  import opened TableBlocks
  import opened TableLayout
  import opened TableLookup
  import opened BlockCaches
  import opened TableFiles
  import opened TableReading
  import opened TableIteration

  // ------------------------------------------------------- a file below 2^64 bytes has sizes that fit

  lemma {:induction false} EncodedLonger(items: seq<Item>)
    ensures |EncodeItems(items)| >= |items|
    decreases |items|
  {
    hide EncodeItem;
    if items != [] { EncodedLonger(items[..|items| - 1]); }
  }

  lemma {:induction false} DataLonger(crc: Checksum, blocks: seq<seq<Item>>)
    ensures |DataBytes(crc, blocks)| >= |Flatten(blocks)|
    decreases |blocks|
  {
    hide EncodeItems;
    if blocks != [] {
      DataLonger(crc, blocks[..|blocks| - 1]);
      EncodedLonger(blocks[|blocks| - 1]);
    }
  }

  lemma {:induction false} SeqFits(items: seq<Item>)
    requires AllFit(items)
    ensures MaxSeq(items) < TwoTo64
    decreases |items|
  {
    if items != [] { SeqFits(items[..|items| - 1]); }
  }

  lemma EntryFits(crc: Checksum, blocks: seq<seq<Item>>, i: nat)
    requires NonEmpty(blocks) && AllFit(Flatten(blocks)) && |DataBytes(crc, blocks)| < TwoTo64 && i < |blocks|
    ensures i < |IndexOf(crc, blocks)| && IndexFits(IndexOf(crc, blocks)[i])
  {
    hide EncodeItems, DataBytes, IndexOf, Flatten, Checked;
    IndexAt(crc, blocks, i);
    BlockFits(blocks, i);
    var rest := DataSplit(crc, blocks, i);
    CheckedLength(crc, EncodeItems(blocks[i]));
    assert ItemFits(blocks[i][|blocks[i]| - 1]);
  }

  lemma CheckedLength(crc: Checksum, d: Bytes)
    ensures |Checked(crc, d)| == |d| + 4
  {
  }

  lemma FileSizes(crc: Checksum, blocks: seq<seq<Item>>, f: Filter, maxSeq: nat)
    requires NonEmpty(blocks) && AllFit(Flatten(blocks)) && maxSeq == MaxSeq(Flatten(blocks))
    requires f.m < TwoTo64 && f.k < TwoTo32 && |f.bits| == BytesFor(f.m)
    requires |TableBytes(crc, DataBytes(crc, blocks), f, IndexOf(crc, blocks), |Flatten(blocks)|, maxSeq)| < TwoTo64
    ensures Sizes(DataBytes(crc, blocks), f, IndexOf(crc, blocks), |Flatten(blocks)|, maxSeq)
  {
    hide DataBytes, IndexOf, EncodeFilter, EncodeIndex, Checked, MaxSeq, Flatten, AllFit, Footer;
    CheckedLength(crc, EncodeFilter(f));
    CheckedLength(crc, EncodeIndex(IndexOf(crc, blocks)));
    DataLonger(crc, blocks);
    SeqFits(Flatten(blocks));
    IndexCount(crc, blocks);
    forall i | 0 <= i < |IndexOf(crc, blocks)|
      ensures IndexFits(IndexOf(crc, blocks)[i])
    {
      EntryFits(crc, blocks, i);
    }
  }

  lemma IndexCount(crc: Checksum, blocks: seq<seq<Item>>)
    requires NonEmpty(blocks)
    ensures |IndexOf(crc, blocks)| == |blocks|
  {
    if blocks != [] { IndexAt(crc, blocks, |blocks| - 1); }
  }

  // --------------------------------------------------------------------------------- the trip

  /** Entries one by one: refused at the first that is out of order. */
  method AddAll(w: Writer, items: seq<Item>) returns (ok: bool)
    requires w.Valid() && !w.closed && w.Items() == []
    modifies w
    ensures w.Valid() && !w.closed && (ok <==> Sorted(items)) && (ok ==> w.Items() == items)
  {
    hide Writer.Items, Writer.Valid, Less;
    var i := 0;
    assert items[..0] == [];
    while i < |items|
      invariant 0 <= i <= |items| && w.Valid() && !w.closed && w.Items() == items[..i] && Sorted(items[..i])
    {
      ok := w.Add(items[i]);
      if !ok {
        assert !Less(items[i - 1].key, items[i].key);
        return;
      }
      AppendSorted(items[..i], items[i]);
      assert items[..i + 1] == items[..i] + [items[i]];
      i := i + 1;
    }
    assert items[..|items|] == items;
    ok := true;
  }

  /** A path no block is cached for yet. */
  ghost predicate Unseen(path: string, cache: BlockCache?)
    reads cache
  {
    cache != null ==> cache.Valid() && forall c :: c in cache.order ==> c.key.file != path
  }

  /**
   * Any sorted entries, for any block size and any filter parameters: as long as the file stays below
   * 2^64 bytes, what the Writer makes of them the Reader opens.
   */
  method WriteAndOpen(crc: Checksum, hash: Hash, path: string, blockSize: int, items: seq<Item>, m: nat, k: nat, cache: BlockCache?)
    returns (r: Reader?, file: Bytes, ghost blocks: seq<seq<Item>>)
    requires m + 7 < TwoTo64 && k < TwoTo32 && Sorted(items) && AllFit(items) && Unseen(path, cache)
    ensures |file| < TwoTo64 ==>
      && r != null && fresh(r) && r.cache == cache && r.Valid() && r.crc == crc && r.hash == hash && r.path == path && r.file == file
      && Flatten(blocks) == items && Serves(r.crc, r.file, r.table.index, blocks)
      && forall key :: GetIn(r.crc, r.hash, r.file, r.table, key) == Some(Find(items, key))
  {
    hide Find, May, GetIn, OpenTable, Sorted, AllFit, IndexOf, DataBytes, Sizes, TableBytes, Flatten, NonEmpty, Tally, Laid, BytesFor;
    var w := new Writer(crc, hash, blockSize);
    var ok := AddAll(w, items);
    var f;
    ok, f := w.Finish(m, k);
    file, blocks := w.file, w.blocks;
    r := OpenWithCache(crc, hash, path, file, cache);
    if |file| < TwoTo64 {
      Counts(w);
      FileSizes(crc, blocks, f, w.maxSeq);
      FinishedTable(crc, hash, blocks, f, w.numEntries, w.maxSeq);
      BuiltServes(crc, hash, blocks, f, file);
    }
  }

  lemma Counts(w: Writer)
    requires w.Counted()
    ensures w.numEntries == |w.Items()| && w.maxSeq == MaxSeq(w.Items())
  {
  }

  /** Written, opened, searched and walked: every search is a search of the entries, and the walk is the entries. */
  method WriteAndRead(crc: Checksum, hash: Hash, path: string, blockSize: int, items: seq<Item>, m: nat, k: nat, cache: BlockCache?, key: Bytes)
    returns (file: Bytes, found: Option<Option<Item>>, walked: seq<Item>)
    requires m + 7 < TwoTo64 && k < TwoTo32 && Sorted(items) && AllFit(items) && Unseen(path, cache)
    modifies cache
    ensures |file| < TwoTo64 ==> found == Some(Find(items, key)) && walked == items
  {
    hide Find, GetIn, Sorted, AllFit, Flatten, Serves, Reader.Valid;
    var r;
    ghost var blocks;
    found, walked := None, [];
    r, file, blocks := WriteAndOpen(crc, hash, path, blockSize, items, m, k, cache);
    if r != null && |file| < TwoTo64 {
      found := r.Get(key);
      walked := Drain(r, blocks);
    }
  }
}
