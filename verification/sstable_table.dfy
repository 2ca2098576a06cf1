/**
 * A whole SSTable file: data blocks, filter, index and footer, and what reading it
 * gives back (sstable/writer.go, sstable/reader.go).
 */
module TableLayout {
  import opened Bytes
  import opened RaftTypes
  import opened LittleEndian
  import opened ByteOrder
  import opened Runs
  import opened Bloom
  import opened TableBlocks

  const FooterSize: nat := 56
  const Magic: nat := 0x4B56535331

  // ------------------------------------------------------------------- layout

  /** A block and its checksum. */
  function Checked(crc: Checksum, d: Bytes): (b: Bytes)
    ensures |b| == |d| + 4
  {
    d + Put(4, crc(d))
  }

  function Flatten(blocks: seq<seq<Item>>): seq<Item> {
    if blocks == [] then [] else Flatten(blocks[..|blocks| - 1]) + blocks[|blocks| - 1]
  }

  function DataBytes(crc: Checksum, blocks: seq<seq<Item>>): Bytes {
    if blocks == [] then [] else DataBytes(crc, blocks[..|blocks| - 1]) + Checked(crc, EncodeItems(blocks[|blocks| - 1]))
  }

  predicate NonEmpty(blocks: seq<seq<Item>>) { forall i :: 0 <= i < |blocks| ==> blocks[i] != [] }

  function LastKey(block: seq<Item>): Bytes
    requires block != []
  {
    block[|block| - 1].key
  }

  function IndexOf(crc: Checksum, blocks: seq<seq<Item>>): (ix: seq<IndexEntry>)
    requires NonEmpty(blocks)
    ensures |ix| == |blocks|
  {
    if blocks == [] then []
    else
      var init, last := blocks[..|blocks| - 1], blocks[|blocks| - 1];
      IndexOf(crc, init) + [IndexEntry(LastKey(last), |DataBytes(crc, init)|, |EncodeItems(last)| + 4)]
  }

  function Footer(indexOffset: nat, indexLength: nat, bloomOffset: nat, bloomLength: nat, numEntries: nat, maxSeq: nat): (b: Bytes)
    ensures |b| == FooterSize
  {
    Put(8, indexOffset) + Put(8, indexLength) + Put(8, bloomOffset) + Put(8, bloomLength) + Put(8, numEntries) + Put(8, maxSeq) + Put(8, Magic)
  }

  /** What Finish has written: data, filter, index, footer. */
  function TableBytes(crc: Checksum, data: Bytes, f: Filter, ix: seq<IndexEntry>, numEntries: nat, maxSeq: nat): Bytes {
    var bloom, index := Checked(crc, EncodeFilter(f)), Checked(crc, EncodeIndex(ix));
    data + bloom + index + Footer(|data| + |bloom|, |index|, |data|, |bloom|, numEntries, maxSeq)
  }

  // ------------------------------------------------------------------ reading

  /** readChecksummed; None for a short read or a wrong checksum. */
  function ReadChecked(crc: Checksum, file: Bytes, offset: nat, length: nat): Option<Bytes> {
    if length < 4 || offset + length > |file| then None
    else
      var data := file[offset..offset + length - 4];
      if crc(data) != Get(file[offset + length - 4..offset + length]) then None else Some(data)
  }

  datatype Table = Table(index: seq<IndexEntry>, filter: Filter, numEntries: nat, maxSeq: nat)

  /** OpenWithCache; None for any of its errors. */
  function OpenTable(crc: Checksum, file: Bytes): Option<Table> {
    if |file| < FooterSize then None
    else
      var t := file[|file| - FooterSize..];
      if Get(t[48..56]) != Magic then None
      else
        match ReadChecked(crc, file, Get(t[16..24]), Get(t[24..32]))
        case None => None
        case Some(bloomRaw) =>
          match DecodeFilter(bloomRaw)
          case None => None
          case Some(f) =>
            match ReadChecked(crc, file, Get(t[0..8]), Get(t[8..16]))
            case None => None
            case Some(indexRaw) =>
              match DecodeIndex(indexRaw)
              case None => None
              case Some(ix) => Some(Table(ix, f, Get(t[32..40]), Get(t[40..48])))
  }

  /** The first index entry whose last key is not below the key. */
  function FirstNotBelow(ix: seq<IndexEntry>, key: Bytes): (i: nat)
    ensures i <= |ix| && (i < |ix| ==> !Less(ix[i].lastKey, key)) && forall j :: 0 <= j < i ==> Less(ix[j].lastKey, key)
  {
    if ix == [] || !Less(ix[0].lastKey, key) then 0 else 1 + FirstNotBelow(ix[1..], key)
  }

  /** The scan of Get through a block: stops at the key or past where it would be.  None for an entry that does not decode. */
  function Scan(b: Bytes, key: Bytes): Option<Option<Item>>
    decreases |b|
  {
    if b == [] then Some(None)
    else
      match DecodeItem(b)
      case None => None
      case Some((it, n)) =>
        if it.key == key then Some(Some(it))
        else if Less(key, it.key) then Some(None)
        else Scan(b[n..], key)
  }

  /** Reader.Get; the outer None stands for an error. */
  function GetIn(crc: Checksum, h: Hash, file: Bytes, t: Table, key: Bytes): Option<Option<Item>> {
    if !May(t.filter, h, key) then Some(None)
    else
      var i := FirstNotBelow(t.index, key);
      if i == |t.index| then Some(None)
      else
        match ReadChecked(crc, file, t.index[i].offset, t.index[i].length)
        case None => None
        case Some(data) => Scan(data, key)
  }

  /** Exactly a block followed by its own checksum is read; anything else is an error. */
  lemma CheckedExact(crc: Checksum, file: Bytes, offset: nat, length: nat, d: Bytes)
    ensures ReadChecked(crc, file, offset, length) == Some(d)
            <==> length == |d| + 4 && offset + length <= |file| && file[offset..offset + length] == Checked(crc, d)
  {
    hide Put, Get;
    if length >= 4 && offset + length <= |file| {
      var all := file[offset..offset + length];
      var sum := file[offset + length - 4..offset + length];
      assert all == file[offset..offset + length - 4] + sum;
      PutGet32(sum);
      if length == |d| + 4 && all == Checked(crc, d) {
        assert all[..|d|] == d && all[|d|..] == Put(4, crc(d));
        GetPut32(crc(d));
      }
    }
  }

  /** A file opens only with the magic number at its end, and with the filter and an index in place, each under its own checksum. */
  lemma OpenNeeds(crc: Checksum, file: Bytes)
    requires OpenTable(crc, file).Some?
    ensures |file| >= FooterSize && file[|file| - 8..] == Put(8, Magic)
    ensures var t, n := file[|file| - FooterSize..], OpenTable(crc, file).value;
            var bloomAt, bloomLen, indexAt, indexLen := Get(t[16..24]), Get(t[24..32]), Get(t[0..8]), Get(t[8..16]);
            && bloomAt + bloomLen <= |file| && file[bloomAt..bloomAt + bloomLen] == Checked(crc, EncodeFilter(n.filter))
            && indexAt + indexLen <= |file| && indexLen >= 4 && DecodeIndex(file[indexAt..indexAt + indexLen - 4]) == Some(n.index)
            && file[indexAt..indexAt + indexLen] == Checked(crc, file[indexAt..indexAt + indexLen - 4])
            && n.numEntries == Get(t[32..40]) && n.maxSeq == Get(t[40..48])
  {
    hide Put, Get, ReadChecked, DecodeFilter, DecodeIndex, EncodeFilter;
    var t := file[|file| - FooterSize..];
    PutGet64(t[48..56]);
    assert t[48..56] == file[|file| - 8..];
    var bloomRaw := ReadChecked(crc, file, Get(t[16..24]), Get(t[24..32])).value;
    var indexRaw := ReadChecked(crc, file, Get(t[0..8]), Get(t[8..16])).value;
    CheckedExact(crc, file, Get(t[16..24]), Get(t[24..32]), bloomRaw);
    FilterExact(bloomRaw, DecodeFilter(bloomRaw).value);
    CheckedExact(crc, file, Get(t[0..8]), Get(t[8..16]), indexRaw);
    var at, len := Get(t[0..8]), Get(t[8..16]);
    assert file[at..at + len][..len - 4] == file[at..at + len - 4] && Checked(crc, indexRaw)[..|indexRaw|] == indexRaw;
  }

  // --------------------------------------------------------------- round trips

  lemma ReadCheckedBack(crc: Checksum, a: Bytes, d: Bytes, b: Bytes)
    ensures ReadChecked(crc, a + Checked(crc, d) + b, |a|, |d| + 4) == Some(d)
  {
    hide Put, Get;
    var file := a + Checked(crc, d) + b;
    assert file[|a|..|a| + |d|] == d && file[|a| + |d|..|a| + |d| + 4] == Put(4, crc(d));
    GetPut32(crc(d));
  }

  predicate Sizes(data: Bytes, f: Filter, ix: seq<IndexEntry>, numEntries: nat, maxSeq: nat) {
    && |data| + |EncodeFilter(f)| + |EncodeIndex(ix)| + 8 < TwoTo64 && numEntries < TwoTo64 && maxSeq < TwoTo64
    && f.m < TwoTo64 && f.k < TwoTo32 && |f.bits| == BytesFor(f.m)
    && forall i :: 0 <= i < |ix| ==> IndexFits(ix[i])
  }

  lemma FooterBack(io: nat, il: nat, bo: nat, bl: nat, n: nat, ms: nat)
    requires io < TwoTo64 && il < TwoTo64 && bo < TwoTo64 && bl < TwoTo64 && n < TwoTo64 && ms < TwoTo64
    ensures var t := Footer(io, il, bo, bl, n, ms);
            && Get(t[0..8]) == io && Get(t[8..16]) == il && Get(t[16..24]) == bo && Get(t[24..32]) == bl
            && Get(t[32..40]) == n && Get(t[40..48]) == ms && Get(t[48..56]) == Magic
  {
    hide Put, Get;
    var t := Footer(io, il, bo, bl, n, ms);
    var four, last := Put(8, io) + Put(8, il) + Put(8, bo) + Put(8, bl), Put(8, n) + Put(8, ms) + Put(8, Magic);
    assert t == four + last;
    assert four[0..8] == Put(8, io) && four[8..16] == Put(8, il) && four[16..24] == Put(8, bo) && four[24..32] == Put(8, bl);
    assert last[0..8] == Put(8, n) && last[8..16] == Put(8, ms) && last[16..24] == Put(8, Magic);
    assert t[0..8] == four[0..8] && t[8..16] == four[8..16] && t[16..24] == four[16..24] && t[24..32] == four[24..32];
    assert t[32..40] == last[0..8] && t[40..48] == last[8..16] && t[48..56] == last[16..24];
    GetPut64(io);
    GetPut64(il);
    GetPut64(bo);
    GetPut64(bl);
    GetPut64(n);
    GetPut64(ms);
    GetPut64(Magic);
  }

  /** Opening a finished file gives back its index, filter and counts. */
  lemma OpenBack(crc: Checksum, data: Bytes, f: Filter, ix: seq<IndexEntry>, numEntries: nat, maxSeq: nat)
    requires Sizes(data, f, ix, numEntries, maxSeq)
    ensures OpenTable(crc, TableBytes(crc, data, f, ix, numEntries, maxSeq)) == Some(Table(ix, f, numEntries, maxSeq))
  {
    hide Put, Get, Footer, Checked, ReadChecked, EncodeFilter, DecodeFilter, EncodeIndex, DecodeIndex;
    var bloom, index := Checked(crc, EncodeFilter(f)), Checked(crc, EncodeIndex(ix));
    var footer := Footer(|data| + |bloom|, |index|, |data|, |bloom|, numEntries, maxSeq);
    var file := TableBytes(crc, data, f, ix, numEntries, maxSeq);
    assert file[|file| - FooterSize..] == footer;
    FooterBack(|data| + |bloom|, |index|, |data|, |bloom|, numEntries, maxSeq);
    assert file == data + bloom + (index + footer);
    ReadCheckedBack(crc, data, EncodeFilter(f), index + footer);
    assert file == (data + bloom) + index + footer;
    ReadCheckedBack(crc, data + bloom, EncodeIndex(ix), footer);
    DecodeFilterBack(f);
    DecodeIndexBack(ix);
  }
}

/** Lookups and iteration over a finished table give what its entries say. */
module TableLookup {
  import opened Bytes
  import opened RaftTypes
  import opened ByteOrder
  import opened Runs
  import opened Bloom
  import opened TableBlocks
  import opened TableLayout

  predicate AllFit(items: seq<Item>) { forall i :: 0 <= i < |items| ==> ItemFits(items[i]) }

  // -------------------------------------------------------------------- blocks

  lemma {:induction false} IndexAt(crc: Checksum, blocks: seq<seq<Item>>, i: nat)
    requires NonEmpty(blocks) && i < |blocks|
    ensures NonEmpty(blocks[..i])
    ensures IndexOf(crc, blocks)[i] == IndexEntry(LastKey(blocks[i]), |DataBytes(crc, blocks[..i])|, |EncodeItems(blocks[i])| + 4)
    decreases |blocks|
  {
    if i < |blocks| - 1 {
      IndexAt(crc, blocks[..|blocks| - 1], i);
      assert blocks[..|blocks| - 1][..i] == blocks[..i];
    }
  }

  lemma {:induction false} DataSplit(crc: Checksum, blocks: seq<seq<Item>>, i: nat) returns (rest: Bytes)
    requires i < |blocks|
    ensures DataBytes(crc, blocks) == DataBytes(crc, blocks[..i]) + Checked(crc, EncodeItems(blocks[i])) + rest
    decreases |blocks|
  {
    hide Checked, EncodeItems;
    if i == |blocks| - 1 {
      rest := [];
    } else {
      var init, last := blocks[..|blocks| - 1], Checked(crc, EncodeItems(blocks[|blocks| - 1]));
      var r := DataSplit(crc, init, i);
      assert init[..i] == blocks[..i];
      rest := r + last;
      Regroup(DataBytes(crc, blocks[..i]), Checked(crc, EncodeItems(blocks[i])), r, last);
    }
  }

  lemma Regroup(a: Bytes, b: Bytes, c: Bytes, d: Bytes)
    ensures a + b + c + d == a + b + (c + d)
  {
  }

  /** The index leads to each block's bytes, in any file that begins with the data. */
  lemma ReadBlock(crc: Checksum, blocks: seq<seq<Item>>, i: nat, tail: Bytes)
    requires NonEmpty(blocks) && i < |blocks|
    ensures var e := IndexOf(crc, blocks)[i];
            ReadChecked(crc, DataBytes(crc, blocks) + tail, e.offset, e.length) == Some(EncodeItems(blocks[i]))
  {
    hide ReadChecked, Checked, DataBytes, EncodeItems, IndexOf;
    IndexAt(crc, blocks, i);
    var rest := DataSplit(crc, blocks, i);
    var a, d := DataBytes(crc, blocks[..i]), EncodeItems(blocks[i]);
    Regroup(a, Checked(crc, d), rest, tail);
    ReadCheckedBack(crc, a, d, rest + tail);
  }

  lemma {:induction false} FlattenSplit(blocks: seq<seq<Item>>, i: nat) returns (after: seq<Item>)
    requires i < |blocks|
    ensures Flatten(blocks) == Flatten(blocks[..i]) + blocks[i] + after
    decreases |blocks|
  {
    if i == |blocks| - 1 {
      after := [];
    } else {
      var init := blocks[..|blocks| - 1];
      var r := FlattenSplit(init, i);
      assert init[..i] == blocks[..i];
      after := r + blocks[|blocks| - 1];
    }
  }

  lemma FlattenLast(blocks: seq<seq<Item>>)
    requires NonEmpty(blocks) && blocks != []
    ensures var items := Flatten(blocks); items != [] && items[|items| - 1].key == LastKey(blocks[|blocks| - 1])
  {
  }

  // ------------------------------------------------------------------- searching

  lemma AllBelow(items: seq<Item>, key: Bytes)
    requires Sorted(items) && (items != [] ==> Less(items[|items| - 1].key, key))
    ensures forall i :: 0 <= i < |items| ==> Less(items[i].key, key)
  {
    forall i | 0 <= i < |items|
      ensures Less(items[i].key, key)
    {
      if i < |items| - 1 { LessTrans(items[i].key, items[|items| - 1].key, key); }
    }
  }

  lemma {:induction false} FindTail(a: seq<Item>, b: seq<Item>, key: Bytes)
    requires forall i :: 0 <= i < |b| ==> b[i].key != key
    ensures Find(a + b, key) == Find(a, key)
    decreases |b|
  {
    if b == [] {
      assert a + b == a;
    } else {
      FindTail(a, b[..|b| - 1], key);
      assert (a + b)[..|a + b| - 1] == a + b[..|b| - 1];
    }
  }

  lemma {:induction false} FindHead(a: seq<Item>, b: seq<Item>, key: Bytes)
    requires forall i :: 0 <= i < |a| ==> a[i].key != key
    ensures Find(a + b, key) == Find(b, key)
    decreases |b|
  {
    if b == [] {
      assert a + b == a;
      assert forall it :: it in a ==> it.key != key;
    } else {
      FindHead(a, b[..|b| - 1], key);
      assert (a + b)[..|a + b| - 1] == a + b[..|b| - 1];
    }
  }

  /** Only the block the index points to can hold the key. */
  lemma FindInBlock(a: seq<Item>, b: seq<Item>, c: seq<Item>, key: Bytes)
    requires Sorted(a + b + c) && b != [] && !Less(LastKey(b), key) && (a != [] ==> Less(a[|a| - 1].key, key))
    ensures Find(a + b + c, key) == Find(b, key) && Sorted(b)
  {
    hide Find;
    var all := a + b + c;
    assert forall i, j :: 0 <= i < j < |a| ==> all[i] == a[i] && all[j] == a[j];
    AllBelow(a, key);
    forall i | 0 <= i < |a|
      ensures a[i].key != key
    {
      LessAsym(a[i].key, key);
    }
    forall i | 0 <= i < |c|
      ensures c[i].key != key
    {
      var last := |a| + |b| - 1;
      assert all[last] == b[|b| - 1] && all[|a| + |b| + i] == c[i];
      assert Less(all[last].key, all[|a| + |b| + i].key);
    }
    FindTail(a + b, c, key);
    FindHead(a, b, key);
    forall i, j | 0 <= i < j < |b|
      ensures Less(b[i].key, b[j].key)
    {
      assert all[|a| + i] == b[i] && all[|a| + j] == b[j];
    }
  }

  /** The scan finds the key in a sorted block, and its early exit loses nothing. */
  lemma {:induction false} ScanFinds(items: seq<Item>, key: Bytes)
    requires Sorted(items) && AllFit(items)
    ensures Scan(EncodeItems(items), key) == Some(Find(items, key))
    decreases |items|
  {
    hide EncodeItem, DecodeItem, Find;
    if items == [] {
      FindNone(items, key);
    } else {
      var one, rest := EncodeItem(items[0]), EncodeItems(items[1..]);
      EncodeFront(items);
      DecodeItemBack(items[0], rest);
      assert (one + rest)[|one|..] == rest;
      if items[0].key == key {
        FindAt(items, 0);
      } else if Less(key, items[0].key) {
        AbsentBelow(items, key);
      } else {
        ScanFinds(items[1..], key);
        FindHead([items[0]], items[1..], key);
        assert items == [items[0]] + items[1..];
      }
    }
  }

  lemma AbsentBelow(items: seq<Item>, key: Bytes)
    requires Sorted(items) && items != [] && Less(key, items[0].key)
    ensures Find(items, key) == None
  {
    forall it | it in items
      ensures it.key != key
    {
      var i :| 0 <= i < |items| && items[i] == it;
      if i > 0 { LessTrans(key, items[0].key, items[i].key); }
      LessAsym(key, items[i].key);
    }
  }

  lemma AbsentAbove(items: seq<Item>, key: Bytes)
    requires Sorted(items) && (items != [] ==> Less(items[|items| - 1].key, key))
    ensures Find(items, key) == None
  {
    AllBelow(items, key);
    forall it | it in items
      ensures it.key != key
    {
      var i :| 0 <= i < |items| && items[i] == it;
      LessAsym(items[i].key, key);
    }
  }

  // ---------------------------------------------------------------------- theorem

  /** A finished table: its file, and the entries it was built from, cut into blocks. */
  ghost predicate Built(crc: Checksum, h: Hash, blocks: seq<seq<Item>>, f: Filter, file: Bytes) {
    && NonEmpty(blocks) && Sorted(Flatten(blocks)) && AllFit(Flatten(blocks))
    && (forall it :: it in Flatten(blocks) ==> May(f, h, it.key))
    && exists tail :: file == DataBytes(crc, blocks) + tail
  }

  lemma BlockFits(blocks: seq<seq<Item>>, i: nat)
    requires i < |blocks| && AllFit(Flatten(blocks))
    ensures AllFit(blocks[i])
  {
    hide Flatten, ItemFits;
    var after := FlattenSplit(blocks, i);
    var a := Flatten(blocks[..i]);
    forall j | 0 <= j < |blocks[i]|
      ensures ItemFits(blocks[i][j])
    {
      assert Flatten(blocks)[|a| + j] == blocks[i][j];
    }
  }

  /** Past the last block, the key is nowhere. */
  lemma PastTheEnd(crc: Checksum, blocks: seq<seq<Item>>, key: Bytes)
    requires NonEmpty(blocks) && Sorted(Flatten(blocks)) && FirstNotBelow(IndexOf(crc, blocks), key) == |blocks|
    ensures Find(Flatten(blocks), key) == None
  {
    if blocks != [] {
      IndexAt(crc, blocks, |blocks| - 1);
      FlattenLast(blocks);
    }
    AbsentAbove(Flatten(blocks), key);
  }

  lemma InTheBlock(crc: Checksum, blocks: seq<seq<Item>>, key: Bytes)
    requires NonEmpty(blocks) && Sorted(Flatten(blocks)) && FirstNotBelow(IndexOf(crc, blocks), key) < |blocks|
    ensures var i := FirstNotBelow(IndexOf(crc, blocks), key); Find(Flatten(blocks), key) == Find(blocks[i], key) && Sorted(blocks[i])
  {
    hide Find, Sorted;
    var i := FirstNotBelow(IndexOf(crc, blocks), key);
    var after := FlattenSplit(blocks, i);
    IndexAt(crc, blocks, i);
    if i > 0 {
      IndexAt(crc, blocks, i - 1);
      FlattenLast(blocks[..i]);
    }
    FindInBlock(Flatten(blocks[..i]), blocks[i], after, key);
  }

  /** Get on a finished table is lookup in the entries it was built from. */
  lemma GetFinds(crc: Checksum, h: Hash, blocks: seq<seq<Item>>, f: Filter, file: Bytes, numEntries: nat, maxSeq: nat, key: Bytes)
    requires Built(crc, h, blocks, f, file)
    ensures GetIn(crc, h, file, Table(IndexOf(crc, blocks), f, numEntries, maxSeq), key) == Some(Find(Flatten(blocks), key))
  {
    hide Find, May, ReadChecked, Scan, Sorted, FirstNotBelow, DataBytes, IndexOf;
    var ix := IndexOf(crc, blocks);
    if !May(f, h, key) {
      assert Find(Flatten(blocks), key).None?;
    } else if FirstNotBelow(ix, key) == |ix| {
      PastTheEnd(crc, blocks, key);
    } else {
      var i := FirstNotBelow(ix, key);
      var tail :| file == DataBytes(crc, blocks) + tail;
      InTheBlock(crc, blocks, key);
      ReadBlock(crc, blocks, i, tail);
      BlockFits(blocks, i);
      ScanFinds(blocks[i], key);
    }
  }
}
