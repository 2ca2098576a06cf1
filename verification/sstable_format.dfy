/** The entry and index encodings of sstable/block.go. */
module TableBlocks {
  import opened Bytes
  import opened RaftTypes
  import opened LittleEndian
  import opened Varint
  import opened Runs

  predicate ItemFits(it: Item) { |it.key| < TwoTo64 && |it.value| < TwoTo64 && it.seqNum < TwoTo64 }

  function EncodeItem(it: Item): (b: Bytes)
    ensures |b| > 0
  {
    PutVar(|it.key|) + (it.key + ([if it.deleted then 1 else 0] + (PutVar(it.seqNum) + (PutVar(|it.value|) + it.value))))
  }

  /** A counted run of bytes at the front of b, and where it ends. */
  function GetCounted(b: Bytes): (r: Option<(Bytes, nat)>)
    ensures r.Some? ==> 0 < r.value.1 <= |b|
  {
    match GetVar(b)
    case None => None
    case Some((len, n)) => if |b| - n < len then None else Some((b[n..n + len], n + len))
  }

  /** decodeEntry: the first entry of b and how many bytes it takes. */
  function DecodeItem(b: Bytes): (r: Option<(Item, nat)>)
    ensures r.Some? ==> 0 < r.value.1 <= |b|
  {
    match GetCounted(b)
    case None => None
    case Some((key, n)) =>
      if n >= |b| then None
      else
        match GetVar(b[n + 1..])
        case None => None
        case Some((seqNum, n2)) =>
          match GetCounted(b[n + 1 + n2..])
          case None => None
          case Some((value, n3)) => Some((Item(key, value, seqNum, b[n] == 1), n + 1 + n2 + n3))
  }

  function EncodeItems(items: seq<Item>): Bytes {
    if items == [] then [] else EncodeItems(items[..|items| - 1]) + EncodeItem(items[|items| - 1])
  }

  /** Every entry of a block; None if one does not decode. */
  function DecodeItems(b: Bytes): Option<seq<Item>>
    decreases |b|
  {
    if b == [] then Some([])
    else
      match DecodeItem(b)
      case None => None
      case Some((it, n)) =>
        match DecodeItems(b[n..])
        case None => None
        case Some(rest) => Some([it] + rest)
  }

  lemma GetCountedBack(data: Bytes, rest: Bytes)
    requires |data| < TwoTo64
    ensures GetCounted(PutVar(|data|) + (data + rest)) == Some((data, |PutVar(|data|)| + |data|))
  {
    GetPutVar(|data|, data + rest);
    var b, n := PutVar(|data|) + (data + rest), |PutVar(|data|)|;
    assert b[n..n + |data|] == data;
  }

  /** An entry is read back, whatever follows it. */
  lemma DecodeItemBack(it: Item, rest: Bytes)
    requires ItemFits(it)
    ensures DecodeItem(EncodeItem(it) + rest) == Some((it, |EncodeItem(it)|))
  {
    hide PutVar, GetVar, GetCounted;
    var flag: Byte := if it.deleted then 1 else 0;
    var last := PutVar(|it.value|) + (it.value + rest);
    var mid := PutVar(it.seqNum) + last;
    var b := PutVar(|it.key|) + (it.key + ([flag] + mid));
    assert EncodeItem(it) + rest == b;
    GetCountedBack(it.key, [flag] + mid);
    var n := |PutVar(|it.key|)| + |it.key|;
    assert b[n] == flag && b[n + 1..] == mid;
    GetPutVar(it.seqNum, last);
    assert b[n + 1 + |PutVar(it.seqNum)|..] == last;
    GetCountedBack(it.value, rest);
  }

  lemma {:induction false} EncodeFront(items: seq<Item>)
    requires items != []
    ensures EncodeItems(items) == EncodeItem(items[0]) + EncodeItems(items[1..])
    decreases |items|
  {
    hide EncodeItem;
    if |items| > 1 {
      var init := items[..|items| - 1];
      EncodeFront(init);
      assert items[1..][..|items| - 2] == init[1..];
    } else {
      assert items[..0] == [] && items[1..] == [];
    }
  }

  /** A whole block is read back. */
  lemma {:induction false} DecodeItemsBack(items: seq<Item>)
    requires forall i :: 0 <= i < |items| ==> ItemFits(items[i])
    ensures DecodeItems(EncodeItems(items)) == Some(items)
    decreases |items|
  {
    hide EncodeItem, DecodeItem;
    if items != [] {
      var one, rest := EncodeItem(items[0]), EncodeItems(items[1..]);
      EncodeFront(items);
      DecodeItemBack(items[0], rest);
      DecodeItemsBack(items[1..]);
      assert (one + rest)[|one|..] == rest;
      assert items == [items[0]] + items[1..];
    }
  }

  // -------------------------------------------------------------------- index

  datatype IndexEntry = IndexEntry(lastKey: Bytes, offset: nat, length: nat)

  predicate IndexFits(e: IndexEntry) { |e.lastKey| < TwoTo64 && e.offset < TwoTo64 && e.length < TwoTo64 }

  function EncodeIndexEntry(e: IndexEntry): (b: Bytes)
    ensures |b| > 0
  {
    PutVar(|e.lastKey|) + (e.lastKey + (Put(8, e.offset) + Put(8, e.length)))
  }

  function EncodeIndex(es: seq<IndexEntry>): Bytes {
    if es == [] then [] else EncodeIndexEntry(es[0]) + EncodeIndex(es[1..])
  }

  function DecodeIndexEntry(b: Bytes): (r: Option<(IndexEntry, nat)>)
    ensures r.Some? ==> 0 < r.value.1 <= |b|
  {
    match GetCounted(b)
    case None => None
    case Some((key, n)) =>
      if |b| - n < 16 then None else Some((IndexEntry(key, Get(b[n..n + 8]), Get(b[n + 8..n + 16])), n + 16))
  }

  function DecodeIndex(b: Bytes): Option<seq<IndexEntry>>
    decreases |b|
  {
    if b == [] then Some([])
    else
      match DecodeIndexEntry(b)
      case None => None
      case Some((e, n)) =>
        match DecodeIndex(b[n..])
        case None => None
        case Some(rest) => Some([e] + rest)
  }

  lemma DecodeIndexEntryBack(e: IndexEntry, rest: Bytes)
    requires IndexFits(e)
    ensures DecodeIndexEntry(EncodeIndexEntry(e) + rest) == Some((e, |EncodeIndexEntry(e)|))
  {
    hide PutVar, GetCounted, Put, Get;
    var tail := Put(8, e.offset) + Put(8, e.length) + rest;
    var b := PutVar(|e.lastKey|) + (e.lastKey + tail);
    assert EncodeIndexEntry(e) + rest == b;
    GetCountedBack(e.lastKey, tail);
    var n := |PutVar(|e.lastKey|)| + |e.lastKey|;
    assert b[n..] == tail;
    assert b[n..n + 8] == Put(8, e.offset) && b[n + 8..n + 16] == Put(8, e.length);
    GetPut64(e.offset);
    GetPut64(e.length);
  }

  lemma {:induction false} DecodeIndexBack(es: seq<IndexEntry>)
    requires forall i :: 0 <= i < |es| ==> IndexFits(es[i])
    ensures DecodeIndex(EncodeIndex(es)) == Some(es)
    decreases |es|
  {
    hide EncodeIndexEntry, DecodeIndexEntry;
    if es != [] {
      var one, rest := EncodeIndexEntry(es[0]), EncodeIndex(es[1..]);
      DecodeIndexEntryBack(es[0], rest);
      DecodeIndexBack(es[1..]);
      assert (one + rest)[|one|..] == rest;
      assert es == [es[0]] + es[1..];
    }
  }
}
