/** Where the links of a skip list lead, in terms of the heights of its nodes. */
module Towers {
  /** The next position after j whose tower reaches above level i, or the end. */
  ghost function NextAt(hs: seq<nat>, j: nat, i: nat): (r: nat)
    requires j < |hs|
    ensures j < r <= |hs| && (r < |hs| ==> hs[r] > i) && forall m :: j < m < r ==> hs[m] <= i
    decreases |hs| - j
  {
    if j + 1 == |hs| || hs[j + 1] > i then j + 1 else NextAt(hs, j + 1, i)
  }

  lemma NextIs(hs: seq<nat>, j: nat, i: nat, r: nat)
    requires j < r <= |hs| && (r < |hs| ==> hs[r] > i) && forall m :: j < m < r ==> hs[m] <= i
    ensures NextAt(hs, j, i) == r
  {
  }

  ghost function Insert(hs: seq<nat>, p: nat, h: nat): seq<nat>
    requires p <= |hs|
  {
    hs[..p] + [h] + hs[p..]
  }

  /** Inserting a tower: a link that passed over the new position now stops there if the tower is tall enough. */
  lemma NextBefore(hs: seq<nat>, p: nat, h: nat, j: nat, i: nat)
    requires j < p <= |hs|
    ensures var r := NextAt(hs, j, i);
            NextAt(Insert(hs, p, h), j, i) == if r < p then r else if h > i then p else r + 1
  {
    var r, t := NextAt(hs, j, i), Insert(hs, p, h);
    var s := if r < p then r else if h > i then p else r + 1;
    forall m | j < m < s
      ensures t[m] <= i
    {
      if m > p { assert t[m] == hs[m - 1]; }
    }
    NextIs(t, j, i, s);
  }

  /** The new tower's links take over those of its predecessors. */
  lemma NextFrom(hs: seq<nat>, p: nat, h: nat, u: nat, i: nat)
    requires u < p <= |hs| && forall m :: u < m < p ==> hs[m] <= i
    ensures NextAt(Insert(hs, p, h), p, i) == NextAt(hs, u, i) + 1
  {
    var r, t := NextAt(hs, u, i), Insert(hs, p, h);
    forall m | p < m < r + 1
      ensures t[m] <= i
    {
      assert t[m] == hs[m - 1];
    }
    NextIs(t, p, i, r + 1);
  }

  lemma NextAfter(hs: seq<nat>, p: nat, h: nat, j: nat, i: nat)
    requires p <= j < |hs|
    ensures NextAt(Insert(hs, p, h), j + 1, i) == NextAt(hs, j, i) + 1
  {
    var r, t := NextAt(hs, j, i), Insert(hs, p, h);
    forall m | j + 1 < m < r + 1
      ensures t[m] <= i
    {
      assert t[m] == hs[m - 1];
    }
    NextIs(t, j + 1, i, r + 1);
  }

  // -------------------------------------------------------------------- levels

  /** The positions from 1 up to k whose towers reach above level i, in order. */
  ghost function Level(hs: seq<nat>, k: nat, i: nat): (ps: seq<nat>)
    requires k <= |hs|
    ensures forall x :: 0 <= x < |ps| ==> ps[x] < k
  {
    if k <= 1 then [] else Level(hs, k - 1, i) + if hs[k - 1] > i then [k - 1] else []
  }

  lemma {:induction false} LevelSkips(hs: seq<nat>, a: nat, b: nat, i: nat)
    requires 0 < a <= b <= |hs| && forall m :: a <= m < b ==> hs[m] <= i
    ensures Level(hs, b, i) == Level(hs, a, i)
    decreases b
  {
    if a < b { LevelSkips(hs, a, b - 1, i); }
  }

  /** A link of level i leads to the next position of that level. */
  lemma LevelStep(hs: seq<nat>, q: nat, i: nat)
    requires q < |hs|
    ensures var r := NextAt(hs, q, i);
            if r < |hs| then Level(hs, r + 1, i) == Level(hs, q + 1, i) + [r] else Level(hs, |hs|, i) == Level(hs, q + 1, i)
  {
    LevelSkips(hs, q + 1, NextAt(hs, q, i), i);
  }

  /** The positions of a list whose towers reach above level i. */
  ghost function Taller(ps: seq<nat>, hs: seq<nat>, i: nat): seq<nat> {
    if ps == [] then []
    else
      var last := ps[|ps| - 1];
      Taller(ps[..|ps| - 1], hs, i) + if last < |hs| && hs[last] > i then [last] else []
  }

  /** Each level is a sublist of the one below: its positions are those of the lower level that reach higher still. */
  lemma {:induction false} LevelsNest(hs: seq<nat>, k: nat, i: nat)
    requires k <= |hs|
    ensures Level(hs, k, i + 1) == Taller(Level(hs, k, i), hs, i + 1)
    decreases k
  {
    if k > 1 {
      LevelsNest(hs, k - 1, i);
      var below := Level(hs, k - 1, i);
      if hs[k - 1] > i {
        assert Level(hs, k, i) == below + [k - 1] && (below + [k - 1])[..|below|] == below;
      } else {
        assert Level(hs, k, i) == below && Level(hs, k, i + 1) == Level(hs, k - 1, i + 1);
      }
    }
  }

  /** Level 0 holds every position. */
  lemma {:induction false} BottomHoldsAll(hs: seq<nat>, k: nat)
    requires 0 < k <= |hs| && forall m :: 0 < m < k ==> hs[m] > 0
    ensures |Level(hs, k, 0)| == k - 1 && forall x :: 0 <= x < k - 1 ==> Level(hs, k, 0)[x] == x + 1
  {
    if k > 1 { BottomHoldsAll(hs, k - 1); }
  }
}

/** The pointer skip list of memtable/skiplist.go. */
module SkipLists {
  import opened Bytes
  import opened RaftTypes
  import opened ByteOrder
  import opened Runs
  import opened Towers

  const MaxHeight: nat := 16

  class Node {
    const key: Bytes
    var value: Bytes
    var deleted: bool
    var seqNum: nat
    var forward: seq<Node?>

    constructor (key: Bytes, value: Bytes, seqNum: nat, deleted: bool, height: nat)
      ensures this.key == key && this.value == value && this.seqNum == seqNum && this.deleted == deleted
      ensures |forward| == height && forall i :: 0 <= i < height ==> forward[i] == null
    {
      this.key, this.value, this.seqNum, this.deleted := key, value, seqNum, deleted;
      forward := seq(height, _ => null);
    }

    ghost function Content(): Item
      reads this
    {
      Item(key, value, seqNum, deleted)
    }
  }

  type Links = seq<seq<Node?>>

  /** The forward slices of some nodes. */
  ghost function Forwards(all: seq<Node>): (fs: Links)
    reads all
    ensures |fs| == |all| && forall j :: 0 <= j < |all| ==> fs[j] == all[j].forward
  {
    if all == [] then [] else Forwards(all[..|all| - 1]) + [all[|all| - 1].forward]
  }

  ghost function Contents(nodes: seq<Node>): (items: seq<Item>)
    reads nodes
    ensures |items| == |nodes| && forall j :: 0 <= j < |nodes| ==> items[j] == nodes[j].Content()
  {
    if nodes == [] then [] else Contents(nodes[..|nodes| - 1]) + [nodes[|nodes| - 1].Content()]
  }

  ghost function Heights(fs: Links): (hs: seq<nat>)
    ensures |hs| == |fs| && forall j :: 0 <= j < |fs| ==> hs[j] == |fs[j]|
  {
    seq(|fs|, j requires 0 <= j < |fs| => |fs[j]|)
  }

  ghost function NodeAt(all: seq<Node>, r: nat): Node? { if r < |all| then all[r] else null }

  ghost predicate Distinct(all: seq<Node>) {
    forall i, j :: 0 <= i < j < |all| ==> all[i] != all[j]
  }

  /** Past the head, towers have at least one level and at most as many as are in use. */
  ghost predicate Reaching(fs: Links, height: nat) {
    |fs| > 0 && |fs[0]| == MaxHeight && forall j :: 0 < j < |fs| ==> 1 <= |fs[j]| <= height
  }

  ghost predicate Ordered(all: seq<Node>) {
    forall i, j :: 0 < i < j < |all| ==> Less(all[i].key, all[j].key)
  }

  /** Every link leads to the next node whose tower is tall enough. */
  ghost predicate Linked(all: seq<Node>, fs: Links) {
    |fs| == |all|
    && forall j, i :: 0 <= j < |all| && 0 <= i < |fs[j]| ==> fs[j][i] == NodeAt(all, NextAt(Heights(fs), j, i))
  }

  class SkipList {
    const head: Node
    var height: nat
    var length: nat
    ghost var nodes: seq<Node>

    /** The head and every node, in the order of level 0. */
    ghost function All(): (all: seq<Node>)
      reads this
      ensures |all| == |nodes| + 1 && all[0] == head && forall j :: 0 <= j < |nodes| ==> all[j + 1] == nodes[j]
    {
      [head] + nodes
    }

    ghost predicate Valid()
      reads this, All()
    {
      && 1 <= height <= MaxHeight && length == |nodes|
      && Distinct(All()) && Ordered(All()) && Reaching(Forwards(All()), height) && Linked(All(), Forwards(All()))
    }

    /** What the list stands for. */
    ghost function Items(): seq<Item>
      reads this, nodes
    {
      Contents(nodes)
    }

    constructor ()
      ensures Valid() && Items() == [] && nodes == [] && fresh(head)
    {
      head := new Node([], [], 0, false, MaxHeight);
      height, length, nodes := 1, 0, [];
      new;
      hide Forwards, Linked, Contents;
      EmptyLinked(All(), Forwards(All()));
    }

    /** The inner search loop: along level i to the last node below the key. */
    method Along(x: Node, i: nat, key: Bytes, ghost pos: nat) returns (y: Node, ghost q: nat)
      requires Valid() && pos < |All()| && x == All()[pos] && i < |x.forward| && Before(All(), key, pos)
      ensures q < |All()| && y == All()[q] && i < |y.forward| && LastBelow(All(), Heights(Forwards(All())), key, i, q)
    {
      ghost var hs := Heights(Forwards(All()));
      y, q := x, pos;
      while y.forward[i] != null && Less(y.forward[i].key, key)
        invariant q < |All()| && y == All()[q] && i < |y.forward| && Before(All(), key, q)
        decreases |All()| - q
      {
        assert Forwards(All())[q][i] == y.forward[i];
        ghost var r := NextAt(hs, q, i);
        BeforeStep(All(), key, q, r);
        y, q := y.forward[i], r;
      }
      assert Forwards(All())[q][i] == y.forward[i];
      NoneBetween(All(), hs, key, i, q);
    }

    /** get: the node of the key, or null. */
    method Get(key: Bytes) returns (n: Node?)
      requires Valid()
      ensures (n == null) == Find(Items(), key).None?
      ensures n != null ==> n in nodes && Some(n.Content()) == Find(Items(), key)
    {
      hide Linked, Distinct, Ordered, LastBelow, Find, Forwards, Heights, Contents;
      var x := head;
      var i: nat := height;
      ghost var q: nat := 0;
      assert Forwards(All())[0] == head.forward;
      while i > 0
        invariant i <= height && q < |All()| && x == All()[q] && i <= |x.forward| && Before(All(), key, q)
        invariant i < height ==> LastBelow(All(), Heights(Forwards(All())), key, i, q)
      {
        i := i - 1;
        x, q := Along(x, i, key, q);
      }
      n := x.forward[0];
      Bottom(All(), Forwards(All()), height, q);
      assert Forwards(All())[q][0] == n;
      SplitHere(this, key, q);
      if n != null && n.key == key {
        FindAt(Items(), q);
        return n;
      }
      FindSplit(Items(), key, q);
      return null;
    }

    /** The search loop of put: at each level, the last node below the key. */
    method SearchAll(key: Bytes) returns (update: seq<Node>, ghost us: seq<nat>)
      requires Valid()
      ensures |update| == MaxHeight && |us| == MaxHeight
      ensures forall l :: 0 <= l < height ==>
        us[l] < |All()| && update[l] == All()[us[l]] && LastBelow(All(), Heights(Forwards(All())), key, l, us[l])
    {
      hide Linked, Distinct, Ordered, LastBelow, Forwards, Heights;
      update, us := seq(MaxHeight, _ => head), seq(MaxHeight, _ => 0);
      var x := head;
      var i: nat := height;
      ghost var q: nat := 0;
      assert Forwards(All())[0] == head.forward;
      while i > 0
        invariant i <= height && q < |All()| && x == All()[q] && i <= |x.forward| && Before(All(), key, q)
        invariant |update| == MaxHeight && |us| == MaxHeight
        invariant forall l :: i <= l < height ==>
          us[l] < |All()| && update[l] == All()[us[l]] && LastBelow(All(), Heights(Forwards(All())), key, l, us[l])
      {
        i := i - 1;
        x, q := Along(x, i, key, q);
        assert LastBelow(All(), Heights(Forwards(All())), key, i, q);
        BelowBefore(All(), Heights(Forwards(All())), key, i, q);
        update, us := update[i := x], us[i := q];
      }
    }

    /** put for a key the list holds: its node is overwritten in place. */
    method Overwrite(n: Node, it: Item, ghost p: nat)
      requires Valid() && p < |nodes| && nodes[p] == n && n.key == it.key
      modifies n
      ensures Valid() && nodes == old(nodes) && Items() == old(Items())[p := it]
    {
      hide Linked, Ordered, Reaching, Distinct, Forwards, Contents;
      ghost var fs, before := Forwards(All()), Items();
      OthersDiffer(this, p);
      n.value, n.deleted, n.seqNum := it.value, it.deleted, it.seqNum;
      assert Forwards(All()) == fs;
      assert Items() == before[p := it];
    }

    /** The linking loop of put: a new tower takes over the links of its predecessors, level by level. */
    method Link(n: Node, update: seq<Node>, ghost us: seq<nat>, ghost all: seq<Node>)
      requires |n.forward| <= |update| && |us| == |update| && n !in all && Distinct(all)
      requires forall l :: 0 <= l < |n.forward| ==> us[l] < |all| && update[l] == all[us[l]] && l < |all[us[l]].forward|
      modifies n`forward, all`forward
      ensures Halfway(old(Forwards(all)), Forwards(all), n, n.forward, us, |n.forward|)
      ensures |n.forward| == |old(n.forward)|
    {
      hide Forwards;
      for i := 0 to |n.forward|
        invariant |n.forward| == |old(n.forward)| && Halfway(old(Forwards(all)), Forwards(all), n, n.forward, us, i)
      {
        ghost var u, before := us[i], Forwards(all);
        assert before[u] == update[i].forward;
        n.forward := n.forward[i := update[i].forward[i]];
        update[i].forward := update[i].forward[i := n];
        OneChanged(all, u);
        assert Forwards(all) == before[u := before[u][i := n]];
      }
    }

    /** put for a new key, once the search is done: a tower of the given height goes in after position q. */
    method Insert(it: Item, level: nat, update: seq<Node>, ghost us: seq<nat>, ghost q: nat) returns (n: Node)
      requires 1 <= level <= height <= MaxHeight && |update| == MaxHeight && |us| == MaxHeight && q < |All()|
      requires forall l :: 0 <= l < level ==> us[l] < |All()| && update[l] == All()[us[l]]
      requires JoinsAll(Heights(Forwards(All())), q + 1, us, level) && Between(All(), it.key, q) && Valid()
      modifies this`length, this`nodes, All()`forward
      ensures Valid() && Items() == old(Items())[..q] + [it] + old(Items())[q..]
      ensures fresh(n) && nodes == old(nodes)[..q] + [n] + old(nodes)[q..]
    {
      hide Linked, Reaching, Ordered, Distinct, Forwards, Contents, Halfway, Between, JoinsAll, Heights, SkipList.Valid;
      ghost var all, fs, was, items := All(), Forwards(All()), nodes, Items();
      ValidFacts(this);
      n := MakeTower(it, level, update, us, all, q + 1);
      SameContents(was, items);
      Enter(n, fs, us, q);
    }

    /** The new node takes its place in the list's order. */
    method Enter(n: Node, ghost before: Links, ghost us: seq<nat>, ghost q: nat)
      requires q < |All()| && length == |nodes| && n !in All() && 1 <= |n.forward| <= height <= MaxHeight
      requires Distinct(All()) && Ordered(All()) && Reaching(before, height) && Linked(All(), before) && Between(All(), n.key, q)
      requires Halfway(before, Forwards(All()), n, n.forward, us, |n.forward|) && JoinsAll(Heights(before), q + 1, us, |n.forward|)
      modifies this`length, this`nodes
      ensures Valid() && nodes == old(nodes)[..q] + [n] + old(nodes)[q..]
      ensures Items() == old(Items())[..q] + [n.Content()] + old(Items())[q..]
    {
      hide Linked, Reaching, Ordered, Distinct, Forwards, Contents, Halfway, Between, JoinsAll, Heights, SkipList.Valid;
      ghost var all, was := All(), nodes;
      length := length + 1;
      nodes := was[..q] + [n] + was[q..];
      Inserted(this, all, was, before, n, us, q);
    }

    /** A new node, linked into the levels it reaches. */
    method MakeTower(it: Item, level: nat, update: seq<Node>, ghost us: seq<nat>, ghost all: seq<Node>, ghost p: nat) returns (n: Node)
      requires Distinct(all) && level <= |update| == |us| && JoinsAll(Heights(Forwards(all)), p, us, level)
      requires forall l :: 0 <= l < level ==> us[l] < |all| && update[l] == all[us[l]]
      modifies all`forward
      ensures fresh(n) && n.Content() == it && |n.forward| == level
      ensures Halfway(old(Forwards(all)), Forwards(all), n, n.forward, us, level)
    {
      hide Distinct, Forwards, Halfway, JoinsAll, Heights;
      ghost var fs := Forwards(all);
      n := new Node(it.key, it.value, it.seqNum, it.deleted, level);
      assert Forwards(all) == fs;
      JoinSites(all, us, level, p);
      Link(n, update, us, all);
    }

    /** The levels a taller tower opens start at the head. */
    method Widen(level: nat, found: seq<Node>, ghost at: seq<nat>, ghost p: nat) returns (update: seq<Node>, ghost us: seq<nat>)
      requires Valid() && height <= level <= MaxHeight && |found| == MaxHeight && |at| == MaxHeight && 0 < p <= |All()|
      requires JoinsAll(Heights(Forwards(All())), p, at, height)
      requires forall l :: 0 <= l < height ==> at[l] < |All()| && found[l] == All()[at[l]]
      ensures |update| == MaxHeight && |us| == MaxHeight && JoinsAll(Heights(Forwards(All())), p, us, level)
      ensures forall l :: 0 <= l < level ==> us[l] < |All()| && update[l] == All()[us[l]]
    {
      hide Linked, Ordered, Distinct, Forwards, JoinsAll, Heights;
      update, us := found, at;
      for i := height to level
        invariant |update| == MaxHeight && |us| == MaxHeight && JoinsAll(Heights(Forwards(All())), p, us, i)
        invariant forall l :: 0 <= l < i ==> us[l] < |All()| && update[l] == All()[us[l]]
      {
        JoinsHead(Forwards(All()), height, p, us, i);
        update, us := update[i := head], us[i := 0];
      }
    }

    /** put for a new key. */
    method InsertNew(it: Item, level: nat, found: seq<Node>, ghost at: seq<nat>) returns (n: Node)
      requires Valid() && 1 <= level <= MaxHeight && |found| == MaxHeight && |at| == MaxHeight
      requires forall l :: 0 <= l < height ==>
        at[l] < |All()| && found[l] == All()[at[l]] && LastBelow(All(), Heights(Forwards(All())), it.key, l, at[l])
      requires Between(All(), it.key, at[0])
      modifies this, All()`forward
      ensures Valid() && Items() == old(Items())[..at[0]] + [it] + old(Items())[at[0]..]
      ensures fresh(n) && nodes == old(nodes)[..at[0]] + [n] + old(nodes)[at[0]..]
    {
      hide Linked, Ordered, Distinct, Forwards, Contents, LastBelow, JoinsAll, Between, Heights;
      var update := found;
      ghost var us, q := at, at[0];
      JoinsFound(All(), Heights(Forwards(All())), it.key, height, at);
      if level > height {
        update, us := Widen(level, found, at, q + 1);
        ghost var fs := Forwards(All());
        height := level;
        assert Forwards(All()) == fs;
      }
      JoinsFewer(Heights(Forwards(All())), q + 1, us, if level > old(height) then level else old(height), level);
      n := Insert(it, level, update, us, q);
    }

    /** put: the key's item is written, and the change in size returned. */
    method Put(it: Item, level: nat) returns (delta: int, ghost p: nat, ghost added: Node?)
      requires Valid() && 1 <= level <= MaxHeight
      modifies this, All()
      ensures Valid() && Sorted(old(Items())) && Splits(old(Items()), it.key, p)
      ensures Items() == Write(old(Items()), it, p) && delta == Size(Items()) - Size(old(Items()))
      ensures added == null ==> nodes == old(nodes)
      ensures added != null ==> fresh(added) && p <= |old(nodes)| && nodes == old(nodes)[..p] + [added] + old(nodes)[p..]
    {
      hide Linked, Ordered, Distinct, Forwards, Contents, LastBelow, Size, Between;
      var update, us := SearchAll(it.key);
      p, added := us[0], null;
      ghost var items := Items();
      SplitHere(this, it.key, p);
      Bottom(All(), Forwards(All()), height, p);
      var existing := update[0].forward[0];
      assert Forwards(All())[p][0] == existing;
      WriteSize(items, it, p);
      if existing != null && existing.key == it.key {
        assert items[p] == existing.Content();
        var before := |existing.key| + |existing.value| + NodeOverhead;
        Overwrite(existing, it, p);
        delta := |it.key| + |it.value| + NodeOverhead - before;
      } else {
        BetweenHere(this, it.key, p);
        var n := InsertNew(it, level, update, us);
        added := n;
        delta := |it.key| + |it.value| + NodeOverhead;
      }
    }

    /** The iterator: along level 0 from the head. */
    method Scan() returns (items: seq<Item>)
      requires Valid()
      ensures items == Items() && Sorted(items)
    {
      hide Linked, Ordered, Distinct, Forwards, Contents, Reaching, Sorted;
      items := [];
      ghost var q: nat := 0;
      Bottom(All(), Forwards(All()), height, 0);
      assert Forwards(All())[0] == head.forward;
      var x := head.forward[0];
      while x != null
        invariant q < |All()| && x == NodeAt(All(), q + 1) && items == Items()[..q]
        decreases |All()| - q
      {
        assert Items()[q] == x.Content();
        items, q := items + [Item(x.key, x.value, x.seqNum, x.deleted)], q + 1;
        Bottom(All(), Forwards(All()), height, q);
        assert Forwards(All())[q] == x.forward;
        x := x.forward[0];
      }
      SortedItems(this);
    }

    /** Following level i from the head visits exactly the nodes whose towers reach it, in order. */
    method Walk(i: nat) returns (found: seq<Node>)
      requires Valid() && i < height
      ensures Visits(found, All(), Level(Heights(Forwards(All())), |All()|, i))
      ensures i == 0 ==> found == nodes
    {
      hide Ordered, Distinct, Forwards, Level, Linked, Visits, Heights, Reaching, Contents, SkipList.Valid, SkipList.All;
      ValidFacts(this);
      ghost var all, fs := All(), Forwards(All());
      found := [];
      ghost var q: nat := 0;
      HeadReaches(fs, height);
      assert fs[0] == head.forward;
      var x := head.forward[i];
      FirstLevel(Heights(fs), i, all);
      while x != null
        invariant q < |all| && i < |fs[q]| && x == fs[q][i] && Visits(found, all, Level(Heights(fs), q + 1, i))
        decreases |all| - q
      {
        ghost var r := WalkOn(found, all, fs, q, i);
        found, q := found + [x], r;
        assert fs[r] == x.forward;
        x := x.forward[i];
      }
      WalkEnds(found, all, fs, q, i);
      WholeBottom(this, found, i);
    }
  }

  // ---------------------------------------------------------------- searching

  /** Everything up to pos is below the key. */
  ghost predicate Before(all: seq<Node>, key: Bytes, pos: nat) {
    forall m :: 0 < m <= pos && m < |all| ==> Less(all[m].key, key)
  }

  /** Position u is the last one below the key whose tower reaches above level i. */
  ghost predicate LastBelow(all: seq<Node>, hs: seq<nat>, key: Bytes, i: nat, u: nat)
    requires |hs| == |all|
  {
    u < |all| && hs[u] > i && Before(all, key, u) && forall m :: u < m < |all| && Less(all[m].key, key) ==> hs[m] <= i
  }

  lemma BelowBefore(all: seq<Node>, hs: seq<nat>, key: Bytes, i: nat, u: nat)
    requires |hs| == |all| && LastBelow(all, hs, key, i, u)
    ensures u < |all| && hs[u] > i && Before(all, key, u)
  {
  }

  lemma BeforeStep(all: seq<Node>, key: Bytes, q: nat, r: nat)
    requires q < r < |all| && Ordered(all) && Less(all[r].key, key)
    ensures Before(all, key, r)
  {
    forall m | 0 < m < r
      ensures Less(all[m].key, key)
    {
      LessTrans(all[m].key, all[r].key, key);
    }
  }

  /** Where level i stops, nothing below the key is left on it. */
  lemma NoneBetween(all: seq<Node>, hs: seq<nat>, key: Bytes, i: nat, q: nat)
    requires |hs| == |all| && q < |all| && hs[q] > i && Before(all, key, q) && Ordered(all)
    requires var r := NextAt(hs, q, i); r < |all| ==> !Less(all[r].key, key)
    ensures LastBelow(all, hs, key, i, q)
  {
    var r := NextAt(hs, q, i);
    forall m | q < m < |all| && Less(all[m].key, key)
      ensures hs[m] <= i
    {
      if r < m { LessTrans(all[r].key, all[m].key, key); }
    }
  }

  /** On level 0 the next node is the next position. */
  lemma Bottom(all: seq<Node>, fs: Links, height: nat, q: nat)
    requires |all| == |fs| && q < |fs| && Reaching(fs, height) && Linked(all, fs)
    ensures |fs[q]| > 0 && fs[q][0] == NodeAt(all, q + 1)
  {
    NextIs(Heights(fs), q, 0, q + 1);
  }

  /** At the bottom level the last node below the key splits the run. */
  lemma SplitHere(l: SkipList, key: Bytes, q: nat)
    requires l.Valid() && LastBelow(l.All(), Heights(Forwards(l.All())), key, 0, q)
    ensures Sorted(l.Items()) && Splits(l.Items(), key, q)
  {
    hide Linked, Distinct, Ordered, Forwards, Heights, Reaching, Sorted, Less, Before, LastBelow, Contents, SkipList.Valid, SkipList.All;
    SortedItems(l);
    ValidFacts(l);
    ghost var all := l.All();
    forall i | 0 <= i < |l.Items()|
      ensures i < q ==> Less(l.Items()[i].key, key)
      ensures i >= q ==> !Less(l.Items()[i].key, key)
    {
      assert l.Items()[i] == l.nodes[i].Content() && all[i + 1] == l.nodes[i];
      SideOf(all, Forwards(all), l.height, key, q, i + 1);
    }
    assert q <= |l.Items()| by { LastBelowBound(all, Heights(Forwards(all)), key, q); }
  }

  lemma LastBelowBound(all: seq<Node>, hs: seq<nat>, key: Bytes, q: nat)
    requires |hs| == |all| && LastBelow(all, hs, key, 0, q)
    ensures q < |all|
  {
  }

  lemma SideOf(all: seq<Node>, fs: Links, height: nat, key: Bytes, q: nat, m: nat)
    requires 0 < m < |all| == |fs| && Reaching(fs, height) && LastBelow(all, Heights(fs), key, 0, q)
    ensures m <= q <==> Less(all[m].key, key)
  {
    hide Less;
    assert Heights(fs)[m] >= 1;
  }

  lemma SortedItems(l: SkipList)
    requires l.Valid()
    ensures Sorted(l.Items())
  {
    hide Linked, Distinct, Forwards, Reaching;
    var all, items := l.All(), l.Items();
    forall i | 0 <= i < |items|
      ensures items[i].key == all[i + 1].key
    {
      assert items[i] == l.nodes[i].Content();
    }
  }

  lemma OthersDiffer(l: SkipList, p: nat)
    requires l.Valid() && p < |l.nodes|
    ensures l.head != l.nodes[p] && forall j :: 0 <= j < |l.nodes| && j != p ==> l.nodes[j] != l.nodes[p]
  {
    hide Linked, Ordered, Reaching;
    assert l.All()[p + 1] == l.nodes[p];
    forall j | 0 <= j < |l.nodes| && j != p
      ensures l.nodes[j] != l.nodes[p]
    {
      assert l.All()[j + 1] == l.nodes[j];
    }
  }

  // --------------------------------------------------------------- inserting

  /** At level i, position u is where a tower inserted at position p is linked in. */
  ghost predicate Joins(hs: seq<nat>, p: nat, i: nat, u: nat) {
    u < p <= |hs| && hs[u] > i && forall m :: u < m < p ==> hs[m] <= i
  }

  /** Where each level of a tower of height h inserted at position p is linked in. */
  ghost predicate JoinsAll(hs: seq<nat>, p: nat, us: seq<nat>, h: nat) {
    h <= |us| && forall i :: 0 <= i < h ==> Joins(hs, p, i, us[i])
  }

  lemma JoinsFewer(hs: seq<nat>, p: nat, us: seq<nat>, h: nat, k: nat)
    requires JoinsAll(hs, p, us, h) && k <= h
    ensures JoinsAll(hs, p, us, k)
  {
  }

  lemma JoinAt(hs: seq<nat>, p: nat, us: seq<nat>, h: nat, i: nat)
    requires JoinsAll(hs, p, us, h) && i < h
    ensures i < |us| && Joins(hs, p, i, us[i]) && us[i] < |hs| && hs[us[i]] > i
  {
  }

  /** The key belongs right after position q. */
  ghost predicate Between(all: seq<Node>, key: Bytes, q: nat) {
    q < |all| && (forall m :: 0 < m <= q ==> Less(all[m].key, key)) && (forall m :: q < m < |all| ==> Less(key, all[m].key))
  }

  /** The links after the first i levels of a new tower have been threaded in. */
  ghost predicate Halfway(before: Links, fs: Links, n: Node, tower: seq<Node?>, us: seq<nat>, i: nat) {
    && |fs| == |before| && i <= |us| && i <= |tower|
    && (forall l :: 0 <= l < i ==> us[l] < |before| && l < |before[us[l]]| && tower[l] == before[us[l]][l])
    && (forall j :: 0 <= j < |fs| ==> |fs[j]| == |before[j]|)
    && (forall j, l :: 0 <= j < |fs| && 0 <= l < |fs[j]| ==> fs[j][l] == if l < i && j == us[l] then n else before[j][l])
  }

  /** The nodes found are those at the given positions. */
  ghost predicate Visits(found: seq<Node>, all: seq<Node>, ps: seq<nat>) {
    |found| == |ps| && forall x :: 0 <= x < |ps| ==> ps[x] < |all| && found[x] == all[ps[x]]
  }

  lemma FirstLevel(hs: seq<nat>, i: nat, all: seq<Node>)
    requires |hs| > 0
    ensures Visits([], all, Level(hs, 1, i))
  {
  }

  lemma VisitsMore(found: seq<Node>, all: seq<Node>, ps: seq<nat>, r: nat)
    requires Visits(found, all, ps) && r < |all|
    ensures Visits(found + [all[r]], all, ps + [r])
  {
  }

  /** One step along level i, and the end of it. */
  lemma WalkOn(found: seq<Node>, all: seq<Node>, fs: Links, q: nat, i: nat) returns (r: nat)
    requires |fs| == |all| && Linked(all, fs) && q < |all| && i < |fs[q]| && fs[q][i] != null
    requires Visits(found, all, Level(Heights(fs), q + 1, i))
    ensures q < r < |all| && all[r] == fs[q][i] && i < |fs[r]| && Visits(found + [all[r]], all, Level(Heights(fs), r + 1, i))
  {
    hide Level, Linked, Visits;
    LinkedAt(all, fs, q, i);
    r := NextAt(Heights(fs), q, i);
    LevelStep(Heights(fs), q, i);
    VisitsMore(found, all, Level(Heights(fs), q + 1, i), r);
  }

  lemma WalkEnds(found: seq<Node>, all: seq<Node>, fs: Links, q: nat, i: nat)
    requires |fs| == |all| && Linked(all, fs) && q < |all| && i < |fs[q]| && fs[q][i] == null
    requires Visits(found, all, Level(Heights(fs), q + 1, i))
    ensures Visits(found, all, Level(Heights(fs), |all|, i))
  {
    hide Level, Linked, Visits;
    LinkedAt(all, fs, q, i);
    LevelStep(Heights(fs), q, i);
  }

  /** The bottom level is every node. */
  lemma VisitsAll(found: seq<Node>, all: seq<Node>, fs: Links, height: nat)
    requires |fs| == |all| && Reaching(fs, height) && Visits(found, all, Level(Heights(fs), |all|, 0))
    ensures |all| > 0 && found == all[1..]
  {
    hide Level;
    BottomHoldsAll(Heights(fs), |all|);
  }

  lemma WholeBottom(list: SkipList, found: seq<Node>, i: nat)
    requires list.Valid() && Visits(found, list.All(), Level(Heights(Forwards(list.All())), |list.All()|, i))
    ensures i == 0 ==> found == list.nodes
  {
    hide Ordered, Distinct, Level, Linked, Visits, Heights, Contents;
    if i == 0 { VisitsAll(found, list.All(), Forwards(list.All()), list.height); }
  }

  lemma HeadReaches(fs: Links, height: nat)
    requires Reaching(fs, height)
    ensures |fs| > 0 && |fs[0]| == MaxHeight
  {
  }

  lemma OneChanged(all: seq<Node>, u: nat)
    requires Distinct(all) && u < |all|
    ensures forall j :: 0 <= j < |all| && j != u ==> all[j] != all[u]
  {
  }

  lemma EmptyLinked(all: seq<Node>, fs: Links)
    requires |all| == 1 && |fs| == 1 && forall i :: 0 <= i < |fs[0]| ==> fs[0][i] == null
    ensures Linked(all, fs)
  {
    forall i | 0 <= i < |fs[0]| ensures NextAt(Heights(fs), 0, i) == 1 { NextIs(Heights(fs), 0, i, 1); }
  }

  lemma ValidFacts(l: SkipList)
    requires l.Valid()
    ensures 1 <= l.height <= MaxHeight && l.length == |l.nodes|
    ensures Distinct(l.All()) && Ordered(l.All()) && Reaching(Forwards(l.All()), l.height) && Linked(l.All(), Forwards(l.All()))
  {
  }

  lemma ForwardsConcat(a: seq<Node>, b: seq<Node>)
    ensures Forwards(a + b) == Forwards(a) + Forwards(b)
  {
    hide Forwards;
  }

  lemma SplicedForwards(all: seq<Node>, n: Node, p: nat)
    requires p <= |all|
    ensures Forwards(all[..p] + [n] + all[p..]) == Forwards(all)[..p] + [n.forward] + Forwards(all)[p..]
  {
    hide Forwards;
    ForwardsConcat(all[..p] + [n], all[p..]);
    ForwardsConcat(all[..p], [n]);
    ForwardsConcat(all[..p], all[p..]);
    assert all == all[..p] + all[p..];
    assert Forwards([n]) == [n.forward];
  }

  lemma GrownAt(all: seq<Node>, n: Node, p: nat, r: nat)
    requires p <= |all|
    ensures NodeAt(all[..p] + [n] + all[p..], p) == n
    ensures NodeAt(all[..p] + [n] + all[p..], if r < p then r else r + 1) == NodeAt(all, r)
  {
  }

  lemma LinkBefore(all: seq<Node>, hs: seq<nat>, n: Node, h: nat, p: nat, u: nat, j: nat, l: nat)
    requires |hs| == |all| && j < p <= |all| && hs[j] > l && (l < h ==> Joins(hs, p, l, u))
    ensures (if l < h && j == u then n else NodeAt(all, NextAt(hs, j, l)))
            == NodeAt(all[..p] + [n] + all[p..], NextAt(Towers.Insert(hs, p, h), j, l))
  {
    var r := NextAt(hs, j, l);
    hide NextAt, Towers.Insert;
    GrownAt(all, n, p, r);
    NextBefore(hs, p, h, j, l);
    assert l < h ==> j == u || r <= u;
  }

  lemma LinkNew(all: seq<Node>, hs: seq<nat>, n: Node, h: nat, p: nat, u: nat, l: nat)
    requires |hs| == |all| && p <= |all| && Joins(hs, p, l, u)
    ensures NodeAt(all, NextAt(hs, u, l)) == NodeAt(all[..p] + [n] + all[p..], NextAt(Towers.Insert(hs, p, h), p, l))
  {
    var r := NextAt(hs, u, l);
    hide NextAt, Towers.Insert;
    GrownAt(all, n, p, r);
    NextFrom(hs, p, h, u, l);
  }

  lemma LinkAfter(all: seq<Node>, hs: seq<nat>, n: Node, h: nat, p: nat, j: nat, l: nat)
    requires |hs| == |all| && p <= j < |all|
    ensures NodeAt(all, NextAt(hs, j, l)) == NodeAt(all[..p] + [n] + all[p..], NextAt(Towers.Insert(hs, p, h), j + 1, l))
  {
    hide NextAt, Towers.Insert;
    GrownAt(all, n, p, NextAt(hs, j, l));
    NextAfter(hs, p, h, j, l);
  }

  lemma LinkedAt(all: seq<Node>, fs: Links, j: nat, l: nat)
    requires Linked(all, fs) && j < |all| && l < |fs[j]|
    ensures fs[j][l] == NodeAt(all, NextAt(Heights(fs), j, l))
  {
  }

  lemma HalfwayAt(before: Links, fs: Links, n: Node, tower: seq<Node?>, us: seq<nat>, i: nat, j: nat, l: nat)
    requires Halfway(before, fs, n, tower, us, i) && j < |fs| && l < |fs[j]|
    ensures j < |before| && |fs[j]| == |before[j]| && fs[j][l] == if l < i && j == us[l] then n else before[j][l]
  {
  }

  lemma TowerAt(before: Links, fs: Links, n: Node, tower: seq<Node?>, us: seq<nat>, l: nat)
    requires Halfway(before, fs, n, tower, us, |tower|) && l < |tower|
    ensures l < |us| && us[l] < |before| && l < |before[us[l]]| && tower[l] == before[us[l]][l]
  {
  }

  /** One link of the list with the new tower threaded in. */
  lemma InsertLinkedAt(all: seq<Node>, before: Links, fs: Links, n: Node, tower: seq<Node?>, us: seq<nat>, p: nat, j: nat, l: nat)
    requires Linked(all, before) && Halfway(before, fs, n, tower, us, |tower|) && p <= |all| == |fs| == |before|
    requires j <= |all| && l < |(fs[..p] + [tower] + fs[p..])[j]|
    requires JoinsAll(Heights(before), p, us, |tower|)
    ensures (fs[..p] + [tower] + fs[p..])[j][l]
            == NodeAt(all[..p] + [n] + all[p..], NextAt(Towers.Insert(Heights(before), p, |tower|), j, l))
  {
    hide Linked, Halfway, NextAt, Towers.Insert, NodeAt, Joins, JoinsAll;
    var hs := Heights(before);
    if l < |tower| { JoinAt(hs, p, us, |tower|, l); }
    JoinsWidth(hs, p, us, |tower|);
    var u := if l < |tower| then us[l] else 0;
    if j < p {
      HalfwayAt(before, fs, n, tower, us, |tower|, j, l);
      LinkedAt(all, before, j, l);
      LinkBefore(all, hs, n, |tower|, p, u, j, l);
    } else if j == p {
      TowerAt(before, fs, n, tower, us, l);
      LinkedAt(all, before, u, l);
      LinkNew(all, hs, n, |tower|, p, u, l);
    } else {
      HalfwayAt(before, fs, n, tower, us, |tower|, j - 1, l);
      LinkedAt(all, before, j - 1, l);
      LinkAfter(all, hs, n, |tower|, p, j - 1, l);
    }
  }

  lemma JoinsWidth(hs: seq<nat>, p: nat, us: seq<nat>, h: nat)
    requires JoinsAll(hs, p, us, h)
    ensures h <= |us|
  {
  }

  lemma InsertHeights(before: Links, fs: Links, n: Node, tower: seq<Node?>, us: seq<nat>, p: nat)
    requires Halfway(before, fs, n, tower, us, |tower|) && p <= |fs|
    ensures |fs| == |before| && Heights(fs[..p] + [tower] + fs[p..]) == Towers.Insert(Heights(before), p, |tower|)
  {
  }

  /** Threading the new tower in keeps every link right. */
  lemma InsertLinked(all: seq<Node>, before: Links, fs: Links, n: Node, tower: seq<Node?>, us: seq<nat>, p: nat)
    requires Linked(all, before) && Halfway(before, fs, n, tower, us, |tower|) && p <= |all| == |fs|
    requires JoinsAll(Heights(before), p, us, |tower|)
    ensures Linked(all[..p] + [n] + all[p..], fs[..p] + [tower] + fs[p..])
  {
    hide Halfway, Joins, JoinsAll, NextAt, Towers.Insert, NodeAt, Heights;
    var grown, links := all[..p] + [n] + all[p..], fs[..p] + [tower] + fs[p..];
    InsertHeights(before, fs, n, tower, us, p);
    forall j, l | 0 <= j < |grown| && 0 <= l < |links[j]|
      ensures links[j][l] == NodeAt(grown, NextAt(Heights(links), j, l))
    {
      InsertLinkedAt(all, before, fs, n, tower, us, p, j, l);
    }
  }

  lemma InsertReaching(before: Links, fs: Links, n: Node, tower: seq<Node?>, us: seq<nat>, p: nat, height: nat)
    requires Reaching(before, height) && Halfway(before, fs, n, tower, us, |tower|) && 0 < p <= |fs| && 1 <= |tower| <= height
    ensures Reaching(fs[..p] + [tower] + fs[p..], height)
  {
  }

  lemma InsertOrdered(all: seq<Node>, n: Node, p: nat)
    requires Ordered(all) && 0 < p <= |all| && Between(all, n.key, p - 1)
    ensures Ordered(all[..p] + [n] + all[p..])
  {
  }

  lemma InsertDistinct(all: seq<Node>, n: Node, p: nat)
    requires Distinct(all) && n !in all && p <= |all|
    ensures Distinct(all[..p] + [n] + all[p..])
  {
  }

  lemma JoinSites(all: seq<Node>, us: seq<nat>, level: nat, p: nat)
    requires JoinsAll(Heights(Forwards(all)), p, us, level)
    ensures level <= |us| && forall l :: 0 <= l < level ==> us[l] < |all| && l < |all[us[l]].forward|
  {
    hide Forwards, JoinsAll;
    JoinsWidth(Heights(Forwards(all)), p, us, level);
    forall l | 0 <= l < level
      ensures us[l] < |all| && l < |all[us[l]].forward|
    {
      JoinAt(Heights(Forwards(all)), p, us, level, l);
    }
  }

  /** The list once the new node is in place. */
  lemma Inserted(l: SkipList, all: seq<Node>, nodes: seq<Node>, before: Links, n: Node, us: seq<nat>, q: nat)
    requires all == [l.head] + nodes && q <= |nodes| && l.nodes == nodes[..q] + [n] + nodes[q..] && l.length == |nodes| + 1
    requires n !in all && 1 <= |n.forward| <= l.height <= MaxHeight
    requires Distinct(all) && Ordered(all) && Reaching(before, l.height) && Linked(all, before) && Between(all, n.key, q)
    requires Halfway(before, Forwards(all), n, n.forward, us, |n.forward|)
    requires JoinsAll(Heights(before), q + 1, us, |n.forward|)
    ensures l.Valid() && l.Items() == Contents(nodes)[..q] + [n.Content()] + Contents(nodes)[q..]
  {
    hide Linked, Reaching, Ordered, Distinct, Forwards, Contents, Halfway, Between, JoinsAll, Heights;
    assert l.All() == all[..q + 1] + [n] + all[q + 1..];
    InsertedWhole(all, l.All(), before, n, us, q + 1, l.height);
    SplicedContents(nodes, n, q);
  }

  lemma InsertedWhole(all: seq<Node>, now: seq<Node>, before: Links, n: Node, us: seq<nat>, p: nat, height: nat)
    requires 0 < p <= |all| && now == all[..p] + [n] + all[p..] && n !in all && 1 <= |n.forward| <= height <= MaxHeight
    requires Distinct(all) && Ordered(all) && Reaching(before, height) && Linked(all, before) && Between(all, n.key, p - 1)
    requires Halfway(before, Forwards(all), n, n.forward, us, |n.forward|) && JoinsAll(Heights(before), p, us, |n.forward|)
    ensures Distinct(now) && Ordered(now) && Reaching(Forwards(now), height) && Linked(now, Forwards(now))
  {
    hide Linked, Reaching, Ordered, Distinct, Forwards, Halfway, Between, JoinsAll, Heights;
    SplicedForwards(all, n, p);
    InsertLinked(all, before, Forwards(all), n, n.forward, us, p);
    InsertReaching(before, Forwards(all), n, n.forward, us, p, height);
    InsertOrdered(all, n, p);
    InsertDistinct(all, n, p);
  }

  lemma SplicedIn(nodes: seq<Node>, n: Node, q: nat)
    requires q <= |nodes|
    ensures forall x :: x in nodes[..q] + [n] + nodes[q..] ==> x in nodes || x == n
  {
  }

  lemma SameContents(nodes: seq<Node>, items: seq<Item>)
    requires |items| == |nodes| && forall j :: 0 <= j < |nodes| ==> nodes[j].Content() == items[j]
    ensures Contents(nodes) == items
  {
    hide Contents;
  }

  lemma ContentsConcat(a: seq<Node>, b: seq<Node>)
    ensures Contents(a + b) == Contents(a) + Contents(b)
  {
    hide Contents;
  }

  lemma SplicedContents(nodes: seq<Node>, n: Node, q: nat)
    requires q <= |nodes|
    ensures Contents(nodes[..q] + [n] + nodes[q..]) == Contents(nodes)[..q] + [n.Content()] + Contents(nodes)[q..]
  {
    hide Contents;
    ContentsConcat(nodes[..q] + [n], nodes[q..]);
    ContentsConcat(nodes[..q], [n]);
    ContentsConcat(nodes[..q], nodes[q..]);
    assert nodes == nodes[..q] + nodes[q..];
    assert Contents([n]) == [n.Content()];
  }

  lemma JoinsFound(all: seq<Node>, hs: seq<nat>, key: Bytes, height: nat, us: seq<nat>)
    requires |hs| == |all| && 0 < height <= |us| && Between(all, key, us[0])
    requires forall l :: 0 <= l < height ==> LastBelow(all, hs, key, l, us[l])
    ensures us[0] < |all| && JoinsAll(hs, us[0] + 1, us, height)
  {
    forall l | 0 <= l < height
      ensures Joins(hs, us[0] + 1, l, us[l])
    {
      assert LastBelow(all, hs, key, l, us[l]);
      if us[0] < us[l] {
        LessAsym(key, all[us[l]].key);
      }
    }
  }

  lemma JoinsHead(fs: Links, height: nat, p: nat, us: seq<nat>, l: nat)
    requires Reaching(fs, height) && height <= l < MaxHeight && 0 < p <= |fs| && JoinsAll(Heights(fs), p, us, l) && l < |us|
    ensures JoinsAll(Heights(fs), p, us[l := 0], l + 1)
  {
  }

  /** A key that splits the run and is not in it lies strictly between its neighbours. */
  lemma BetweenHere(l: SkipList, key: Bytes, q: nat)
    requires l.Valid() && q < |l.All()| && Splits(l.Items(), key, q) && (q + 1 < |l.All()| ==> l.All()[q + 1].key != key)
    ensures Between(l.All(), key, q)
  {
    hide Linked, Distinct, Forwards, Contents;
    var all, items := l.All(), l.Items();
    forall m | 0 < m < |all|
      ensures items[m - 1].key == all[m].key
    {
      assert items[m - 1] == l.nodes[m - 1].Content();
    }
    forall m | q < m < |all|
      ensures Less(key, all[m].key)
    {
      LessTotal(key, all[m].key);
      if m > q + 1 {
        LessTotal(key, all[q + 1].key);
        LessTrans(key, all[q + 1].key, all[m].key);
      }
    }
  }
}

/** Memtable: the skip list and a running total of its size. */
module Memtables {
  import opened Bytes
  import opened RaftTypes
  import opened Runs
  import opened SkipLists

  lemma Rewritten(items: seq<Item>, it: Item, p: nat)
    requires Sorted(items) && Splits(items, it.key, p)
    ensures forall key :: Find(Write(items, it, p), key) == if key == it.key then Some(it) else Find(items, key)
  {
    hide Find, Write, Sorted;
    forall key: Bytes
      ensures Find(Write(items, it, p), key) == if key == it.key then Some(it) else Find(items, key)
    {
      FindWrite(items, it, p, key);
    }
  }

  class Memtable {
    const list: SkipList
    var approxSize: int
    ghost var contents: seq<Item>
    ghost var repr: set<object>

    ghost predicate Valid()
      reads this, repr
    {
      && this in repr && list in repr && (forall n :: n in list.All() ==> n in repr)
      && list.Valid() && contents == list.Items() && approxSize == Size(contents)
    }

    constructor ()
      ensures Valid() && contents == [] && approxSize == 0 && fresh(repr)
    {
      list := new SkipList();
      approxSize, contents := 0, [];
      new;
      repr := {this, list, list.head};
    }

    /** Put and Delete: the key answers with the new item, every other key as before. */
    method Write(it: Item, level: nat)
      requires Valid() && 1 <= level <= MaxHeight
      modifies repr
      ensures Valid() && fresh(repr - old(repr))
      ensures forall key :: Find(contents, key) == if key == it.key then Some(it) else Find(old(contents), key)
    {
      hide Size, Find, Sorted, Splits, Runs.Write, SkipList.Valid, SkipList.Items;
      ghost var items := list.Items();
      ghost var was := list.nodes;
      var delta, p, added := list.Put(it, level);
      ghost var now := list.Items();
      ghost var nodes := set n | n in list.All();
      if added != null { SplicedIn(was, added, p); }
      approxSize, contents, repr := approxSize + delta, now, repr + nodes;
      assert list.Valid() && list.Items() == now;
      Rewritten(items, it, p);
    }

    /** Get: None only for a key never written here; a tombstone is found and deleted. */
    method Get(key: Bytes) returns (r: Option<Item>)
      requires Valid()
      ensures r == Find(contents, key)
    {
      hide Find;
      var n := list.Get(key);
      if n == null { return None; }
      return Some(Item(n.key, n.value, n.seqNum, n.deleted));
    }

    /** The iterator, from first to last. */
    method Scan() returns (items: seq<Item>)
      requires Valid()
      ensures items == contents && Sorted(items)
    {
      items := list.Scan();
    }
  }
}
