/**
 * Replication goes on: every peer is written to, a lagging one is probed further and further back until
 * it accepts, then has all the leader has, and what a majority holds is committed.
 */
module RaftCatchUp {
  import opened Bytes
  import opened RaftTypes
  import opened Quorums
  import opened RaftNode
  import opened RaftCluster
  import opened RaftSteps
  import opened RaftElections
  import opened RaftProgress

  // ------------------------------------------------------------------- what goes out

  /** The index a probe of the peer starts after. */
  function ProbeAt(n: Node, p: Id): nat {
    if At(n.sentIndex, p) > Pred(At(n.nextIndex, p)) then At(n.sentIndex, p) else Pred(At(n.nextIndex, p))
  }

  /** What a leader sends a peer: all it has after the probe's start, or its snapshot to one that needs compacted entries. */
  function LetterTo(n: Node, p: Id, ctx: nat): Message
    requires LogOk(n.log)
  {
    Message(n.id, p, n.currentTerm,
            if Pred(At(n.nextIndex, p)) < Base(n.log) then InstallSnapshot(n.snapshot)
            else AppendEntries(ProbeAt(n, p), TermIn(n.log, ProbeAt(n, p)), EntriesIn(n.log, ProbeAt(n, p), LastIndex(n.log)), n.commitIndex, ctx))
  }

  function LettersTo(n: Node, to: seq<Id>, ctx: nat): (ms: seq<Message>)
    requires LogOk(n.log)
    ensures |ms| == |to| && forall i :: 0 <= i < |to| ==> ms[i] == LetterTo(n, to[i], ctx)
  {
    if to == [] then [] else [LetterTo(n, to[0], ctx)] + LettersTo(n, to[1..], ctx)
  }

  predicate Distinct(to: seq<Id>) { forall i, j :: 0 <= i < j < |to| ==> to[i] != to[j] }

  lemma OneLetter(n: Node, p: Id, ctx: nat)
    requires LogOk(n.log)
    ensures var r := SendAppend(n, p, ctx);
            r.msgs == n.msgs + [LetterTo(n, p, ctx)] && r == n.(msgs := r.msgs, sentIndex := r.sentIndex) && forall q :: q != p ==> At(r.sentIndex, q) == At(n.sentIndex, q)
  {
    hide LogOk, EntriesIn, TermIn;
  }

  lemma SameLetter(n: Node, r: Node, p: Id, ctx: nat)
    requires LogOk(n.log) && r == n.(msgs := r.msgs, sentIndex := r.sentIndex) && At(r.sentIndex, p) == At(n.sentIndex, p)
    ensures LetterTo(r, p, ctx) == LetterTo(n, p, ctx)
  {
    hide LogOk, EntriesIn, TermIn;
  }

  /** Each of them gets one message. */
  lemma {:induction false} EveryoneWrittenTo(n: Node, to: seq<Id>, ctx: nat)
    requires LogOk(n.log) && Distinct(to)
    ensures SendAppends(n, to, ctx).msgs == n.msgs + LettersTo(n, to, ctx)
    decreases |to|
  {
    hide LogOk, SendAppend, LetterTo, LettersTo;
    if to == [] {
      assert n.msgs + LettersTo(n, to, ctx) == n.msgs;
    } else {
      OneLetter(n, to[0], ctx);
      var r, rest := SendAppend(n, to[0], ctx), to[1..];
      EveryoneWrittenTo(r, rest, ctx);
      OthersSame(n, r, to, ctx);
      FirstOf(n, to, ctx);
      assert n.msgs + [LetterTo(n, to[0], ctx)] + LettersTo(n, rest, ctx) == n.msgs + ([LetterTo(n, to[0], ctx)] + LettersTo(n, rest, ctx));
    }
  }

  lemma OthersSame(n: Node, r: Node, to: seq<Id>, ctx: nat)
    requires LogOk(n.log) && to != [] && Distinct(to) && r == n.(msgs := r.msgs, sentIndex := r.sentIndex)
    requires forall q :: q != to[0] ==> At(r.sentIndex, q) == At(n.sentIndex, q)
    ensures LettersTo(r, to[1..], ctx) == LettersTo(n, to[1..], ctx)
  {
    hide LogOk, LetterTo, LettersTo;
    forall i | 0 <= i < |to[1..]|
      ensures LetterTo(r, to[1..][i], ctx) == LetterTo(n, to[1..][i], ctx)
    {
      SameLetter(n, r, to[1..][i], ctx);
    }
    SameLettersTo(n, r, to[1..], ctx);
  }

  lemma FirstOf(n: Node, to: seq<Id>, ctx: nat)
    requires LogOk(n.log) && to != []
    ensures LettersTo(n, to, ctx) == [LetterTo(n, to[0], ctx)] + LettersTo(n, to[1..], ctx)
  {
    hide LogOk, LetterTo;
  }

  lemma SameLettersTo(n: Node, r: Node, to: seq<Id>, ctx: nat)
    requires LogOk(n.log) && LogOk(r.log) && forall i :: 0 <= i < |to| ==> LetterTo(r, to[i], ctx) == LetterTo(n, to[i], ctx)
    ensures LettersTo(r, to, ctx) == LettersTo(n, to, ctx)
  {
    hide LogOk, LetterTo, LettersTo;
  }

  /** A leader's heartbeat, its new entries and its read requests go to every peer. */
  lemma LeaderWrites(n: Node, datas: seq<Bytes>, ctx: nat)
    requires LogOk(n.log) && n.role == Leader && n.peers != [] && Distinct(n.peers)
    ensures AfterHeartbeat(n).msgs == n.msgs + LettersTo(n, n.peers, 0)
    ensures var log := n.log + NewEntries(n.currentTerm, LastIndex(n.log) + 1, datas);
            LogOk(log) && AfterPropose(n, datas).log == log && AfterPropose(n, datas).msgs == n.msgs + LettersTo(n.(log := log), n.peers, 0)
    ensures !HasMajority(n, 1) ==>
      && AfterReadRequest(n, ctx).msgs == n.msgs + LettersTo(n, n.peers, ctx)
      && ctx in AfterReadRequest(n, ctx).pendingReads && AfterReadRequest(n, ctx).pendingReads[ctx] == PendingRead(n.commitIndex, {n.id})
  {
    hide LogOk, SendAppends, LettersTo, LetterTo, HasMajority;
    EveryoneWrittenTo(n, n.peers, 0);
    NewLogOk(n.log, n.currentTerm, datas);
    EveryoneWrittenTo(n.(log := n.log + NewEntries(n.currentTerm, LastIndex(n.log) + 1, datas)), n.peers, 0);
    var p := n.(pendingReads := n.pendingReads[ctx := PendingRead(n.commitIndex, {n.id})]);
    EveryoneWrittenTo(p, n.peers, ctx);
    SendAppendsSame(p, n.peers, ctx);
    forall i | 0 <= i < |n.peers| ensures LetterTo(p, n.peers[i], ctx) == LetterTo(n, n.peers[i], ctx) { ReadLetter(n, p, n.peers[i], ctx); }
    SameLettersTo(n, p, n.peers, ctx);
  }

  /** A leader that is a majority by itself answers a read at once, from its commit index. */
  lemma LoneRead(ids: set<Id>, n: Node, v: Id, ctx: nat)
    requires Wired(ids, n, v) && LogOk(n.log) && n.role == Leader && n.peers == []
    ensures var r := AfterReadRequest(n, ctx);
            r == n.(readStates := n.readStates + [ReadState(n.commitIndex, ctx)], pendingReads := n.pendingReads - {ctx})
  {
    hide LogOk, HasMajority;
    MajorityExact(ids, n, v, {v});
    assert ids == {v};
  }

  lemma ReadLetter(n: Node, p: Node, q: Id, ctx: nat)
    requires LogOk(n.log) && p == n.(pendingReads := p.pendingReads)
    ensures LetterTo(p, q, ctx) == LetterTo(n, q, ctx)
  {
    hide LogOk, EntriesIn, TermIn;
  }

  /** A new leader writes to every peer at once, each from the end of its log. */
  lemma NewLeaderWrites(n: Node)
    requires LogOk(n.log) && n.peers != [] && Distinct(n.peers)
    ensures var r := BecomeLeader(n);
            && r.role == Leader && r.log == n.log && |r.msgs| == |n.msgs| + |n.peers| && r.msgs[..|n.msgs|] == n.msgs
            && (forall p :: p in n.peers ==> At(r.nextIndex, p) == LastIndex(n.log) + 1 && At(r.matchIndex, p) == 0) && r.pendingReads == map[]
            && forall i :: 0 <= i < |n.peers| ==>
                 r.msgs[|n.msgs| + i] == Message(n.id, n.peers[i], n.currentTerm, AppendEntries(LastIndex(n.log), LastTermOf(n.log), [], n.commitIndex, 0))
  {
    hide LogOk, SendAppends, LettersTo, LetterTo, CommitUpTo;
    var l := n.(role := Leader, leaderId := n.id, nextIndex := InitialNext(n.peers, LastIndex(n.log) + 1),
                matchIndex := InitialNext(n.peers, 0), sentIndex := map[], pendingReads := map[]);
    EveryoneWrittenTo(l, n.peers, 0);
    SendAppendsSame(l, n.peers, 0);
    assert (l.msgs + LettersTo(l, n.peers, 0))[..|n.msgs|] == n.msgs;
    forall i | 0 <= i < |n.peers|
      ensures LetterTo(l, n.peers[i], 0) == Message(n.id, n.peers[i], n.currentTerm, AppendEntries(LastIndex(n.log), LastTermOf(n.log), [], n.commitIndex, 0))
    {
      FirstLetter(l, n.peers[i]);
    }
  }

  lemma FirstLetter(l: Node, p: Id)
    requires LogOk(l.log) && At(l.nextIndex, p) == LastIndex(l.log) + 1 && At(l.sentIndex, p) == 0
    ensures LetterTo(l, p, 0) == Message(l.id, p, l.currentTerm, AppendEntries(LastIndex(l.log), LastTermOf(l.log), [], l.commitIndex, 0))
  {
  }

  // ------------------------------------------------------------------------ rejections

  function Refusal(n: Node, p: Id): Message { Message(p, n.id, n.currentTerm, AppendEntriesResponse(false, 0, 0)) }

  /** A rejection takes the next index back by one, to no less than 1, and is answered by a probe from there. */
  lemma RejectionProbes(n: Node, p: Id)
    requires LogOk(n.log) && n.role == Leader
    ensures var r, next := AfterAppendResponse(n, Refusal(n, p)), At(n.nextIndex, p);
            && r == n.(nextIndex := r.nextIndex, sentIndex := r.sentIndex, msgs := r.msgs) && At(r.nextIndex, p) == (if next > 1 then next - 1 else next)
            && (forall q :: q != p ==> At(r.nextIndex, q) == At(n.nextIndex, q))
            && r.msgs != [] && r.msgs[..|r.msgs| - 1] == n.msgs && Last(r).to == p
            && (next > 1 && next - 2 >= Base(n.log) ==>
                  Last(r).body == AppendEntries(next - 2, TermIn(n.log, next - 2), EntriesIn(n.log, next - 2, LastIndex(n.log)), n.commitIndex, 0))
            && (next > 1 && next - 2 < Base(n.log) ==> Last(r).body == InstallSnapshot(n.snapshot))
  {
    hide LogOk, EntriesIn, TermIn, SendAppend;
    var next := At(n.nextIndex, p);
    var b := n.(nextIndex := if next > 1 then n.nextIndex[p := next - 1] else n.nextIndex, sentIndex := n.sentIndex[p := 0]);
    OneLetter(b, p, 0);
    assert (n.msgs + [LetterTo(b, p, 0)])[..|n.msgs|] == n.msgs;
  }

  /** The leader after k rejections by the peer. */
  function AfterRejections(n: Node, p: Id, k: nat): (r: Node)
    requires LogOk(n.log)
    ensures r.log == n.log
  {
    if k == 0 then n
    else
      var r := AfterRejections(n, p, k - 1);
      AnswerLogs(r, Refusal(n, p));
      AfterAppendResponse(r, Refusal(n, p))
  }

  lemma {:induction false} Rejections(n: Node, p: Id, k: nat)
    requires LogOk(n.log) && n.role == Leader && k < At(n.nextIndex, p)
    ensures var r, next := AfterRejections(n, p, k), At(n.nextIndex, p);
            && r == n.(nextIndex := r.nextIndex, sentIndex := r.sentIndex, msgs := r.msgs) && At(r.nextIndex, p) == next - k
            && (k > 0 && next - 1 - k >= Base(n.log) ==>
                  r.msgs != [] && Last(r) == Message(n.id, p, n.currentTerm,
                    AppendEntries(next - 1 - k, TermIn(n.log, next - 1 - k), EntriesIn(n.log, next - 1 - k, LastIndex(n.log)), n.commitIndex, 0)))
  {
    hide LogOk, EntriesIn, TermIn, AfterAppendResponse;
    if k > 0 {
      Rejections(n, p, k - 1);
      var r := AfterRejections(n, p, k - 1);
      assert Refusal(n, p) == Refusal(r, p);
      RejectionProbes(r, p);
      LastFrom(r, p);
    }
  }

  lemma LastFrom(r: Node, p: Id)
    requires LogOk(r.log) && r.role == Leader
    ensures var t := AfterAppendResponse(r, Refusal(r, p)); t.msgs != [] && Last(t).from == r.id && Last(t).to == p && Last(t).term == r.currentTerm
  {
    hide LogOk, EntriesIn, TermIn;
  }

  // ------------------------------------------------------------- what a follower does

  /**
   * The log g is log with es put after prev: entries of their terms to their end, all up to prev as it was,
   * and something dropped only if it disagreed.
   */
  predicate Extended(log: seq<Entry>, prev: nat, es: seq<Entry>, g: seq<Entry>)
    requires LogOk(log) && Base(log) <= prev <= LastIndex(log)
  {
    && LogOk(g) && LastIndex(g) >= prev + |es| && Base(g) == Base(log) && g[..prev - Base(log) + 1] == log[..prev - Base(log) + 1]
    && (forall i :: 0 <= i < |es| ==> TermIn(g, prev + 1 + i) == es[i].term)
    && (g == log || (LastIndex(g) == prev + |es| && exists i :: 0 <= i < |es| && !HasTerm(log, prev + 1 + i, es[i].term)))
  }

  lemma MergeExact(log: seq<Entry>, unstable: nat, prev: nat, es: seq<Entry>)
    requires LogOk(log) && EntriesOk(prev, es) && Base(log) <= prev <= LastIndex(log)
    ensures Merge(log, unstable, prev, es).Some? && Extended(log, prev, es, Merge(log, unstable, prev, es).value.0)
  {
    hide AgreeLen, Extended, TermIn, HasTerm;
    var k := AgreeLen(log, prev + 1, es);
    if k > 0 {
      assert HasTerm(log, prev + 1 + (k - 1), es[k - 1].term);
      Within(log, prev + k, es[k - 1].term);
    }
    if k == |es| {
      AllThere(log, prev, es);
    } else {
      Joined(log, prev, es, k);
      if prev + 1 + k > LastIndex(log) { assert log[..prev + 1 + k - Base(log)] == log; }
    }
  }

  lemma Within(log: seq<Entry>, i: nat, term: nat)
    requires LogOk(log) && HasTerm(log, i, term)
    ensures i <= LastIndex(log)
  {
  }

  lemma AllThere(log: seq<Entry>, prev: nat, es: seq<Entry>)
    requires LogOk(log) && Base(log) <= prev <= LastIndex(log) && forall j :: 0 <= j < |es| ==> HasTerm(log, prev + 1 + j, es[j].term)
    ensures Extended(log, prev, es, log)
  {
    if es != [] { assert HasTerm(log, prev + 1 + (|es| - 1), es[|es| - 1].term); }
  }

  lemma Joined(log: seq<Entry>, prev: nat, es: seq<Entry>, k: nat)
    requires LogOk(log) && EntriesOk(prev, es) && Base(log) <= prev && k < |es| && prev + k <= LastIndex(log)
    requires (forall j :: 0 <= j < k ==> HasTerm(log, prev + 1 + j, es[j].term)) && !HasTerm(log, prev + 1 + k, es[k].term)
    ensures Extended(log, prev, es, log[..prev + 1 + k - Base(log)] + es[k..])
  {
    var p := prev + 1 + k - Base(log);
    var g := log[..p] + es[k..];
    assert LogOk(g) && LastIndex(g) == prev + |es|;
    forall i | 0 <= i < |es|
      ensures TermIn(g, prev + 1 + i) == es[i].term
    {
      if i < k {
        assert HasTerm(log, prev + 1 + i, es[i].term);
        assert g[prev + 1 + i - Base(log)] == log[prev + 1 + i - Base(log)];
      } else {
        assert g[prev + 1 + i - Base(log)] == es[i];
      }
    }
  }

  lemma Merged(f: Node, m: Message)
    requires LogOk(f.log) && m.body.AppendEntries? && EntriesOk(m.body.prevIndex, m.body.entries) && Accepts(f, m)
    requires Merge(f.log, f.unstableIndex, m.body.prevIndex, m.body.entries).Some?
    ensures AfterAppend(f, m).Some?
  {
    hide Merge, LogOk, TermIn;
  }

  /**
   * An accepted AppendEntries, as far back as the follower still holds its log: its log is extended, its
   * commit index follows the leader's as far as the log goes, and it says how far it has matched.
   */
  lemma AppendExact(f: Node, m: Message)
    requires LogOk(f.log) && m.body.AppendEntries? && EntriesOk(m.body.prevIndex, m.body.entries) && Accepts(f, m) && Base(f.log) <= m.body.prevIndex
    ensures AfterAppend(f, m).Some?
    ensures var g := AfterAppend(f, m).value;
            && m.body.prevIndex <= LastIndex(f.log) && Extended(f.log, m.body.prevIndex, m.body.entries, g.log)
            && g.currentTerm == m.term && g.leaderId == m.from && g.role == Follower
            && g.commitIndex == (if m.body.commit > f.commitIndex then Min(m.body.commit, LastIndex(g.log)) else f.commitIndex)
            && g.msgs == f.msgs + [Message(f.id, m.from, m.term, AppendEntriesResponse(true, m.body.prevIndex + |m.body.entries|, m.body.readCtx))]
  {
    hide AfterAppend, Merge, Extended, LogOk, TermIn;
    MergeExact(f.log, f.unstableIndex, m.body.prevIndex, m.body.entries);
    Merged(f, m);
    AppendAnswer(f, m);
  }

  /**
   * Convergence: a peer that agrees with the leader at some index both logs still cover has, after as many
   * rejections as the probe starts above that index, accepted a probe, holds entries of the leader's terms
   * to the end of the leader's log, and is known to.
   */
  lemma CatchesUp(n: Node, f: Node, j: nat)
    requires LogOk(n.log) && LogOk(f.log) && n.role == Leader && f.currentTerm <= n.currentTerm
    requires Base(n.log) <= j < At(n.nextIndex, f.id) - 1 && j <= LastIndex(n.log) && Base(f.log) <= j <= LastIndex(f.log)
    requires TermIn(f.log, j) == TermIn(n.log, j)
    ensures var l := AfterRejections(n, f.id, At(n.nextIndex, f.id) - 1 - j);
            && l.msgs != [] && Last(l).to == f.id && Last(l).body.AppendEntries? && Last(l).body.prevIndex == j && Accepts(f, Last(l))
            && TakesAll(n, l, f, Last(l))
  {
    hide AfterRejections, AfterAppend, AfterAppendResponse, LogOk, EntriesIn, TermIn, TakesAll;
    var k := At(n.nextIndex, f.id) - 1 - j;
    Rejections(n, f.id, k);
    ProbeTaken(n, AfterRejections(n, f.id, k), f, j);
  }

  /** The follower has all of the leader's log, as far as terms go, and the leader knows. */
  predicate TakesAll(n: Node, l: Node, f: Node, m: Message)
    requires LogOk(n.log) && LogOk(l.log) && LogOk(f.log) && m.body.AppendEntries?
  {
    && EntriesOk(m.body.prevIndex, m.body.entries) && AfterAppend(f, m).Some?
    && var g := AfterAppend(f, m).value;
       && LogOk(g.log) && LastIndex(g.log) >= LastIndex(n.log)
       && (forall i :: m.body.prevIndex <= i <= LastIndex(n.log) ==> TermIn(g.log, i) == TermIn(n.log, i))
       && g.msgs != [] && Last(g) == Message(f.id, n.id, n.currentTerm, AppendEntriesResponse(true, LastIndex(n.log), m.body.readCtx))
       && At(AfterAppendResponse(l, Last(g)).matchIndex, f.id) >= LastIndex(n.log)
       && At(AfterAppendResponse(l, Last(g)).nextIndex, f.id) == LastIndex(n.log) + 1
  }

  lemma ProbeTaken(n: Node, l: Node, f: Node, j: nat)
    requires LogOk(n.log) && LogOk(f.log) && n.role == Leader && f.currentTerm <= n.currentTerm
    requires Base(n.log) <= j <= LastIndex(n.log) && Base(f.log) <= j <= LastIndex(f.log) && TermIn(f.log, j) == TermIn(n.log, j)
    requires l.log == n.log && l.role == Leader && l.currentTerm == n.currentTerm && l.msgs != []
    requires Last(l) == Message(n.id, f.id, n.currentTerm, AppendEntries(j, TermIn(n.log, j), EntriesIn(n.log, j, LastIndex(n.log)), n.commitIndex, 0))
    ensures Accepts(f, Last(l)) && TakesAll(n, l, f, Last(l))
  {
    hide AfterAppend, AfterAppendResponse, LogOk, EntriesIn, TermIn, Extended;
    var m := Last(l);
    TailOf(n.log, j);
    AppendExact(f, m);
    var g := AfterAppend(f, m).value;
    SameTerms(n.log, f.log, g.log, j);
    Acknowledgement(l, Last(g));
  }

  lemma SameTerms(log: seq<Entry>, f: seq<Entry>, g: seq<Entry>, j: nat)
    requires LogOk(log) && LogOk(f) && Base(log) <= j <= LastIndex(log) && Base(f) <= j <= LastIndex(f) && TermIn(f, j) == TermIn(log, j)
    requires Extended(f, j, EntriesIn(log, j, LastIndex(log)), g)
    ensures LogOk(g) && LastIndex(g) >= LastIndex(log) && forall i :: j <= i <= LastIndex(log) ==> TermIn(g, i) == TermIn(log, i)
  {
    hide LogOk, EntriesIn, TermIn, HasTerm;
    TailOf(log, j);
    forall i | j <= i <= LastIndex(log)
      ensures TermIn(g, i) == TermIn(log, i)
    {
      if i == j {
        SameAt(f, g, j);
      } else {
        TailAt(log, j, i);
        assert TermIn(g, j + 1 + (i - j - 1)) == EntriesIn(log, j, LastIndex(log))[i - j - 1].term;
      }
    }
  }

  lemma TailOf(log: seq<Entry>, j: nat)
    requires LogOk(log) && Base(log) <= j <= LastIndex(log)
    ensures EntriesOk(j, EntriesIn(log, j, LastIndex(log))) && |EntriesIn(log, j, LastIndex(log))| == LastIndex(log) - j
  {
  }

  lemma TailAt(log: seq<Entry>, j: nat, i: nat)
    requires LogOk(log) && Base(log) <= j < i <= LastIndex(log)
    ensures |EntriesIn(log, j, LastIndex(log))| == LastIndex(log) - j && EntriesIn(log, j, LastIndex(log))[i - j - 1].term == TermIn(log, i)
  {
  }

  lemma SameAt(f: seq<Entry>, g: seq<Entry>, j: nat)
    requires LogOk(f) && LogOk(g) && Base(g) == Base(f) <= j <= LastIndex(f) && j <= LastIndex(g) && g[..j - Base(f) + 1] == f[..j - Base(f) + 1]
    ensures TermIn(g, j) == TermIn(f, j)
  {
    assert g[..j - Base(f) + 1][j - Base(f)] == g[j - Base(f)] && f[..j - Base(f) + 1][j - Base(f)] == f[j - Base(f)];
  }

  /** A success moves the peer's progress up to what it reports. */
  lemma Acknowledgement(n: Node, m: Message)
    requires LogOk(n.log) && n.role == Leader && m.body.AppendEntriesResponse? && m.body.success && m.term == n.currentTerm
    ensures var r := AfterAppendResponse(n, m);
            && r.role == Leader && r.currentTerm == n.currentTerm && r.log == n.log && r.peers == n.peers && r.id == n.id
            && At(r.nextIndex, m.from) == m.body.matchIndex + 1 && r.commitIndex >= n.commitIndex
            && At(r.matchIndex, m.from) == (if m.body.matchIndex > At(n.matchIndex, m.from) then m.body.matchIndex else At(n.matchIndex, m.from))
            && (forall q :: q != m.from ==> At(r.matchIndex, q) == At(n.matchIndex, q) && At(r.nextIndex, q) == At(n.nextIndex, q))
            && r.commitIndex == CommitUpTo(r.(commitIndex := n.commitIndex), LastIndex(n.log))
  {
    hide LogOk, CommitUpTo, AckRead, EntriesIn;
    AckReadFields(n, m.body.readCtx, m.from);
    SameCommit(n, m);
  }

  lemma SameCommit(n: Node, m: Message)
    requires LogOk(n.log) && n.role == Leader && m.body.AppendEntriesResponse? && m.body.success && m.term == n.currentTerm
    ensures var r := AfterAppendResponse(n, m); LogOk(r.log) && r.commitIndex == CommitUpTo(r.(commitIndex := n.commitIndex), LastIndex(n.log))
  {
    hide LogOk, CommitUpTo, AckRead;
    AckReadFields(n, m.body.readCtx, m.from);
    var a := if m.body.readCtx != 0 then AckRead(n, m.body.readCtx, m.from) else n;
    var b := a.(matchIndex := if m.body.matchIndex > At(a.matchIndex, m.from) then a.matchIndex[m.from := m.body.matchIndex] else a.matchIndex,
                nextIndex := a.nextIndex[m.from := m.body.matchIndex + 1]);
    assert AfterAppendResponse(n, m) == AdvanceCommit(b);
    assert AfterAppendResponse(n, m).(commitIndex := n.commitIndex) == b;
  }

  // --------------------------------------------------------------------------- commits

  /** The commit rule, both ways: an index is committed exactly when some own-term entry at or after it is held by a majority. */
  lemma CommitExact(ids: set<Id>, n: Node, v: Id, i: nat)
    requires Wired(ids, n, v) && LogOk(n.log) && n.commitIndex < i <= LastIndex(n.log)
    ensures AdvanceCommit(n).commitIndex >= i
            <==> exists k :: i <= k <= LastIndex(n.log) && TermIn(n.log, k) == n.currentTerm && 2 * |Holders(n, k)| > |ids|
  {
    hide HasMajority, Holders, LogOk, TermIn;
    forall k | n.commitIndex < k <= LastIndex(n.log)
      ensures Committable(n, k) <==> TermIn(n.log, k) == n.currentTerm && 2 * |Holders(n, k)| > |ids|
    {
      HeldByMajority(ids, n, v, k);
    }
    var c := CommitUpTo(n, LastIndex(n.log));
    if c >= i { assert Committable(n, c); }
    if k :| i <= k <= LastIndex(n.log) && TermIn(n.log, k) == n.currentTerm && 2 * |Holders(n, k)| > |ids| { assert Committable(n, k); }
  }

  lemma HeldByMajority(ids: set<Id>, n: Node, v: Id, k: nat)
    requires Wired(ids, n, v)
    ensures HasMajority(n, 1 + CountMatched(n.peers, n.matchIndex, k)) <==> 2 * |Holders(n, k)| > |ids|
  {
    hide HasMajority;
    CountIsHolders(n.peers, n.matchIndex, k);
    MajorityExact(ids, n, v, Holders(n, k));
  }

  predicate Successes(ms: seq<Message>, term: nat, i: nat) {
    forall k :: 0 <= k < |ms| ==> ms[k].body.AppendEntriesResponse? && ms[k].body.success && ms[k].term == term && ms[k].body.matchIndex >= i
  }

  function AfterSuccesses(n: Node, ms: seq<Message>): (r: Node)
    requires LogOk(n.log) && forall k :: 0 <= k < |ms| ==> ms[k].body.AppendEntriesResponse?
    ensures r.log == n.log
  {
    if ms == [] then n
    else
      var r := AfterSuccesses(n, ms[..|ms| - 1]);
      AnswerLogs(r, ms[|ms| - 1]);
      AfterAppendResponse(r, ms[|ms| - 1])
  }

  function Senders(ms: seq<Message>): set<Id> { set k | 0 <= k < |ms| :: ms[k].from }

  lemma {:induction false} SuccessesCounted(n: Node, ms: seq<Message>, i: nat)
    requires LogOk(n.log) && n.role == Leader && Successes(ms, n.currentTerm, i)
    ensures var r := AfterSuccesses(n, ms);
            && r.role == Leader && r.currentTerm == n.currentTerm && r.peers == n.peers && r.id == n.id && r.commitIndex >= n.commitIndex
            && (forall p :: p in Senders(ms) ==> At(r.matchIndex, p) >= i)
            && (ms != [] ==> exists c: nat :: c >= n.commitIndex && r.commitIndex == CommitUpTo(r.(commitIndex := c), LastIndex(n.log)))
    decreases |ms|
  {
    hide LogOk, AfterAppendResponse, CommitUpTo;
    if ms != [] {
      var k := |ms| - 1;
      SuccessesCounted(n, ms[..k], i);
      var r := AfterSuccesses(n, ms[..k]);
      Acknowledgement(r, ms[k]);
      forall p | p in Senders(ms)
        ensures At(AfterSuccesses(n, ms).matchIndex, p) >= i
      {
        if p != ms[k].from {
          var x :| 0 <= x < |ms| && ms[x].from == p;
          assert ms[..k][x].from == p;
        }
      }
      assert r.commitIndex >= n.commitIndex;
    }
  }

  /** Acknowledged by a majority, an entry of the leader's term is committed. */
  lemma MajorityCommits(ids: set<Id>, n: Node, v: Id, ms: seq<Message>, i: nat)
    requires Wired(ids, n, v) && LogOk(n.log) && n.role == Leader && ms != [] && Successes(ms, n.currentTerm, i) && Senders(ms) <= ids
    requires i <= LastIndex(n.log) && TermIn(n.log, i) == n.currentTerm && 2 * |{v} + Senders(ms)| > |ids|
    ensures AfterSuccesses(n, ms).commitIndex >= i
  {
    hide LogOk, AfterSuccesses, CommitUpTo, TermIn, HasMajority;
    SuccessesCounted(n, ms, i);
    var r := AfterSuccesses(n, ms);
    var c: nat :| c >= n.commitIndex && r.commitIndex == CommitUpTo(r.(commitIndex := c), LastIndex(n.log));
    var b := r.(commitIndex := c);
    assert {v} + Senders(ms) <= Holders(b, i);
    SubsetSize({v} + Senders(ms), Holders(b, i));
    if c < i {
      CommitExact(ids, b, v, i);
      assert AdvanceCommit(b).commitIndex == r.commitIndex;
    }
  }

  // ----------------------------------------------------------------------------- reads

  /** A confirmation surfaces a pending read exactly when it completes a majority. */
  lemma ReadExact(ids: set<Id>, n: Node, v: Id, m: Message)
    requires Wired(ids, n, v) && LogOk(n.log) && n.role == Leader && m.body.AppendEntriesResponse? && m.term == n.currentTerm
    requires m.body.readCtx != 0 && m.body.readCtx in n.pendingReads && n.pendingReads[m.body.readCtx].acked + {m.from} <= ids
    ensures var r, ctx := AfterAppendResponse(n, m), m.body.readCtx;
            var acked := n.pendingReads[ctx].acked + {m.from};
            if 2 * |acked| > |ids|
            then r.readStates == n.readStates + [ReadState(n.pendingReads[ctx].index, ctx)] && r.pendingReads == n.pendingReads - {ctx}
            else r.readStates == n.readStates && r.pendingReads == n.pendingReads[ctx := PendingRead(n.pendingReads[ctx].index, acked)]
  {
    hide LogOk, CommitUpTo, SendAppend, HasMajority, Wired;
    MajorityExact(ids, n, v, n.pendingReads[m.body.readCtx].acked + {m.from});
    var a := AckRead(n, m.body.readCtx, m.from);
    AckReadFields(n, m.body.readCtx, m.from);
    if !m.body.success {
      var b := a.(nextIndex := if At(a.nextIndex, m.from) > 1 then a.nextIndex[m.from := At(a.nextIndex, m.from) - 1] else a.nextIndex,
                  sentIndex := a.sentIndex[m.from := 0]);
      OneLetter(b, m.from, 0);
    }
  }

  /** A follower that is not past the leader's term confirms the read it was asked about, whether or not it accepts. */
  lemma ReadEchoed(f: Node, m: Message)
    requires LogOk(f.log) && m.body.AppendEntries? && EntriesOk(m.body.prevIndex, m.body.entries) && m.term >= f.currentTerm && AfterAppend(f, m).Some?
    ensures var g := AfterAppend(f, m).value;
            g.msgs != [] && Last(g).body.AppendEntriesResponse? && Last(g).body.readCtx == m.body.readCtx && Last(g).to == m.from && Last(g).term == m.term
  {
    hide AfterAppend, Merge, LogOk;
    AppendAnswer(f, m);
  }

  // ------------------------------------------------------------------------- snapshots

  /**
   * A peer behind the leader's boundary: it takes the snapshot, its server is to restore it, and the leader's
   * next probe, right after the boundary, is one it accepts.
   */
  lemma SnapshotCatchesUp(n: Node, f: Node)
    requires LogOk(n.log) && LogOk(f.log) && n.role == Leader && f.currentTerm <= n.currentTerm
    requires n.snapshot.lastIndex == Base(n.log) && n.snapshot.lastTerm == n.log[0].term && Base(f.log) < Base(n.log)
    requires 1 <= At(n.nextIndex, f.id) <= Base(n.log) && At(n.sentIndex, f.id) <= Base(n.log)
    ensures LetterTo(n, f.id, 0).body == InstallSnapshot(n.snapshot)
    ensures var g := AfterInstall(f, LetterTo(n, f.id, 0));
            && g.log == [Entry(n.snapshot.lastTerm, n.snapshot.lastIndex, [])] && g.toApply == Some(n.snapshot) && g.commitIndex >= n.snapshot.lastIndex
            && g.leaderId == n.id && g.msgs != [] && Last(g) == Message(f.id, n.id, n.currentTerm, InstallSnapshotResponse(Base(n.log)))
            && var l := AfterInstallResponse(n, Last(g));
               && At(l.nextIndex, f.id) == Base(n.log) + 1 && At(l.matchIndex, f.id) >= Base(n.log) && LogOk(l.log)
               && LetterTo(l, f.id, 0).body.AppendEntries? && Accepts(g, LetterTo(l, f.id, 0))
  {
    hide AfterInstall, CommitUpTo, EntriesIn;
    InstallAnswer(f, LetterTo(n, f.id, 0));
  }

  // ----------------------------------------------------------------------------- terms

  /** A later term in any message but a pre-vote's makes a follower of whoever gets it. */
  lemma StepsDown(n: Node, m: Message)
    requires LogOk(n.log) && m.to == n.id && m.term > n.currentTerm && !m.body.PreVote? && !m.body.PreVoteResponse?
    requires m.body.AppendEntries? ==> EntriesOk(m.body.prevIndex, m.body.entries)
    ensures AfterStep(n, m).Some? ==> AfterStep(n, m).value.currentTerm == m.term && AfterStep(n, m).value.role == Follower
  {
    hide AfterAppend, AfterInstall, Merge, LogOk, LogUpToDate;
    match m.body
    case AppendEntries(_, _, _, _, _) => AppendAnswer(n, m);
    case InstallSnapshot(_) => InstallAnswer(n, m);
    case _ =>
  }

  /** An earlier term changes nothing. */
  lemma StaleIgnored(n: Node, m: Message)
    requires LogOk(n.log) && m.term < n.currentTerm && !m.body.PreVote? && !m.body.PreVoteResponse?
    requires m.body.AppendEntries? ==> EntriesOk(m.body.prevIndex, m.body.entries)
    ensures AfterStep(n, m).Some? && AfterStep(n, m).value == n.(msgs := AfterStep(n, m).value.msgs)
  {
    hide AfterAppend, AfterInstall, Merge, LogOk, LogUpToDate;
    match m.body
    case AppendEntries(_, _, _, _, _) => StaleAnswer(n, m);
    case InstallSnapshot(_) => InstallAnswer(n, m);
    case _ =>
  }

  /** Whoever accepts a leader's message knows it for the leader. */
  lemma LeaderKnown(n: Node, m: Message)
    requires LogOk(n.log) && m.to == n.id && m.term >= n.currentTerm && (m.body.AppendEntries? || m.body.InstallSnapshot?)
    requires m.body.AppendEntries? ==> EntriesOk(m.body.prevIndex, m.body.entries)
    ensures AfterStep(n, m).Some? ==> AfterStep(n, m).value.leaderId == m.from && AfterStep(n, m).value.role == Follower && AfterStep(n, m).value.currentTerm == m.term
  {
    hide AfterAppend, AfterInstall, Merge, LogOk;
    if m.body.AppendEntries? { AppendAnswer(n, m); } else { InstallAnswer(n, m); }
  }
}
