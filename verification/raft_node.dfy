/**
 * One node of raft/raft.go as a value, and what each of its operations does to it.
 *
 * `log[0]` is the sentinel of the source: (0, 0) before any snapshot, the
 * snapshot boundary after one.  Terms, indices and ids are natural numbers;
 * the one subtraction that can wrap around on uint64 is written out in `Pred`.
 * `AfterAppend` answers `None` where the source's slice expression panics.
 */
module RaftNode {
  import opened Bytes
  import opened RaftTypes

  datatype Node = Node(
    id: Id,
    peers: seq<Id>,
    role: Role,
    currentTerm: nat,
    votedFor: Id,
    leaderId: Id,
    log: seq<Entry>,
    snapshot: Snapshot,
    toApply: Option<Snapshot>,
    commitIndex: nat,
    stableTerm: nat,
    stableVote: Id,
    unstableIndex: nat,
    stableSnapshotIndex: nat,
    nextIndex: map<Id, nat>,
    matchIndex: map<Id, nat>,
    sentIndex: map<Id, nat>,
    votesReceived: set<Id>,
    preVotesReceived: set<Id>,
    pendingReads: map<nat, PendingRead>,
    readStates: seq<ReadState>,
    msgs: seq<Message>)

  // ------------------------------------------------------------------ log

  /** A node's log: a sentinel, then entries with consecutive indices. */
  predicate LogOk(log: seq<Entry>) {
    |log| > 0 && forall i :: 0 <= i < |log| ==> log[i].index == log[0].index + i
  }

  function Base(log: seq<Entry>): nat
    requires LogOk(log)
  {
    log[0].index
  }

  function LastIndex(log: seq<Entry>): (r: nat)
    requires LogOk(log)
    ensures r == Base(log) + |log| - 1
  {
    log[|log| - 1].index
  }

  function LastTermOf(log: seq<Entry>): nat
    requires LogOk(log)
  {
    log[|log| - 1].term
  }

  /** The term at an index, 0 for an index the log does not cover. */
  function TermIn(log: seq<Entry>, index: nat): nat
    requires LogOk(log)
  {
    if index < Base(log) || index > LastIndex(log) then 0 else log[index - Base(log)].term
  }

  /** The entries in (start, end], clamped to what the log covers. */
  function EntriesIn(log: seq<Entry>, start: nat, end: nat): seq<Entry>
    requires LogOk(log)
  {
    var e := if end > LastIndex(log) then LastIndex(log) else end;
    var s := if start < Base(log) then Base(log) else start;
    if s >= e then [] else log[s - Base(log) + 1..e - Base(log) + 1]
  }

  /** Past the sentinel: the node still holds the entry at index k. */
  predicate Holds(n: Node, k: nat) { LogOk(n.log) && Base(n.log) < k <= LastIndex(n.log) }

  function EntryAt(n: Node, k: nat): Entry
    requires Holds(n, k)
  {
    n.log[k - Base(n.log)]
  }

  // -------------------------------------------------------------- helpers

  const MaxUint64: nat := 0xFFFF_FFFF_FFFF_FFFF

  /** n - 1 on uint64. */
  function Pred(n: nat): nat { if n == 0 then MaxUint64 else n - 1 }

  /** Reading a Go map: absent keys read as zero. */
  function At(m: map<Id, nat>, k: Id): nat { if k in m then m[k] else 0 }

  function Min(a: nat, b: nat): nat { if a < b then a else b }

  function Send(n: Node, to: Id, body: Body): Node {
    n.(msgs := n.msgs + [Message(n.id, to, n.currentTerm, body)])
  }

  function Broadcast(n: Node, to: seq<Id>, body: Body): Node
    decreases |to|
  {
    if to == [] then n else Broadcast(Send(n, to[0], body), to[1..], body)
  }

  predicate HasMajority(n: Node, count: nat) { count >= (|n.peers| + 1) / 2 + 1 }

  // ---------------------------------------------------------- replication

  function SendAppend(n: Node, peer: Id, ctx: nat): Node
    requires LogOk(n.log)
  {
    if Pred(At(n.nextIndex, peer)) < Base(n.log) then
      Send(n, peer, InstallSnapshot(n.snapshot))
    else
      var prev := if At(n.sentIndex, peer) > Pred(At(n.nextIndex, peer)) then At(n.sentIndex, peer)
                  else Pred(At(n.nextIndex, peer));
      var last := LastIndex(n.log);
      var sent := Send(n, peer, AppendEntries(prev, TermIn(n.log, prev), EntriesIn(n.log, prev, last), n.commitIndex, ctx));
      if last > At(n.sentIndex, peer) then sent.(sentIndex := n.sentIndex[peer := last]) else sent
  }

  function SendAppends(n: Node, to: seq<Id>, ctx: nat): (r: Node)
    requires LogOk(n.log)
    ensures r.log == n.log
    decreases |to|
  {
    if to == [] then n else SendAppends(SendAppend(n, to[0], ctx), to[1..], ctx)
  }

  /** How many of the peers have matched up to i. */
  function CountMatched(peers: seq<Id>, matched: map<Id, nat>, i: nat): nat {
    if peers == [] then 0
    else (if At(matched, peers[|peers| - 1]) >= i then 1 else 0) + CountMatched(peers[..|peers| - 1], matched, i)
  }

  /** The commit rule: an entry of the current term that a majority holds. */
  predicate Committable(n: Node, i: nat)
    requires LogOk(n.log)
  {
    TermIn(n.log, i) == n.currentTerm && HasMajority(n, 1 + CountMatched(n.peers, n.matchIndex, i))
  }

  /** The largest committable index in (commitIndex, i], or commitIndex. */
  function CommitUpTo(n: Node, i: nat): (r: nat)
    requires LogOk(n.log)
    ensures r == n.commitIndex || (n.commitIndex < r <= i && Committable(n, r))
    ensures forall k :: r < k <= i && n.commitIndex < k ==> !Committable(n, k)
  {
    if i <= n.commitIndex then n.commitIndex
    else if Committable(n, i) then i
    else CommitUpTo(n, i - 1)
  }

  function AdvanceCommit(n: Node): Node
    requires LogOk(n.log)
  {
    n.(commitIndex := CommitUpTo(n, LastIndex(n.log)))
  }

  // ---------------------------------------------------------------- roles

  function BecomeFollower(n: Node, term: nat): Node {
    if term > n.currentTerm then n.(currentTerm := term, votedFor := 0, role := Follower)
    else n.(role := Follower)
  }

  function InitialNext(peers: seq<Id>, next: nat): (m: map<Id, nat>)
    ensures forall p :: p in m <==> p in peers
    ensures forall p :: p in m ==> m[p] == next
  {
    if peers == [] then map[] else InitialNext(peers[..|peers| - 1], next)[peers[|peers| - 1] := next]
  }

  function BecomeLeader(n: Node): Node
    requires LogOk(n.log)
  {
    var l := n.(role := Leader, leaderId := n.id,
                nextIndex := InitialNext(n.peers, LastIndex(n.log) + 1),
                matchIndex := InitialNext(n.peers, 0),
                sentIndex := map[], pendingReads := map[]);
    if n.peers == [] then AdvanceCommit(l) else SendAppends(l, n.peers, 0)
  }

  function BecomeCandidate(n: Node): Node
    requires LogOk(n.log)
  {
    var c := n.(currentTerm := n.currentTerm + 1, role := Candidate, votedFor := n.id, leaderId := 0,
                votesReceived := {n.id});
    if n.peers == [] then BecomeLeader(c)
    else Broadcast(c, n.peers, RequestVote(LastIndex(n.log), LastTermOf(n.log)))
  }

  function BecomePreCandidate(n: Node): Node
    requires LogOk(n.log)
  {
    var c := n.(role := PreCandidate, leaderId := 0, preVotesReceived := {n.id});
    if n.peers == [] then BecomeCandidate(c)
    else Broadcast(c, n.peers, PreVote(LastIndex(n.log), LastTermOf(n.log)))
  }

  // ------------------------------------------------------------- elections

  predicate LogUpToDate(n: Node, lastIndex: nat, lastTerm: nat)
    requires LogOk(n.log)
  {
    lastTerm > LastTermOf(n.log) || (lastTerm == LastTermOf(n.log) && lastIndex >= LastIndex(n.log))
  }

  function AfterPreVote(n: Node, m: Message): Node
    requires LogOk(n.log) && m.body.PreVote?
  {
    if m.term + 1 < n.currentTerm then Send(n, m.from, PreVoteResponse(false))
    else
      var canVote := n.votedFor == 0 || n.votedFor == m.from || m.term + 1 > n.currentTerm;
      Send(n, m.from, PreVoteResponse(canVote && LogUpToDate(n, m.body.lastIndex, m.body.lastTerm)))
  }

  function AfterPreVoteResponse(n: Node, m: Message): Node
    requires LogOk(n.log) && m.body.PreVoteResponse?
  {
    if n.role != PreCandidate || !m.body.granted then n
    else
      var c := n.(preVotesReceived := n.preVotesReceived + {m.from});
      if HasMajority(c, |c.preVotesReceived|) then BecomeCandidate(c) else c
  }

  function AfterRequestVote(n: Node, m: Message): Node
    requires LogOk(n.log) && m.body.RequestVote?
  {
    var f := if m.term > n.currentTerm then BecomeFollower(n, m.term) else n;
    if m.term < f.currentTerm then Send(f, m.from, RequestVoteResponse(false))
    else
      var granted := (f.votedFor == 0 || f.votedFor == m.from) && LogUpToDate(f, m.body.lastIndex, m.body.lastTerm);
      var g := if granted then f.(votedFor := m.from) else f;
      Send(g, m.from, RequestVoteResponse(granted))
  }

  function AfterRequestVoteResponse(n: Node, m: Message): Node
    requires LogOk(n.log) && m.body.RequestVoteResponse?
  {
    if m.term > n.currentTerm then BecomeFollower(n, m.term)
    else if m.term < n.currentTerm || n.role != Candidate || !m.body.granted then n
    else
      var c := n.(votesReceived := n.votesReceived + {m.from});
      if HasMajority(c, |c.votesReceived|) then BecomeLeader(c) else c
  }

  // -------------------------------------------------------- append entries

  /** Index i of the log is an entry of the given term. */
  predicate HasTerm(log: seq<Entry>, i: nat, term: nat)
    requires LogOk(log)
  {
    i <= LastIndex(log) && TermIn(log, i) == term
  }

  /** How many of es, from the front, the log already has at first, first + 1, ... */
  function AgreeLen(log: seq<Entry>, first: nat, es: seq<Entry>): (k: nat)
    requires LogOk(log)
    ensures k <= |es|
    ensures forall j :: 0 <= j < k ==> HasTerm(log, first + j, es[j].term)
    ensures k < |es| ==> !HasTerm(log, first + k, es[k].term)
  {
    AgreeFrom(log, first, es, 0)
  }

  function AgreeFrom(log: seq<Entry>, first: nat, es: seq<Entry>, i: nat): (k: nat)
    requires LogOk(log) && i <= |es|
    ensures i <= k <= |es|
    ensures forall j :: i <= j < k ==> HasTerm(log, first + j, es[j].term)
    ensures k < |es| ==> !HasTerm(log, first + k, es[k].term)
    decreases |es| - i
  {
    if i == |es| || !HasTerm(log, first + i, es[i].term) then i else AgreeFrom(log, first, es, i + 1)
  }

  /** Entries as `Entries` cuts them: consecutive, right after prev. */
  predicate EntriesOk(prev: nat, es: seq<Entry>) {
    forall i :: 0 <= i < |es| ==> es[i].index == prev + 1 + i
  }

  /**
   * The log and the unstable index after the entry loop of handleAppendEntries:
   * everything from the first entry the log does not have already is replaced.
   * None where the source's slice expression panics: the replaced part would
   * begin at or below the snapshot boundary.
   */
  function Merge(log: seq<Entry>, unstable: nat, prev: nat, es: seq<Entry>): (r: Option<(seq<Entry>, nat)>)
    requires LogOk(log) && EntriesOk(prev, es) && prev <= LastIndex(log)
    ensures r.Some? ==> LogOk(r.value.0)
  {
    var k := AgreeLen(log, prev + 1, es);
    var at := prev + 1 + k;
    if k == |es| then Some((log, unstable))
    else if at > LastIndex(log) then
      assert k > 0 ==> HasTerm(log, prev + 1 + (k - 1), es[k - 1].term);
      Some((log + es[k..], unstable))
    else if at <= Base(log) then None
    else Some((log[..at - Base(log)] + es[k..], Min(at, unstable)))
  }

  function AfterAppend(n: Node, m: Message): Option<Node>
    requires LogOk(n.log) && m.body.AppendEntries? && EntriesOk(m.body.prevIndex, m.body.entries)
  {
    var b := m.body;
    if m.term < n.currentTerm then Some(Send(n, m.from, AppendEntriesResponse(false, 0, 0)))
    else
      var f := BecomeFollower(n, m.term).(leaderId := m.from);
      if b.prevIndex > LastIndex(f.log) || TermIn(f.log, b.prevIndex) != b.prevTerm then
        Some(Send(f, m.from, AppendEntriesResponse(false, 0, b.readCtx)))
      else
        match Merge(f.log, f.unstableIndex, b.prevIndex, b.entries)
        case None => None
        case Some((log, unstable)) =>
          var g := f.(log := log, unstableIndex := unstable,
                      commitIndex := if b.commit > f.commitIndex then Min(b.commit, LastIndex(log)) else f.commitIndex);
          Some(Send(g, m.from, AppendEntriesResponse(true, b.prevIndex + |b.entries|, b.readCtx)))
  }

  /** Counts a confirmation of the read ctx, and surfaces it on a majority. */
  function AckRead(n: Node, ctx: nat, peer: Id): Node {
    if ctx !in n.pendingReads then n
    else
      var pr := n.pendingReads[ctx];
      var acked := pr.acked + {peer};
      if HasMajority(n, |acked|) then
        n.(readStates := n.readStates + [ReadState(pr.index, ctx)], pendingReads := n.pendingReads - {ctx})
      else
        n.(pendingReads := n.pendingReads[ctx := PendingRead(pr.index, acked)])
  }

  function AfterAppendResponse(n: Node, m: Message): Node
    requires LogOk(n.log) && m.body.AppendEntriesResponse?
  {
    if m.term > n.currentTerm then BecomeFollower(n, m.term)
    else if m.term < n.currentTerm || n.role != Leader then n
    else
      var a := if m.body.readCtx != 0 then AckRead(n, m.body.readCtx, m.from) else n;
      if m.body.success then
        AdvanceCommit(a.(
          matchIndex := if m.body.matchIndex > At(a.matchIndex, m.from) then a.matchIndex[m.from := m.body.matchIndex]
                        else a.matchIndex,
          nextIndex := a.nextIndex[m.from := m.body.matchIndex + 1]))
      else
        SendAppend(a.(
          nextIndex := if At(a.nextIndex, m.from) > 1 then a.nextIndex[m.from := At(a.nextIndex, m.from) - 1]
                       else a.nextIndex,
          sentIndex := a.sentIndex[m.from := 0]), m.from, 0)
  }

  // --------------------------------------------------------------- snapshots

  function AfterInstall(n: Node, m: Message): Node
    requires LogOk(n.log) && m.body.InstallSnapshot?
  {
    if m.term < n.currentTerm then Send(n, m.from, InstallSnapshotResponse(Base(n.log)))
    else
      var f := BecomeFollower(n, m.term).(leaderId := m.from);
      var s := m.body.snap;
      if s.lastIndex <= Base(f.log) then Send(f, m.from, InstallSnapshotResponse(Base(f.log)))
      else
        var g := f.(log := [Entry(s.lastTerm, s.lastIndex, [])],
                    commitIndex := if s.lastIndex > f.commitIndex then s.lastIndex else f.commitIndex,
                    unstableIndex := s.lastIndex + 1,
                    snapshot := s,
                    toApply := Some(s));
        Send(g, m.from, InstallSnapshotResponse(s.lastIndex))
  }

  function AfterInstallResponse(n: Node, m: Message): Node
    requires LogOk(n.log) && m.body.InstallSnapshotResponse?
  {
    if m.term > n.currentTerm then BecomeFollower(n, m.term)
    else if m.term < n.currentTerm || n.role != Leader then n
    else
      AdvanceCommit(n.(
        matchIndex := if m.body.matchIndex > At(n.matchIndex, m.from) then n.matchIndex[m.from := m.body.matchIndex]
                      else n.matchIndex,
        nextIndex := if m.body.matchIndex + 1 > At(n.nextIndex, m.from) then n.nextIndex[m.from := m.body.matchIndex + 1]
                     else n.nextIndex))
  }

  /** CreateSnapshot's slice expressions panic on a committed index past the end of the log. */
  predicate CompactPanics(n: Node, index: nat)
    requires LogOk(n.log)
  {
    Base(n.log) < index <= n.commitIndex && index > LastIndex(n.log)
  }

  /** CreateSnapshot; an index it refuses leaves the node as it was. */
  function AfterCompact(n: Node, index: nat, data: Bytes): Node
    requires LogOk(n.log) && !CompactPanics(n, index)
  {
    if index > n.commitIndex || index <= Base(n.log) then n
    else
      var term := TermIn(n.log, index);
      n.(log := [Entry(term, index, [])] + n.log[index - Base(n.log) + 1..],
         unstableIndex := if n.unstableIndex <= index then index + 1 else n.unstableIndex,
         snapshot := Snapshot(index, term, data))
  }

  // ------------------------------------------------------- leader operations

  function NewEntries(term: nat, first: nat, datas: seq<Bytes>): (es: seq<Entry>)
    ensures |es| == |datas|
    ensures forall k :: 0 <= k < |es| ==> es[k] == Entry(term, first + k, datas[k])
  {
    seq(|datas|, k requires 0 <= k < |datas| => Entry(term, first + k, datas[k]))
  }

  function AfterPropose(n: Node, datas: seq<Bytes>): Node
    requires LogOk(n.log)
  {
    if n.role != Leader then n
    else
      var p := n.(log := n.log + NewEntries(n.currentTerm, LastIndex(n.log) + 1, datas));
      if n.peers == [] then AdvanceCommit(p) else SendAppends(p, n.peers, 0)
  }

  function AfterHeartbeat(n: Node): Node
    requires LogOk(n.log)
  {
    if n.role != Leader then n else SendAppends(n, n.peers, 0)
  }

  function AfterReadRequest(n: Node, ctx: nat): Node
    requires LogOk(n.log)
  {
    if n.role != Leader then n
    else if HasMajority(n, 1) then
      n.(readStates := n.readStates + [ReadState(n.commitIndex, ctx)], pendingReads := n.pendingReads - {ctx})
    else
      SendAppends(n.(pendingReads := n.pendingReads[ctx := PendingRead(n.commitIndex, {n.id})]), n.peers, ctx)
  }

  // ------------------------------------------------------------------ step

  /** Step: what a delivered message does; None where the handler panics. */
  function AfterStep(n: Node, m: Message): Option<Node>
    requires LogOk(n.log) && (m.body.AppendEntries? ==> EntriesOk(m.body.prevIndex, m.body.entries))
  {
    if m.to != n.id then Some(n)
    else match m.body
      case PreVote(_, _) => Some(AfterPreVote(n, m))
      case PreVoteResponse(_) => Some(AfterPreVoteResponse(n, m))
      case RequestVote(_, _) => Some(AfterRequestVote(n, m))
      case RequestVoteResponse(_) => Some(AfterRequestVoteResponse(n, m))
      case AppendEntries(_, _, _, _, _) => AfterAppend(n, m)
      case AppendEntriesResponse(_, _, _) => Some(AfterAppendResponse(n, m))
      case InstallSnapshot(_) => Some(AfterInstall(n, m))
      case InstallSnapshotResponse(_) => Some(AfterInstallResponse(n, m))
  }

  // ------------------------------------------------------------- durability

  /** The state a `Persist` that completes leaves on disk. */
  function DurableOf(n: Node): Durable {
    Durable(n.currentTerm, n.votedFor, n.log, n.snapshot)
  }

  /** Ready reports a snapshot: Persist rewrites the whole file. */
  predicate SnapshotPending(n: Node) { n.snapshot.lastIndex > n.stableSnapshotIndex }

  /** The entries Ready reports. */
  function Unstable(n: Node): seq<Entry>
    requires LogOk(n.log)
  {
    if Base(n.log) <= n.unstableIndex <= LastIndex(n.log) then n.log[n.unstableIndex - Base(n.log)..] else []
  }

  /** The entries below an index. */
  function Below(log: seq<Entry>, index: nat): seq<Entry>
    requires LogOk(log)
  {
    if index <= Base(log) then [] else if index > LastIndex(log) then log else log[..index - Base(log)]
  }

  /**
   * What a crash inside Persist may leave on disk: the old state, the new one, or,
   * where records are appended, the new term and vote with the old log, or with the
   * old log below the first unstable index and some of the new entries.
   */
  predicate Recoverable(d: Durable, n: Node, e: Durable)
    requires LogOk(d.log) && LogOk(n.log)
  {
    || e == d
    || e == DurableOf(n)
    || (!SnapshotPending(n) && e == d.(term := n.currentTerm, vote := n.votedFor))
    || (!SnapshotPending(n) && Unstable(n) != [] && TornEntries(d, n, e))
  }

  predicate TornEntries(d: Durable, n: Node, e: Durable)
    requires LogOk(d.log) && LogOk(n.log)
  {
    exists j :: 0 <= j <= |Unstable(n)| &&
                e == Durable(n.currentTerm, n.votedFor, Below(d.log, n.unstableIndex) + Unstable(n)[..j], d.snapshot)
  }

  /** Advance: what Ready reported is durable and sent. */
  function Advance(n: Node): Node
    requires LogOk(n.log)
  {
    n.(stableTerm := n.currentTerm, stableVote := n.votedFor,
       unstableIndex := if LastIndex(n.log) >= n.unstableIndex then LastIndex(n.log) + 1 else n.unstableIndex,
       stableSnapshotIndex := n.snapshot.lastIndex,
       toApply := None, msgs := [], readStates := [])
  }

  /** A node as New makes it. */
  function NewNode(id: Id, peers: seq<Id>): Node {
    Node(id, peers, Follower, 0, 0, 0, [Entry(0, 0, [])], NoSnapshot, None, 0, 0, 0, 1, 0,
         map[], map[], map[], {}, {}, map[], [], [])
  }

  /** OpenNode: a new node seeded with what storage recovered. */
  function Restarted(id: Id, peers: seq<Id>, d: Durable): Node
    requires LogOk(d.log)
  {
    var n := NewNode(id, peers).(currentTerm := d.term, votedFor := d.vote, stableTerm := d.term, stableVote := d.vote,
                                 log := d.log, commitIndex := Base(d.log), unstableIndex := LastIndex(d.log) + 1);
    if d.snapshot.lastIndex > 0 then n.(snapshot := d.snapshot, stableSnapshotIndex := d.snapshot.lastIndex) else n
  }
}
