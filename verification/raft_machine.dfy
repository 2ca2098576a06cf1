/**
 * The Raft object of raft/raft.go, with its fields updated in place.
 *
 * Every method is proved to take `State()` where the function of module
 * RaftNode says, so what holds of those functions over runs holds of it.
 * Timers and their random reset are left to the caller, who decides when an
 * election timeout or a heartbeat is due.
 */
module RaftMachine {
  import opened Bytes
  import opened RaftTypes
  import opened RaftNode
  import opened RaftSteps

  /** What Config.validate asks of ids: none is zero, and a node is not its own peer. */
  predicate ConfigOk(id: Id, peers: seq<Id>) {
    id != 0 && forall i :: 0 <= i < |peers| ==> peers[i] != 0 && peers[i] != id
  }

  /** New: null stands for the error of an invalid configuration. */
  method NewRaft(id: Id, peers: seq<Id>) returns (r: Raft?)
    ensures r != null <==> ConfigOk(id, peers)
    ensures r != null ==> fresh(r) && r.Valid() && r.State() == NewNode(id, peers)
  {
    if id == 0 { return null; }
    for i := 0 to |peers|
      invariant forall j :: 0 <= j < i ==> peers[j] != 0 && peers[j] != id
    {
      if peers[i] == 0 || peers[i] == id { return null; }
    }
    r := new Raft(id, peers);
  }

  class Raft {
    const id: Id
    const peers: seq<Id>
    var role: Role
    var currentTerm: nat
    var votedFor: Id
    var leaderId: Id
    var log: seq<Entry>
    var snapshot: Snapshot
    var toApply: Option<Snapshot>
    var commitIndex: nat
    var stableTerm: nat
    var stableVote: Id
    var unstableIndex: nat
    var stableSnapshotIndex: nat
    var nextIndex: map<Id, nat>
    var matchIndex: map<Id, nat>
    var sentIndex: map<Id, nat>
    var votesReceived: set<Id>
    var preVotesReceived: set<Id>
    var pendingReads: map<nat, PendingRead>
    var readStates: seq<ReadState>
    var msgs: seq<Message>

    ghost function State(): Node
      reads this
    {
      Node(id, peers, role, currentTerm, votedFor, leaderId, log, snapshot, toApply, commitIndex, stableTerm, stableVote,
           unstableIndex, stableSnapshotIndex, nextIndex, matchIndex, sentIndex, votesReceived, preVotesReceived,
           pendingReads, readStates, msgs)
    }

    /** The log is never empty and its indices are consecutive. */
    ghost predicate Valid()
      reads this
    {
      LogOk(log)
    }

    constructor (id: Id, peers: seq<Id>)
      ensures Valid() && State() == NewNode(id, peers)
    {
      this.id, this.peers := id, peers;
      role, currentTerm, votedFor, leaderId := Follower, 0, 0, 0;
      log, snapshot, toApply := [Entry(0, 0, [])], NoSnapshot, None;
      commitIndex, stableTerm, stableVote, unstableIndex, stableSnapshotIndex := 0, 0, 0, 1, 0;
      nextIndex, matchIndex, sentIndex := map[], map[], map[];
      votesReceived, preVotesReceived := {}, {};
      pendingReads, readStates, msgs := map[], [], [];
    }

    /** Seeding a new node with what storage recovered, as OpenNode does. */
    method Restore(d: Durable)
      requires State() == NewNode(id, peers) && LogOk(d.log)
      modifies this
      ensures Valid() && State() == Restarted(id, peers, d)
    {
      hide LogOk, LastIndex;
      RestoreHardState(d.term, d.vote);
      RestoreLog(d.log);
      if d.snapshot.lastIndex > 0 { RestoreSnapshot(d.snapshot); }
    }

    method RestoreHardState(term: nat, vote: Id)
      modifies this`currentTerm, this`votedFor, this`stableTerm, this`stableVote
      ensures State() == old(State()).(currentTerm := term, votedFor := vote, stableTerm := term, stableVote := vote)
    {
      currentTerm, votedFor, stableTerm, stableVote := term, vote, term, vote;
    }

    method RestoreLog(entries: seq<Entry>)
      requires LogOk(entries)
      modifies this`log, this`commitIndex, this`unstableIndex
      ensures State() == old(State()).(log := entries, unstableIndex := LastIndex(entries) + 1,
                                       commitIndex := if Base(entries) > old(commitIndex) then Base(entries) else old(commitIndex))
    {
      log := entries;
      if Base(log) > commitIndex { commitIndex := Base(log); }
      unstableIndex := LastIndex(log) + 1;
    }

    method RestoreSnapshot(s: Snapshot)
      modifies this`snapshot, this`stableSnapshotIndex
      ensures State() == old(State()).(snapshot := s, stableSnapshotIndex := s.lastIndex)
    {
      snapshot, stableSnapshotIndex := s, s.lastIndex;
    }

    method Enqueue(to: Id, body: Body)
      modifies this`msgs
      ensures State() == Send(old(State()), to, body)
    {
      msgs := msgs + [Message(id, to, currentTerm, body)];
    }

    // -------------------------------------------------------------- replication

    method SendAppendEntries(peer: Id, ctx: nat)
      requires Valid()
      modifies this`msgs, this`sentIndex
      ensures State() == SendAppend(old(State()), peer, ctx)
    {
      if Pred(At(nextIndex, peer)) < Base(log) {
        Enqueue(peer, InstallSnapshot(snapshot));
        return;
      }
      var prev := Pred(At(nextIndex, peer));
      if At(sentIndex, peer) > prev { prev := At(sentIndex, peer); }
      Enqueue(peer, AppendEntries(prev, TermIn(log, prev), EntriesIn(log, prev, LastIndex(log)), commitIndex, ctx));
      if LastIndex(log) > At(sentIndex, peer) { sentIndex := sentIndex[peer := LastIndex(log)]; }
    }

    /** The loop over all peers that sendHeartbeats, ProposeBatch and RequestReadIndex share. */
    method SendToAll(ctx: nat)
      requires Valid()
      modifies this`msgs, this`sentIndex
      ensures State() == SendAppends(old(State()), peers, ctx)
    {
      ghost var before := State();
      for i := 0 to |peers|
        invariant Valid() && SendAppends(State(), peers[i..], ctx) == SendAppends(before, peers, ctx)
      {
        assert peers[i..][0] == peers[i] && peers[i..][1..] == peers[i + 1..];
        SendAppendEntries(peers[i], ctx);
      }
      assert peers[|peers|..] == [];
    }

    method MaybeAdvanceCommitIndex()
      requires Valid()
      modifies this`commitIndex
      ensures State() == AdvanceCommit(old(State()))
    {
      ghost var before := State();
      var n: nat := LastIndex(log);
      while n > commitIndex
        invariant State() == before
        invariant CommitUpTo(before, LastIndex(log)) == CommitUpTo(before, n)
      {
        if TermIn(log, n) == currentTerm {
          var count := 1;
          for i := 0 to |peers|
            invariant count == 1 + CountMatched(peers[..i], matchIndex, n)
          {
            assert peers[..i + 1][..i] == peers[..i];
            if At(matchIndex, peers[i]) >= n { count := count + 1; }
          }
          assert peers[..|peers|] == peers;
          if count >= (|peers| + 1) / 2 + 1 {
            commitIndex := n;
            return;
          }
        }
        n := n - 1;
      }
    }

    // ------------------------------------------------------------------ roles

    method BecomeAFollower(term: nat)
      modifies this`currentTerm, this`votedFor, this`role
      ensures State() == BecomeFollower(old(State()), term)
    {
      if term > currentTerm { currentTerm, votedFor := term, 0; }
      role := Follower;
    }

    method Follow(term: nat, leader: Id)
      modifies this`currentTerm, this`votedFor, this`role, this`leaderId
      ensures State() == BecomeFollower(old(State()), term).(leaderId := leader)
    {
      BecomeAFollower(term);
      leaderId := leader;
    }

    /** The loop of becomeLeader over nextIndex and matchIndex. */
    method ResetProgress()
      requires Valid()
      modifies this`nextIndex, this`matchIndex
      ensures State() == old(State()).(nextIndex := InitialNext(peers, LastIndex(log) + 1), matchIndex := InitialNext(peers, 0))
    {
      hide LogOk, LastIndex;
      var next := LastIndex(log) + 1;
      nextIndex, matchIndex := map[], map[];
      for i := 0 to |peers|
        invariant nextIndex == InitialNext(peers[..i], next) && matchIndex == InitialNext(peers[..i], 0)
      {
        assert peers[..i + 1][..i] == peers[..i];
        nextIndex := nextIndex[peers[i] := next];
        matchIndex := matchIndex[peers[i] := 0];
      }
      assert peers[..|peers|] == peers;
    }

    method TakeLead()
      modifies this`role, this`leaderId, this`sentIndex, this`pendingReads
      ensures State() == old(State()).(role := Leader, leaderId := id, sentIndex := map[], pendingReads := map[])
    {
      role, leaderId, sentIndex, pendingReads := Leader, id, map[], map[];
    }

    method BecomeALeader()
      requires Valid()
      modifies this
      ensures Valid() && State() == BecomeLeader(old(State()))
    {
      hide LogOk, LastIndex, CommitUpTo, InitialNext;
      TakeLead();
      ResetProgress();
      SendToAll(0);
      if |peers| == 0 { MaybeAdvanceCommitIndex(); }
    }

    method Ask(body: Body)
      modifies this`msgs
      ensures State() == Broadcast(old(State()), peers, body)
    {
      ghost var before := State();
      for i := 0 to |peers|
        invariant Broadcast(State(), peers[i..], body) == Broadcast(before, peers, body)
      {
        assert peers[i..][0] == peers[i] && peers[i..][1..] == peers[i + 1..];
        Enqueue(peers[i], body);
      }
      assert peers[|peers|..] == [];
    }

    method StartTerm()
      modifies this`currentTerm, this`votedFor, this`votesReceived
      ensures State() == old(State()).(currentTerm := old(currentTerm) + 1, votedFor := id, votesReceived := {id})
    {
      currentTerm, votedFor, votesReceived := currentTerm + 1, id, {id};
    }

    method BecomeACandidate()
      requires Valid()
      modifies this
      ensures Valid() && State() == BecomeCandidate(old(State()))
    {
      hide BecomeLeader, Broadcast, LogOk;
      StartTerm();
      role, leaderId := Candidate, 0;
      if |peers| == 0 {
        BecomeALeader();
      } else {
        Ask(RequestVote(LastIndex(log), LastTermOf(log)));
      }
    }

    method BecomeAPreCandidate()
      requires Valid()
      modifies this
      ensures Valid() && State() == BecomePreCandidate(old(State()))
    {
      hide BecomeCandidate, Broadcast, LogOk;
      role, leaderId, preVotesReceived := PreCandidate, 0, {id};
      if |peers| == 0 {
        BecomeACandidate();
      } else {
        Ask(PreVote(LastIndex(log), LastTermOf(log)));
      }
    }

    // -------------------------------------------------------------- elections

    method HandlePreVote(m: Message)
      requires Valid() && m.body.PreVote?
      modifies this`msgs
      ensures Valid() && State() == AfterPreVote(old(State()), m)
    {
      if m.term + 1 < currentTerm {
        Enqueue(m.from, PreVoteResponse(false));
        return;
      }
      var logOk := m.body.lastTerm > LastTermOf(log) || (m.body.lastTerm == LastTermOf(log) && m.body.lastIndex >= LastIndex(log));
      var canVote := votedFor == 0 || votedFor == m.from || m.term + 1 > currentTerm;
      Enqueue(m.from, PreVoteResponse(canVote && logOk));
    }

    method HandlePreVoteResponse(m: Message)
      requires Valid() && m.body.PreVoteResponse?
      modifies this
      ensures Valid() && State() == AfterPreVoteResponse(old(State()), m)
    {
      hide BecomeCandidate;
      if role != PreCandidate || !m.body.granted { return; }
      preVotesReceived := preVotesReceived + {m.from};
      if |preVotesReceived| >= (|peers| + 1) / 2 + 1 { BecomeACandidate(); }
    }

    method HandleRequestVote(m: Message)
      requires Valid() && m.body.RequestVote?
      modifies this
      ensures Valid() && State() == AfterRequestVote(old(State()), m)
    {
      if m.term > currentTerm { BecomeAFollower(m.term); }
      if m.term < currentTerm {
        Enqueue(m.from, RequestVoteResponse(false));
        return;
      }
      var canVote := votedFor == 0 || votedFor == m.from;
      var logOk := m.body.lastTerm > LastTermOf(log) || (m.body.lastTerm == LastTermOf(log) && m.body.lastIndex >= LastIndex(log));
      if canVote && logOk { votedFor := m.from; }
      Enqueue(m.from, RequestVoteResponse(canVote && logOk));
    }

    method HandleRequestVoteResponse(m: Message)
      requires Valid() && m.body.RequestVoteResponse?
      modifies this
      ensures Valid() && State() == AfterRequestVoteResponse(old(State()), m)
    {
      hide BecomeLeader;
      if m.term > currentTerm {
        BecomeAFollower(m.term);
        return;
      }
      if m.term < currentTerm || role != Candidate || !m.body.granted { return; }
      votesReceived := votesReceived + {m.from};
      if |votesReceived| >= (|peers| + 1) / 2 + 1 { BecomeALeader(); }
    }

    // ---------------------------------------------------------- append entries

    /** The entry loop; false where the slice expression panics. */
    method MergeEntries(prev: nat, es: seq<Entry>) returns (ok: bool)
      requires Valid() && EntriesOk(prev, es) && prev <= LastIndex(log)
      modifies this`log, this`unstableIndex
      ensures ok == Merge(old(log), old(unstableIndex), prev, es).Some?
      ensures ok ==> Valid() && (log, unstableIndex) == Merge(old(log), old(unstableIndex), prev, es).value
    {
      hide AgreeLen;
      ghost var first, k := old(log), AgreeLen(log, prev + 1, es);
      var i := 0;
      while i < |es|
        invariant 0 <= i <= |es|
        invariant i <= k ==> log == first && unstableIndex == old(unstableIndex)
        invariant i > k ==> Base(first) < prev + 1 + k && Replaced(first, old(unstableIndex), prev, es, k, i, log, unstableIndex)
      {
        var idx := prev + 1 + i;
        if i < k { assert HasTerm(first, prev + 1 + i, es[i].term); } else if i > k { ReplacedLast(first, prev, es, k, i, log); }
        if idx <= LastIndex(log) && TermIn(log, idx) != es[i].term {
          if idx <= Base(log) { return false; }
          log := log[..idx - Base(log)];
          if idx < unstableIndex { unstableIndex := idx; }
        }
        if idx > log[|log| - 1].index { log := log + [es[i]]; }
        i := i + 1;
      }
      if k < |es| {
        assert es[k..|es|] == es[k..];
        assert prev + 1 + k > LastIndex(first) ==> first[..prev + 1 + k - Base(first)] == first;
        ReplacedLast(first, prev, es, k, |es|, log);
      }
      return true;
    }

    /** The accepting case, before the reply; false where the entry loop panics. */
    method Accept(b: Body) returns (ok: bool)
      requires Valid() && b.AppendEntries? && EntriesOk(b.prevIndex, b.entries) && b.prevIndex <= LastIndex(log)
      modifies this`log, this`unstableIndex, this`commitIndex
      ensures ok == Merge(old(log), old(unstableIndex), b.prevIndex, b.entries).Some?
      ensures ok ==>
        var (l, u) := Merge(old(log), old(unstableIndex), b.prevIndex, b.entries).value;
        && Valid()
        && State() == old(State()).(log := l, unstableIndex := u,
                                    commitIndex := if b.commit > old(commitIndex) then Min(b.commit, LastIndex(l)) else old(commitIndex))
    {
      hide Merge;
      ok := MergeEntries(b.prevIndex, b.entries);
      if ok && b.commit > commitIndex { commitIndex := Min(b.commit, LastIndex(log)); }
    }

    /** handleAppendEntries; false where it panics. */
    method HandleAppendEntries(m: Message) returns (ok: bool)
      requires Valid() && m.body.AppendEntries? && EntriesOk(m.body.prevIndex, m.body.entries)
      modifies this
      ensures ok == AfterAppend(old(State()), m).Some?
      ensures ok ==> Valid() && State() == AfterAppend(old(State()), m).value
    {
      hide Merge;
      var b := m.body;
      if m.term < currentTerm {
        Enqueue(m.from, AppendEntriesResponse(false, 0, 0));
        return true;
      }
      Follow(m.term, m.from);
      if b.prevIndex > LastIndex(log) || TermIn(log, b.prevIndex) != b.prevTerm {
        Enqueue(m.from, AppendEntriesResponse(false, 0, b.readCtx));
        return true;
      }
      ok := Accept(b);
      if ok { Enqueue(m.from, AppendEntriesResponse(true, b.prevIndex + |b.entries|, b.readCtx)); }
    }

    method AckReadIndex(ctx: nat, peer: Id)
      modifies this`readStates, this`pendingReads
      ensures State() == AckRead(old(State()), ctx, peer)
    {
      if ctx !in pendingReads { return; }
      var pr := pendingReads[ctx];
      var acked := pr.acked + {peer};
      if |acked| >= (|peers| + 1) / 2 + 1 {
        readStates := readStates + [ReadState(pr.index, ctx)];
        pendingReads := pendingReads - {ctx};
      } else {
        pendingReads := pendingReads[ctx := PendingRead(pr.index, acked)];
      }
    }

    method HandleAppendEntriesResponse(m: Message)
      requires Valid() && m.body.AppendEntriesResponse?
      modifies this
      ensures Valid() && State() == AfterAppendResponse(old(State()), m)
    {
      hide AckRead, CommitUpTo, SendAppend, LogOk;
      if m.term > currentTerm {
        BecomeAFollower(m.term);
        return;
      }
      if m.term < currentTerm || role != Leader { return; }
      if m.body.readCtx != 0 { AckReadIndex(m.body.readCtx, m.from); }
      if m.body.success {
        RecordMatch(m.from, m.body.matchIndex);
        nextIndex := nextIndex[m.from := m.body.matchIndex + 1];
        MaybeAdvanceCommitIndex();
      } else {
        BackOff(m.from);
        SendAppendEntries(m.from, 0);
      }
    }

    method RecordMatch(peer: Id, index: nat)
      modifies this`matchIndex
      ensures State() == old(State()).(matchIndex := if index > At(old(matchIndex), peer) then old(matchIndex)[peer := index]
                                                     else old(matchIndex))
    {
      if index > At(matchIndex, peer) { matchIndex := matchIndex[peer := index]; }
    }

    method BackOff(peer: Id)
      modifies this`nextIndex, this`sentIndex
      ensures State() == old(State()).(
                nextIndex := if At(old(nextIndex), peer) > 1 then old(nextIndex)[peer := At(old(nextIndex), peer) - 1] else old(nextIndex),
                sentIndex := old(sentIndex)[peer := 0])
    {
      if At(nextIndex, peer) > 1 { nextIndex := nextIndex[peer := At(nextIndex, peer) - 1]; }
      sentIndex := sentIndex[peer := 0];
    }

    // --------------------------------------------------------------- snapshots

    method InstallReceived(s: Snapshot)
      modifies this`log, this`commitIndex, this`unstableIndex
      ensures Valid()
      ensures State() == old(State()).(log := [Entry(s.lastTerm, s.lastIndex, [])], unstableIndex := s.lastIndex + 1,
                                       commitIndex := if s.lastIndex > old(commitIndex) then s.lastIndex else old(commitIndex))
    {
      log := [Entry(s.lastTerm, s.lastIndex, [])];
      if s.lastIndex > commitIndex { commitIndex := s.lastIndex; }
      unstableIndex := s.lastIndex + 1;
    }

    method KeepSnapshot(s: Snapshot)
      modifies this`snapshot, this`toApply
      ensures State() == old(State()).(snapshot := s, toApply := Some(s))
    {
      snapshot, toApply := s, Some(s);
    }

    method HandleInstallSnapshot(m: Message)
      requires Valid() && m.body.InstallSnapshot?
      modifies this
      ensures Valid() && State() == AfterInstall(old(State()), m)
    {
      hide AfterInstall, LogOk;
      ghost var before := State();
      InstallAnswer(before, m);
      if m.term < currentTerm {
        Enqueue(m.from, InstallSnapshotResponse(Base(log)));
        return;
      }
      Follow(m.term, m.from);
      if m.body.snap.lastIndex <= Base(log) {
        Enqueue(m.from, InstallSnapshotResponse(Base(log)));
        return;
      }
      InstallReceived(m.body.snap);
      KeepSnapshot(m.body.snap);
      Enqueue(m.from, InstallSnapshotResponse(m.body.snap.lastIndex));
    }

    method HandleInstallSnapshotResponse(m: Message)
      requires Valid() && m.body.InstallSnapshotResponse?
      modifies this
      ensures Valid() && State() == AfterInstallResponse(old(State()), m)
    {
      hide CommitUpTo, LogOk;
      if m.term > currentTerm {
        BecomeAFollower(m.term);
        return;
      }
      if m.term < currentTerm || role != Leader { return; }
      RecordMatch(m.from, m.body.matchIndex);
      if m.body.matchIndex + 1 > At(nextIndex, m.from) { nextIndex := nextIndex[m.from := m.body.matchIndex + 1]; }
      MaybeAdvanceCommitIndex();
    }

    /** CreateSnapshot; false stands for its errors and None for a panic, which change nothing. */
    method CreateSnapshot(index: nat, data: Bytes) returns (r: Option<bool>)
      requires Valid()
      modifies this`log, this`unstableIndex, this`snapshot
      ensures Valid() && (r.None? <==> CompactPanics(old(State()), index))
      ensures r.None? ==> State() == old(State())
      ensures r.Some? ==> r.value == (Base(old(log)) < index <= old(commitIndex)) && State() == AfterCompact(old(State()), index, data)
    {
      if index > commitIndex || index <= Base(log) { return Some(false); }
      if index > LastIndex(log) { return None; }
      var term := TermIn(log, index);
      log := [Entry(term, index, [])] + log[index - Base(log) + 1..];
      if unstableIndex <= index { unstableIndex := index + 1; }
      snapshot := Snapshot(index, term, data);
      return Some(true);
    }

    // ---------------------------------------------------------- leader operations

    /** ProposeBatch: the indices given to the entries, or None for ErrNotLeader. */
    method ProposeBatch(datas: seq<Bytes>) returns (r: Option<seq<nat>>)
      requires Valid()
      modifies this
      ensures Valid() && State() == AfterPropose(old(State()), datas)
      ensures r.None? <==> old(role) != Leader
      ensures r.Some? ==> |r.value| == |datas| && forall i :: 0 <= i < |datas| ==> r.value[i] == LastIndex(old(log)) + 1 + i
    {
      hide SendAppends, CommitUpTo;
      if role != Leader { return None; }
      var indices := AppendAll(datas);
      if |peers| == 0 {
        MaybeAdvanceCommitIndex();
      } else {
        SendToAll(0);
      }
      return Some(indices);
    }

    /** The loop that gives each proposal the next index. */
    method AppendAll(datas: seq<Bytes>) returns (indices: seq<nat>)
      requires Valid()
      modifies this`log
      ensures Valid() && log == old(log) + NewEntries(currentTerm, LastIndex(old(log)) + 1, datas)
      ensures |indices| == |datas| && forall i :: 0 <= i < |datas| ==> indices[i] == LastIndex(old(log)) + 1 + i
    {
      indices := [];
      for i := 0 to |datas|
        invariant Valid() && log == old(log) + NewEntries(currentTerm, LastIndex(old(log)) + 1, datas)[..i]
        invariant |indices| == i && forall j :: 0 <= j < i ==> indices[j] == LastIndex(old(log)) + 1 + j
      {
        var e := Entry(currentTerm, LastIndex(log) + 1, datas[i]);
        log := log + [e];
        indices := indices + [e.index];
      }
    }

    /** RequestReadIndex; false for ErrNotLeader. */
    method RequestReadIndex(ctx: nat) returns (ok: bool)
      requires Valid()
      modifies this
      ensures ok == (old(role) == Leader)
      ensures Valid() && State() == AfterReadRequest(old(State()), ctx)
    {
      hide SendAppends, LogOk;
      if role != Leader { return false; }
      if 1 >= (|peers| + 1) / 2 + 1 {
        readStates := readStates + [ReadState(commitIndex, ctx)];
        pendingReads := pendingReads - {ctx};
        return true;
      }
      pendingReads := pendingReads[ctx := PendingRead(commitIndex, {id})];
      SendToAll(ctx);
      return true;
    }

    // ------------------------------------------------------------ step and ready

    /** Step; false where the handler panics. */
    method Step(m: Message) returns (ok: bool)
      requires Valid() && (m.body.AppendEntries? ==> EntriesOk(m.body.prevIndex, m.body.entries))
      modifies this
      ensures ok == AfterStep(old(State()), m).Some?
      ensures ok ==> Valid() && State() == AfterStep(old(State()), m).value
    {
      hide AfterAppend, AfterInstall, AfterAppendResponse, AfterPreVote, AfterPreVoteResponse, AfterRequestVote,
           AfterRequestVoteResponse, AfterInstallResponse, LogOk;
      ok := true;
      if m.to != id { return; }
      match m.body
      case PreVote(_, _) => HandlePreVote(m);
      case PreVoteResponse(_) => HandlePreVoteResponse(m);
      case RequestVote(_, _) => HandleRequestVote(m);
      case RequestVoteResponse(_) => HandleRequestVoteResponse(m);
      case AppendEntries(_, _, _, _, _) => ok := HandleAppendEntries(m);
      case AppendEntriesResponse(_, _, _) => HandleAppendEntriesResponse(m);
      case InstallSnapshot(_) => HandleInstallSnapshot(m);
      case InstallSnapshotResponse(_) => HandleInstallSnapshotResponse(m);
    }

    method MarkStable()
      requires Valid()
      modifies this`stableTerm, this`stableVote, this`unstableIndex, this`stableSnapshotIndex
      ensures State() == old(State()).(stableTerm := currentTerm, stableVote := votedFor, stableSnapshotIndex := snapshot.lastIndex,
                                       unstableIndex := if LastIndex(log) >= old(unstableIndex) then LastIndex(log) + 1 else old(unstableIndex))
    {
      stableTerm, stableVote, stableSnapshotIndex := currentTerm, votedFor, snapshot.lastIndex;
      if LastIndex(log) >= unstableIndex { unstableIndex := LastIndex(log) + 1; }
    }

    method AdvanceReady()
      requires Valid()
      modifies this
      ensures Valid() && State() == Advance(old(State()))
    {
      MarkStable();
      toApply, msgs, readStates := None, [], [];
    }
  }

  /** What the entry loop has made of the log after i entries, the first new one being number k. */
  ghost predicate Replaced(first: seq<Entry>, unstable: nat, prev: nat, es: seq<Entry>, k: nat, i: nat, log: seq<Entry>, u: nat)
    requires LogOk(first) && k < i <= |es|
  {
    var at := prev + 1 + k;
    && Base(first) < at <= LastIndex(first) + 1
    && log == first[..at - Base(first)] + es[k..i]
    && u == if at <= LastIndex(first) then Min(at, unstable) else unstable
  }

  lemma ReplacedLast(first: seq<Entry>, prev: nat, es: seq<Entry>, k: nat, i: nat, log: seq<Entry>)
    requires LogOk(first) && EntriesOk(prev, es) && k < i <= |es| && Base(first) < prev + 1 + k <= LastIndex(first) + 1
    requires log == first[..prev + 1 + k - Base(first)] + es[k..i]
    ensures LogOk(log) && LastIndex(log) == prev + i && log[0] == first[0]
  {
  }
}
