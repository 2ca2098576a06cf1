/** What the messages of one election and of one replication do, in a cluster of three. */
module RaftScript {
  import opened Bytes
  import opened RaftTypes
  import opened RaftNode

  /** What a leader keeps about a peer. */
  datatype Peer = Peer(next: nat, matched: nat, sent: nat)

  predicate Sees(n: Node, p: Id, x: Peer) {
    At(n.nextIndex, p) == x.next && At(n.matchIndex, p) == x.matched && At(n.sentIndex, p) == x.sent
  }

  predicate Leads(n: Node, term: nat, log: seq<Entry>, commit: nat, p: Id, x: Peer, q: Id, y: Peer) {
    && n.peers == [p, q] && p != q && n.role == Leader && n.currentTerm == term && n.log == log && LogOk(log)
    && n.commitIndex == commit && n.msgs == [] && Sees(n, p, x) && Sees(n, q, y)
  }

  predicate Follows(n: Node, id: Id, term: nat, vote: Id, log: seq<Entry>, commit: nat) {
    && n.id == id && n.role == Follower && n.currentTerm == term && n.votedFor == vote && n.log == log && LogOk(log)
    && n.commitIndex == commit && n.msgs == []
  }

  // --------------------------------------------------------------------------- election

  predicate Asks(n: Node, id: Id, term: nat, log: seq<Entry>, commit: nat, p: Id, q: Id) {
    && n.id == id && n.peers == [p, q] && n.role == PreCandidate && n.currentTerm == term && n.log == log && LogOk(log)
    && n.commitIndex == commit && n.preVotesReceived == {id} && n.msgs == [] && p != id && q != id && p != q
  }

  predicate Stands(n: Node, id: Id, term: nat, log: seq<Entry>, commit: nat, p: Id, q: Id) {
    && n.id == id && n.peers == [p, q] && n.role == Candidate && n.currentTerm == term && n.votedFor == id && n.log == log && LogOk(log)
    && n.commitIndex == commit && n.votesReceived == {id} && n.msgs == [] && p != id && q != id && p != q
  }

  lemma BroadcastTwo(n: Node, p: Id, q: Id, body: Body)
    ensures Broadcast(n, [p, q], body)
         == n.(msgs := n.msgs + [Message(n.id, p, n.currentTerm, body)] + [Message(n.id, q, n.currentTerm, body)])
  {
    assert [p, q][1..] == [q] && [q][1..] == [];
    var t := Send(n, p, body);
    assert Broadcast(t, [q], body) == Broadcast(Send(t, q, body), [], body);
  }

  lemma TimesOut(n: Node, id: Id, term: nat, vote: Id, log: seq<Entry>, commit: nat, p: Id, q: Id)
    requires Follows(n, id, term, vote, log, commit) && n.peers == [p, q] && p != id && q != id && p != q
    ensures var r := BecomePreCandidate(n);
            && r.log == log && Asks(Advance(r), id, term, log, commit, p, q)
            && Message(id, p, term, PreVote(LastIndex(log), LastTermOf(log))) in r.msgs
  {
    BroadcastTwo(n.(role := PreCandidate, leaderId := 0, preVotesReceived := {n.id}), p, q, PreVote(LastIndex(log), LastTermOf(log)));
    var m := Message(id, p, term, PreVote(LastIndex(log), LastTermOf(log)));
    assert BecomePreCandidate(n).msgs[0] == m;
  }

  lemma PreVoteGranted(n: Node, id: Id, term: nat, vote: Id, log: seq<Entry>, commit: nat, m: Message)
    requires Follows(n, id, term, vote, log, commit) && m.body.PreVote? && m.term + 1 > term
    requires LogUpToDate(n, m.body.lastIndex, m.body.lastTerm)
    ensures var r := AfterPreVote(n, m);
            && Follows(Advance(r), id, term, vote, log, commit) && Advance(r).peers == n.peers
            && Message(id, m.from, term, PreVoteResponse(true)) in r.msgs
  {
    assert AfterPreVote(n, m).msgs[0] == Message(id, m.from, term, PreVoteResponse(true));
  }

  lemma TwoOfThree(n: Node, p: Id, q: Id)
    requires n.peers == [p, q] && n.id != p
    ensures HasMajority(n, |{n.id} + {p}|)
  {
    assert {n.id} + {p} == {n.id, p};
  }

  lemma StandsUp(n: Node, id: Id, term: nat, log: seq<Entry>, commit: nat, p: Id, q: Id, m: Message)
    requires Asks(n, id, term, log, commit, p, q) && m.body.PreVoteResponse? && m.body.granted && m.from == p
    ensures var r := AfterPreVoteResponse(n, m);
            && r.log == log && Stands(Advance(r), id, term + 1, log, commit, p, q)
            && Message(id, p, term + 1, RequestVote(LastIndex(log), LastTermOf(log))) in r.msgs
  {
    TwoOfThree(n, p, q);
    var c := n.(preVotesReceived := n.preVotesReceived + {p});
    var d := c.(currentTerm := c.currentTerm + 1, role := Candidate, votedFor := c.id, leaderId := 0, votesReceived := {c.id});
    BroadcastTwo(d, p, q, RequestVote(LastIndex(log), LastTermOf(log)));
    assert AfterPreVoteResponse(n, m).msgs[0] == Message(id, p, term + 1, RequestVote(LastIndex(log), LastTermOf(log)));
  }

  lemma VoteGranted(n: Node, id: Id, term: nat, vote: Id, log: seq<Entry>, commit: nat, m: Message)
    requires Follows(n, id, term, vote, log, commit) && m.body.RequestVote? && m.term > term
    requires LogUpToDate(n, m.body.lastIndex, m.body.lastTerm)
    ensures var r := AfterRequestVote(n, m);
            && Follows(Advance(r), id, m.term, m.from, log, commit) && Advance(r).peers == n.peers
            && Message(id, m.from, m.term, RequestVoteResponse(true)) in r.msgs
  {
    assert AfterRequestVote(n, m).msgs[0] == Message(id, m.from, m.term, RequestVoteResponse(true));
  }

  lemma Wins(n: Node, id: Id, term: nat, log: seq<Entry>, commit: nat, p: Id, q: Id, m: Message)
    requires Stands(n, id, term, log, commit, p, q) && m.body.RequestVoteResponse? && m.body.granted && m.from == p && m.term == term
    ensures var unknown := Peer(LastIndex(log) + 1, 0, LastIndex(log));
            var r := AfterRequestVoteResponse(n, m);
            LogOk(r.log) && Leads(Advance(r), term, log, commit, p, unknown, q, unknown) && r.id == id
  {
    hide SendAppend, SendAppends, LogOk, HasMajority;
    var c := n.(votesReceived := n.votesReceived + {p});
    TwoOfThree(c, p, q);
    var l := c.(role := Leader, leaderId := c.id, nextIndex := InitialNext(c.peers, LastIndex(log) + 1),
                matchIndex := InitialNext(c.peers, 0), sentIndex := map[], pendingReads := map[]);
    assert p in c.peers && q in c.peers;
    SentBoth(l, p, q, 0);
    SendFirst(l, p);
    SendFirst(SendAppend(l, p, 0), q);
  }

  lemma SendFirst(n: Node, p: Id)
    requires LogOk(n.log) && At(n.nextIndex, p) == LastIndex(n.log) + 1 && At(n.sentIndex, p) == 0
    ensures var r := SendAppend(n, p, 0);
            && r == n.(msgs := r.msgs, sentIndex := r.sentIndex) && At(r.sentIndex, p) == LastIndex(n.log)
            && forall q :: q != p ==> At(r.sentIndex, q) == At(n.sentIndex, q)
  {
    hide EntriesIn, TermIn;
  }

  // ------------------------------------------------------------------------ replication

  lemma SentBoth(n: Node, p: Id, q: Id, ctx: nat)
    requires LogOk(n.log)
    ensures SendAppends(n, [p, q], ctx) == SendAppend(SendAppend(n, p, ctx), q, ctx)
  {
    hide EntriesIn, TermIn, LogOk;
    assert [p, q][1..] == [q] && [q][1..] == [];
    var t := SendAppend(n, p, ctx);
    assert SendAppends(t, [q], ctx) == SendAppends(SendAppend(t, q, ctx), [], ctx);
  }

  /** The one new entry goes out. */
  lemma SendNew(n: Node, p: Id, x: Peer, log: seq<Entry>, e: Entry)
    requires LogOk(log) && e.index == LastIndex(log) + 1 && n.log == log + [e] && LogOk(n.log)
    requires Sees(n, p, x) && x.sent == LastIndex(log) && Base(log) < x.next <= LastIndex(log) + 1
    ensures SendAppend(n, p, 0)
         == Send(n, p, AppendEntries(LastIndex(log), LastTermOf(log), [e], n.commitIndex, 0)).(sentIndex := n.sentIndex[p := e.index])
  {
    hide EntriesIn, TermIn, LogOk;
    OneMore(log, e);
  }

  lemma SentNew(n: Node, term: nat, log: seq<Entry>, commit: nat, p: Id, x: Peer, q: Id, y: Peer, e: Entry, m: Message, o: Message)
    requires Leads(n, term, log, commit, p, x, q, y) && LogOk(log + [e])
    ensures var r := n.(log := log + [e], msgs := [m] + [o], sentIndex := n.sentIndex[p := e.index][q := e.index]);
            Leads(Advance(r), term, log + [e], commit, p, x.(sent := e.index), q, y.(sent := e.index)) && m in r.msgs && o in r.msgs
  {
    hide LogOk;
  }

  /** A leader whose peers have been sent all it has appends one entry. */
  lemma Proposes(n: Node, term: nat, log: seq<Entry>, commit: nat, p: Id, x: Peer, q: Id, y: Peer, data: Bytes)
    requires Leads(n, term, log, commit, p, x, q, y) && x.sent == y.sent == LastIndex(log)
    requires Base(log) < x.next <= LastIndex(log) + 1 && Base(log) < y.next <= LastIndex(log) + 1
    ensures var e := Entry(term, LastIndex(log) + 1, data);
            var r := AfterPropose(n, [data]);
            && r.id == n.id && LogOk(r.log)
            && Leads(Advance(r), term, log + [e], commit, p, x.(sent := e.index), q, y.(sent := e.index))
            && Message(n.id, p, term, AppendEntries(LastIndex(log), LastTermOf(log), [e], commit, 0)) in r.msgs
            && Message(n.id, q, term, AppendEntries(LastIndex(log), LastTermOf(log), [e], commit, 0)) in r.msgs
  {
    hide SendAppend, SendAppends, LogOk, Advance;
    var e := Entry(term, LastIndex(log) + 1, data);
    var body := AppendEntries(LastIndex(log), LastTermOf(log), [e], commit, 0);
    assert NewEntries(term, LastIndex(log) + 1, [data]) == [e];
    OneMore(log, e);
    var s := n.(log := log + [e]);
    SentBoth(s, p, q, 0);
    SendNew(s, p, x, log, e);
    SendNew(SendAppend(s, p, 0), q, y, log, e);
    SentNew(n, term, log, commit, p, x, q, y, e, Message(n.id, p, term, body), Message(n.id, q, term, body));
    assert [] + [Message(n.id, p, term, body)] == [Message(n.id, p, term, body)];
  }

  lemma OneMore(log: seq<Entry>, e: Entry)
    requires LogOk(log) && e.index == LastIndex(log) + 1
    ensures LogOk(log + [e]) && Base(log + [e]) == Base(log) && LastIndex(log + [e]) == e.index
    ensures TermIn(log + [e], LastIndex(log)) == LastTermOf(log) && EntriesIn(log + [e], LastIndex(log), e.index) == [e]
  {
  }

  /** A follower takes the one entry after its last. */
  lemma Takes(n: Node, id: Id, term: nat, vote: Id, log: seq<Entry>, commit: nat, m: Message, e: Entry, c: nat)
    requires Follows(n, id, term, vote, log, commit) && m.term >= term && e.index == LastIndex(log) + 1
    requires m.body == AppendEntries(LastIndex(log), LastTermOf(log), [e], c, 0)
    ensures EntriesOk(m.body.prevIndex, m.body.entries) && AfterAppend(n, m).Some?
    ensures var r := AfterAppend(n, m).value;
            && LogOk(r.log) && Advance(r).peers == n.peers
            && Follows(Advance(r), id, m.term, if m.term > term then 0 else vote, log + [e], if c > commit then Min(c, e.index) else commit)
            && Message(id, m.from, m.term, AppendEntriesResponse(true, e.index, 0)) in r.msgs
  {
    hide AgreeLen;
    assert !HasTerm(log, e.index + 0, [e][0].term);
    assert AgreeLen(log, e.index, [e]) == 0;
    assert [e][0..] == [e];
    assert AfterAppend(n, m).value.msgs[0] == Message(id, m.from, m.term, AppendEntriesResponse(true, e.index, 0));
  }

  lemma CountTwo(p: Id, q: Id, matched: map<Id, nat>, i: nat)
    ensures CountMatched([p, q], matched, i) == (if At(matched, p) >= i then 1 else 0) + (if At(matched, q) >= i then 1 else 0)
  {
    assert [p, q][..1] == [p] && [p][..0] == [];
    assert CountMatched([p], matched, i) == (if At(matched, p) >= i then 1 else 0) + CountMatched([], matched, i);
  }

  lemma CommitsTo(n: Node, p: Id, q: Id, k: nat)
    requires LogOk(n.log) && n.peers == [p, q] && n.commitIndex < k <= LastIndex(n.log) && TermIn(n.log, k) == n.currentTerm
    requires At(n.matchIndex, p) <= k && At(n.matchIndex, q) <= k && (At(n.matchIndex, p) == k || At(n.matchIndex, q) == k)
    ensures CommitUpTo(n, LastIndex(n.log)) == k
  {
    hide TermIn, CountMatched;
    forall i
      ensures CountMatched(n.peers, n.matchIndex, i)
           == (if At(n.matchIndex, p) >= i then 1 else 0) + (if At(n.matchIndex, q) >= i then 1 else 0)
    {
      CountTwo(p, q, n.matchIndex, i);
    }
    assert Committable(n, k);
  }

  /** An acknowledgement past what the other peer has: one of three more commits it. */
  lemma Counts(n: Node, term: nat, log: seq<Entry>, commit: nat, p: Id, x: Peer, q: Id, y: Peer, k: nat, m: Message)
    requires Leads(n, term, log, commit, p, x, q, y) && m.term == term && m.body == AppendEntriesResponse(true, k, 0) && m.from == p
    requires x.matched < k && y.matched <= k && commit < k <= LastIndex(log) && TermIn(log, k) == term
    ensures var r := AfterAppendResponse(n, m);
            LogOk(r.log) && r.id == n.id && r.snapshot == n.snapshot && Leads(Advance(r), term, log, k, p, Peer(k + 1, k, x.sent), q, y)
  {
    hide CommitUpTo, TermIn;
    var a := n.(matchIndex := n.matchIndex[p := k], nextIndex := n.nextIndex[p := k + 1]);
    CommitsTo(a, p, q, k);
  }

  /** The same for an acknowledgement from the second peer. */
  lemma CountsOther(n: Node, term: nat, log: seq<Entry>, commit: nat, p: Id, x: Peer, q: Id, y: Peer, k: nat, m: Message)
    requires Leads(n, term, log, commit, p, x, q, y) && m.term == term && m.body == AppendEntriesResponse(true, k, 0) && m.from == q
    requires y.matched < k && x.matched <= k && commit < k <= LastIndex(log) && TermIn(log, k) == term
    ensures var r := AfterAppendResponse(n, m);
            LogOk(r.log) && r.id == n.id && r.snapshot == n.snapshot && Leads(Advance(r), term, log, k, p, x, q, Peer(k + 1, k, y.sent))
  {
    hide CommitUpTo, TermIn;
    var a := n.(matchIndex := n.matchIndex[q := k], nextIndex := n.nextIndex[q := k + 1]);
    CommitsTo(a, p, q, k);
  }

  // -------------------------------------------------------------------------- snapshots

  /** To a peer that has been sent everything, a heartbeat carries the commit index. */
  lemma SendIdle(n: Node, p: Id, x: Peer)
    requires LogOk(n.log) && Sees(n, p, x) && x.next >= 1 && Base(n.log) < x.next <= LastIndex(n.log) + 1 && x.sent == LastIndex(n.log)
    ensures SendAppend(n, p, 0) == Send(n, p, AppendEntries(LastIndex(n.log), LastTermOf(n.log), [], n.commitIndex, 0))
  {
  }

  /** To one the log no longer reaches, it is the snapshot. */
  lemma SendSnapshot(n: Node, p: Id, x: Peer)
    requires LogOk(n.log) && Sees(n, p, x) && 1 <= x.next <= Base(n.log)
    ensures SendAppend(n, p, 0) == Send(n, p, InstallSnapshot(n.snapshot))
  {
  }

  lemma BeatsIdle(n: Node, term: nat, log: seq<Entry>, commit: nat, p: Id, x: Peer, q: Id, y: Peer)
    requires Leads(n, term, log, commit, p, x, q, y) && x.sent == y.sent == LastIndex(log)
    requires Base(log) < x.next <= LastIndex(log) + 1 && Base(log) < y.next <= LastIndex(log) + 1
    ensures var r := AfterHeartbeat(n);
            && LogOk(r.log) && r.id == n.id && Leads(Advance(r), term, log, commit, p, x, q, y)
            && Message(n.id, p, term, AppendEntries(LastIndex(log), LastTermOf(log), [], commit, 0)) in r.msgs
  {
    hide SendAppend, SendAppends;
    SentBoth(n, p, q, 0);
    SendIdle(n, p, x);
    SendIdle(SendAppend(n, p, 0), q, y);
    assert AfterHeartbeat(n).msgs[0] == Message(n.id, p, term, AppendEntries(LastIndex(log), LastTermOf(log), [], commit, 0));
  }

  lemma BeatsSnapshot(n: Node, term: nat, log: seq<Entry>, commit: nat, p: Id, x: Peer, q: Id, y: Peer)
    requires Leads(n, term, log, commit, p, x, q, y) && x.sent == LastIndex(log)
    requires Base(log) < x.next <= LastIndex(log) + 1 && 1 <= y.next <= Base(log)
    ensures var r := AfterHeartbeat(n);
            && LogOk(r.log) && r.id == n.id && Leads(Advance(r), term, log, commit, p, x, q, y)
            && Message(n.id, q, term, InstallSnapshot(n.snapshot)) in r.msgs
  {
    hide SendAppend, SendAppends;
    SentBoth(n, p, q, 0);
    SendIdle(n, p, x);
    SendSnapshot(SendAppend(n, p, 0), q, y);
    assert AfterHeartbeat(n).msgs[1] == Message(n.id, q, term, InstallSnapshot(n.snapshot));
  }

  /** A follower that has all the leader has learns the commit index. */
  lemma Learns(n: Node, id: Id, term: nat, vote: Id, log: seq<Entry>, commit: nat, m: Message, c: nat)
    requires Follows(n, id, term, vote, log, commit) && m.term == term
    requires m.body == AppendEntries(LastIndex(log), LastTermOf(log), [], c, 0) && commit < c <= LastIndex(log)
    ensures EntriesOk(m.body.prevIndex, m.body.entries) && AfterAppend(n, m).Some?
    ensures var r := AfterAppend(n, m).value; LogOk(r.log) && Follows(Advance(r), id, term, vote, log, c)
  {
    hide AgreeLen;
  }

  /** A follower drops what it holds past a snapshot. */
  lemma Installs(n: Node, id: Id, term: nat, vote: Id, log: seq<Entry>, commit: nat, m: Message)
    requires Follows(n, id, term, vote, log, commit) && m.term == term && m.body.InstallSnapshot?
    requires m.body.snap.lastIndex > Base(log) && m.body.snap.lastIndex > commit
    ensures var r := AfterInstall(n, m);
            && LogOk(r.log) && Follows(Advance(r), id, term, vote, [Entry(m.body.snap.lastTerm, m.body.snap.lastIndex, [])], m.body.snap.lastIndex)
            && Advance(r).peers == n.peers
  {
  }
}

/**
 * A cluster of three in which a snapshot, sent before and delivered after the entries
 * it does not cover, undoes an acknowledged entry; and one in which an old
 * AppendEntries reaches a node that has compacted past it.
 */
module RaftLosses {
  import opened Bytes
  import opened RaftTypes
  import opened RaftCore
  import opened RaftNode
  import opened RaftCluster
  import opened RaftSteps
  import opened RaftRuns
  import opened RaftPolls
  import opened RaftSafety
  import opened RaftProgress
  import opened RaftScript

  function ThreeNodes(): map<Id, Node> { map[1 := NewNode(1, [2, 3]), 2 := NewNode(2, [1, 3]), 3 := NewNode(3, [2, 1])] }

  function EachOf<T>(x: T): (m: map<Id, T>)
    ensures m.Keys == {1, 2, 3} && forall v :: v in m ==> m[v] == x
  {
    map[1 := x, 2 := x, 3 := x]
  }

  function Three(): Cluster {
    Cluster(ThreeNodes(), EachOf(BlankDisk), {}, EachOf(1),
            Core({1, 2, 3}, EachOf(0), EachOf([]), map[], map[], map[], map[], {}, map[], []))
  }

  lemma ThreeInitial()
    ensures Initial(Three())
  {
    hide Wired, EachOf, ThreeNodes;
    ThreeWired();
  }

  lemma ThreeWired()
    ensures ThreeNodes().Keys == {1, 2, 3}
    ensures forall v :: v in ThreeNodes() ==> ThreeNodes()[v] == NewNode(v, ThreeNodes()[v].peers) && Wired({1, 2, 3}, ThreeNodes()[v], v)
  {
    hide Wired;
    WiredTo(NewNode(1, [2, 3]), 1, 2, 3);
    WiredTo(NewNode(2, [1, 3]), 2, 1, 3);
    WiredTo(NewNode(3, [2, 1]), 3, 2, 1);
  }

  lemma WiredTo(n: Node, v: Id, p: Id, q: Id)
    requires n.id == v && n.peers == [p, q] && {v, p, q} == {1, 2, 3} && v != p && v != q && p != q
    ensures Wired({1, 2, 3}, n, v)
  {
    forall u: Id
      ensures u in {1, 2, 3} <==> u == v || u in n.peers
    {
      assert u in {1, 2, 3} <==> u in {v, p, q};
    }
  }

  /** Some run ends in s; an orderly one, if asked for. */
  ghost predicate Reached(s: Cluster, orderly: bool) {
    exists states, actions :: Ends(states, actions, s, orderly)
  }

  ghost predicate Ends(states: seq<Cluster>, actions: seq<Action>, s: Cluster, orderly: bool) {
    PossibleRun(states, actions) && states[|actions|] == s && (orderly ==> Run(states, actions))
  }

  lemma Starts()
    ensures Reached(Three(), true)
  {
    hide Initial, Possible, After;
    ThreeInitial();
    assert Ends([Three()], [], Three(), true);
  }

  lemma Goes(s: Cluster, a: Action, orderly: bool)
    requires Reached(s, orderly) && Possible(s, a) && (orderly ==> Orderly(s, a))
    ensures Reached(After(s, a), orderly)
  {
    hide Initial, Possible, After, Orderly;
    var states, actions :| Ends(states, actions, s, orderly);
    var t := After(s, a);
    forall i | 0 <= i < |actions + [a]|
      ensures Possible((states + [t])[i], (actions + [a])[i]) && (states + [t])[i + 1] == After((states + [t])[i], (actions + [a])[i])
    {
      if i < |actions| { PossibleStep(states, actions, i); }
    }
    if orderly { RunLonger(states, actions, a); }
    assert Ends(states + [t], actions + [a], t, orderly);
  }

  lemma ReachedPolled(s: Cluster, orderly: bool)
    requires Reached(s, orderly)
    ensures Polled(s) && Formed(s)
  {
    hide PossibleRun, Run, Polled, Formed;
    var states, actions :| Ends(states, actions, s, orderly);
    PossibleStart(states, actions);
    RunPolled(states, actions, |actions|);
    PolledFormed(s);
  }

  ghost predicate Left(s: Cluster, v: Id, r: Node, t: Cluster) {
    LogOk(r.log) && t.nodes == s.nodes[v := Advance(r)] && s.net <= t.net && forall m :: m in r.msgs ==> m in t.net
  }

  /** One handler, at one node. */
  lemma Acts(s: Cluster, a: Action, r: Node, orderly: bool) returns (t: Cluster)
    requires Reached(s, orderly) && a.v in s.nodes && LogOk(s.nodes[a.v].log) && Persists(a) && !a.Read?
    requires a.Deliver? ==> a.m in s.net && a.m.to == a.v && (a.m.body.AppendEntries? ==> EntriesOk(a.m.body.prevIndex, a.m.body.entries))
    requires orderly && a.Deliver? ==> !a.m.body.InstallSnapshot?
    requires Handled(s.nodes[a.v], a, 0) == Some(r)
    ensures Reached(t, orderly) && Left(s, a.v, r, t)
  {
    hide Reached, Polled, Formed, Handled, History, Possible, Orderly, After;
    ReachedPolled(s, orderly);
    HandledLogOk(s.nodes[a.v], a, 0);
    PossibleNow(s, a);
    t := After(s, a);
    HandledLeaves(s, a, r);
    Goes(s, a, orderly);
  }

  lemma HandledLeaves(s: Cluster, a: Action, r: Node)
    requires Possible(s, a) && Persists(a) && !a.Read? && Handled(s.nodes[a.v], a, 0) == Some(r) && LogOk(r.log)
    ensures Left(s, a.v, r, After(s, a))
  {
    hide Formed, AfterStep, BecomePreCandidate, AfterHeartbeat, AfterPropose, History;
    assert HandledAt(s, a) == Some(r);
    assert After(s, a) == Done(s, a, r);
  }

  lemma PossibleNow(s: Cluster, a: Action)
    requires Formed(s) && a.v in s.nodes && !a.Crash? && (a.Deliver? ==> a.m in s.net && a.m.to == a.v)
    ensures Possible(s, a) && ((a.Deliver? ==> !a.m.body.InstallSnapshot?) ==> Orderly(s, a))
  {
    hide Formed;
  }

  lemma Compacts(s: Cluster, v: Id, index: nat, data: Bytes, orderly: bool) returns (t: Cluster)
    requires Reached(s, orderly) && v in s.nodes && LogOk(s.nodes[v].log) && Base(s.nodes[v].log) < index <= s.nodes[v].commitIndex
    requires index <= LastIndex(s.nodes[v].log)
    ensures Reached(t, orderly) && t.nodes == s.nodes[v := AfterCompact(s.nodes[v], index, data)] && s.net <= t.net
  {
    hide Reached, Polled, Formed, AfterCompact;
    ReachedPolled(s, orderly);
    PossibleNow(s, Compact(v, index, data));
    t := After(s, Compact(v, index, data));
    Goes(s, Compact(v, index, data), orderly);
  }

  // ------------------------------------------------------------------------ an election

  /** Node id times out, asks p, stands, and has p's vote. */
  lemma Elects(s: Cluster, id: Id, p: Id, q: Id, term: nat, vote: Id, log: seq<Entry>, commit: nat,
               pterm: nat, pvote: Id, plog: seq<Entry>, pcommit: nat, orderly: bool) returns (t: Cluster)
    requires Reached(s, orderly) && id in s.nodes && p in s.nodes && id != p && id != q && p != q
    requires Follows(s.nodes[id], id, term, vote, log, commit) && s.nodes[id].peers == [p, q]
    requires Follows(s.nodes[p], p, pterm, pvote, plog, pcommit) && pterm <= term
    requires LastTermOf(log) == LastTermOf(plog) && LastIndex(log) >= LastIndex(plog)
    ensures Reached(t, orderly) && t.nodes.Keys == s.nodes.Keys && s.net <= t.net
    ensures forall u :: u in s.nodes && u != id && u != p ==> t.nodes[u] == s.nodes[u]
    ensures var unknown := Peer(LastIndex(log) + 1, 0, LastIndex(log));
            Leads(t.nodes[id], term + 1, log, commit, p, unknown, q, unknown) && t.nodes[id].id == id
    ensures Follows(t.nodes[p], p, term + 1, id, plog, pcommit)
  {
    hide Reached, Follows, Asks, Stands, Leads;
    var t2, stand := Stood(s, id, p, q, term, vote, log, commit, pterm, pvote, plog, pcommit, orderly);
    FollowerLog(t2.nodes[p], p, pterm, pvote, plog, pcommit);
    VoteGranted(t2.nodes[p], p, pterm, pvote, plog, pcommit, stand);
    var t3 := Acts(t2, Deliver(p, stand), AfterRequestVote(t2.nodes[p], stand), orderly);
    var voted := Message(p, id, term + 1, RequestVoteResponse(true));
    StandsLog(t3.nodes[id], id, term + 1, log, commit, p, q);
    Wins(t3.nodes[id], id, term + 1, log, commit, p, q, voted);
    t := Acts(t3, Deliver(id, voted), AfterRequestVoteResponse(t3.nodes[id], voted), orderly);
  }

  lemma FollowerLog(n: Node, id: Id, term: nat, vote: Id, log: seq<Entry>, commit: nat)
    requires Follows(n, id, term, vote, log, commit)
    ensures n.id == id && n.role == Follower && n.log == log && LogOk(n.log) && n.currentTerm == term && n.commitIndex == commit
  {
  }

  lemma AsksLog(n: Node, id: Id, term: nat, log: seq<Entry>, commit: nat, p: Id, q: Id)
    requires Asks(n, id, term, log, commit, p, q)
    ensures n.id == id && n.log == log && LogOk(n.log)
  {
  }

  lemma StandsLog(n: Node, id: Id, term: nat, log: seq<Entry>, commit: nat, p: Id, q: Id)
    requires Stands(n, id, term, log, commit, p, q)
    ensures n.id == id && n.log == log && LogOk(n.log)
  {
  }

  lemma LeaderLog(n: Node, term: nat, log: seq<Entry>, commit: nat, p: Id, x: Peer, q: Id, y: Peer)
    requires Leads(n, term, log, commit, p, x, q, y)
    ensures n.log == log && LogOk(n.log) && n.role == Leader && n.currentTerm == term && n.commitIndex == commit
  {
  }

  lemma Stood(s: Cluster, id: Id, p: Id, q: Id, term: nat, vote: Id, log: seq<Entry>, commit: nat,
              pterm: nat, pvote: Id, plog: seq<Entry>, pcommit: nat, orderly: bool) returns (t: Cluster, stand: Message)
    requires Reached(s, orderly) && id in s.nodes && p in s.nodes && id != p && id != q && p != q
    requires Follows(s.nodes[id], id, term, vote, log, commit) && s.nodes[id].peers == [p, q]
    requires Follows(s.nodes[p], p, pterm, pvote, plog, pcommit) && pterm <= term
    requires LastTermOf(log) == LastTermOf(plog) && LastIndex(log) >= LastIndex(plog)
    ensures Reached(t, orderly) && t.nodes.Keys == s.nodes.Keys && s.net <= t.net
    ensures forall u :: u in s.nodes && u != id && u != p ==> t.nodes[u] == s.nodes[u]
    ensures Stands(t.nodes[id], id, term + 1, log, commit, p, q) && Follows(t.nodes[p], p, pterm, pvote, plog, pcommit)
    ensures stand in t.net && stand == Message(id, p, term + 1, RequestVote(LastIndex(log), LastTermOf(log)))
  {
    hide Reached, Follows, Asks, Stands;
    FollowerLog(s.nodes[id], id, term, vote, log, commit);
    FollowerLog(s.nodes[p], p, pterm, pvote, plog, pcommit);
    TimesOut(s.nodes[id], id, term, vote, log, commit, p, q);
    var t1 := Acts(s, Timeout(id), BecomePreCandidate(s.nodes[id]), orderly);
    var ask := Message(id, p, term, PreVote(LastIndex(log), LastTermOf(log)));
    PreVoteGranted(t1.nodes[p], p, pterm, pvote, plog, pcommit, ask);
    var t2 := Acts(t1, Deliver(p, ask), AfterPreVote(t1.nodes[p], ask), orderly);
    var yes := Message(p, id, pterm, PreVoteResponse(true));
    AsksLog(t2.nodes[id], id, term, log, commit, p, q);
    StandsUp(t2.nodes[id], id, term, log, commit, p, q, yes);
    t := Acts(t2, Deliver(id, yes), AfterPreVoteResponse(t2.nodes[id], yes), orderly);
    stand := Message(id, p, term + 1, RequestVote(LastIndex(log), LastTermOf(log)));
  }

  // ------------------------------------------------------------- two entries on their way

  const Mark := Entry(0, 0, [])
  const First := Entry(1, 1, [])
  const Second := Entry(1, 2, [])

  function FirstTo(p: Id): Message { Message(1, p, 1, AppendEntries(0, 0, [First], 0, 0)) }
  function SecondTo(p: Id): Message { Message(1, p, 1, AppendEntries(1, 1, [Second], 0, 0)) }

  /** Node 1 leads term 1 and has sent two entries to both others. */
  ghost predicate Opened(s: Cluster) {
    && Reached(s, true) && s.nodes.Keys == {1, 2, 3}
    && Leads(s.nodes[1], 1, [Mark, First, Second], 0, 2, Peer(1, 0, 2), 3, Peer(1, 0, 2)) && s.nodes[1].id == 1
    && Follows(s.nodes[2], 2, 1, 1, [Mark], 0)
    && Follows(s.nodes[3], 3, 0, 0, [Mark], 0) && s.nodes[3].peers == [2, 1]
    && FirstTo(2) in s.net && FirstTo(3) in s.net && SecondTo(2) in s.net && SecondTo(3) in s.net
  }

  lemma Begins() returns (t: Cluster)
    ensures t.nodes.Keys == {1, 2, 3}
    ensures Leads(t.nodes[1], 1, [Mark], 0, 2, Peer(1, 0, 0), 3, Peer(1, 0, 0)) && t.nodes[1].id == 1
    ensures Follows(t.nodes[2], 2, 1, 1, [Mark], 0)
    ensures Follows(t.nodes[3], 3, 0, 0, [Mark], 0) && t.nodes[3].peers == [2, 1]
    ensures Reached(t, true)
  {
    hide Reached, Leads, Follows;
    Starts();
    NewFollows(1, [2, 3]);
    NewFollows(2, [1, 3]);
    NewFollows(3, [2, 1]);
    assert Three().nodes.Keys == {1, 2, 3};
    t := Elects(Three(), 1, 2, 3, 0, 0, [Mark], 0, 0, 0, [Mark], 0, true);
  }

  lemma NewFollows(v: Id, peers: seq<Id>)
    ensures Follows(NewNode(v, peers), v, 0, 0, [Mark], 0)
  {
  }

  lemma Opens() returns (t: Cluster)
    ensures Opened(t)
  {
    hide Reached, Leads, Follows, AfterPropose;
    var x, y := Peer(1, 0, 0), Peer(1, 0, 1);
    var s := Begins();
    LeaderLog(s.nodes[1], 1, [Mark], 0, 2, x, 3, x);
    Proposes(s.nodes[1], 1, [Mark], 0, 2, x, 3, x, []);
    assert [Mark] + [First] == [Mark, First];
    var t1 := Acts(s, Propose(1, [[]]), AfterPropose(s.nodes[1], [[]]), true);
    LeaderLog(t1.nodes[1], 1, [Mark, First], 0, 2, y, 3, y);
    Proposes(t1.nodes[1], 1, [Mark, First], 0, 2, y, 3, y, []);
    assert [Mark, First] + [Second] == [Mark, First, Second];
    t := Acts(t1, Propose(1, [[]]), AfterPropose(t1.nodes[1], [[]]), true);
  }

  /** Node v takes an entry from node 1. */
  lemma Delivers(s: Cluster, v: Id, term: nat, vote: Id, log: seq<Entry>, commit: nat, m: Message, e: Entry, c: nat, orderly: bool) returns (t: Cluster)
    requires v in s.nodes && Follows(s.nodes[v], v, term, vote, log, commit) && m in s.net && m.to == v && m.term >= term
    requires e.index == LastIndex(log) + 1 && m.body == AppendEntries(LastIndex(log), LastTermOf(log), [e], c, 0)
    requires Reached(s, orderly)
    ensures v in t.nodes && t.nodes == s.nodes[v := t.nodes[v]] && s.net <= t.net && t.nodes[v].peers == s.nodes[v].peers
    ensures Follows(t.nodes[v], v, m.term, if m.term > term then 0 else vote, log + [e], if c > commit then Min(c, e.index) else commit)
    ensures Message(v, m.from, m.term, AppendEntriesResponse(true, e.index, 0)) in t.net
    ensures Reached(t, orderly)
  {
    hide Reached, Follows, AfterAppend;
    FollowerLog(s.nodes[v], v, term, vote, log, commit);
    Takes(s.nodes[v], v, term, vote, log, commit, m, e, c);
    t := Acts(s, Deliver(v, m), AfterAppend(s.nodes[v], m).value, orderly);
  }

  // -------------------------------------------- a snapshot overtaken by what it does not cover

  /** Node 2 has the first entry; node 1 commits it, compacts it, and sends node 3 the snapshot. */
  lemma Compacted() returns (t: Cluster)
    ensures Reached(t, true) && t.nodes.Keys == {1, 2, 3}
    ensures Leads(t.nodes[1], 1, [First, Second], 1, 2, Peer(2, 1, 2), 3, Peer(1, 0, 2)) && t.nodes[1].id == 1
    ensures Follows(t.nodes[2], 2, 1, 1, [Mark, First], 0)
    ensures Follows(t.nodes[3], 3, 0, 0, [Mark], 0) && t.nodes[3].peers == [2, 1]
    ensures FirstTo(3) in t.net && SecondTo(3) in t.net && Message(1, 3, 1, InstallSnapshot(Snapshot(1, 1, []))) in t.net
  {
    hide Reached, Follows, AfterCompact;
    var x, y := Peer(1, 0, 2), Peer(1, 0, 2);
    var s := Opens();
    var t1 := Delivers(s, 2, 1, 1, [Mark], 0, FirstTo(2), First, 0, true);
    assert [Mark] + [First] == [Mark, First];
    var ack := Message(2, 1, 1, AppendEntriesResponse(true, 1, 0));
    Counts(t1.nodes[1], 1, [Mark, First, Second], 0, 2, x, 3, y, 1, ack);
    var t2 := Acts(t1, Deliver(1, ack), AfterAppendResponse(t1.nodes[1], ack), true);
    var t3 := Compacts(t2, 1, 1, [], true);
    CompactsFirst(t2.nodes[1]);
    BeatsSnapshot(t3.nodes[1], 1, [First, Second], 1, 2, Peer(2, 1, 2), 3, y);
    t := Acts(t3, Heartbeat(1), AfterHeartbeat(t3.nodes[1]), true);
  }

  lemma CompactsFirst(n: Node)
    requires Leads(n, 1, [Mark, First, Second], 1, 2, Peer(2, 1, 2), 3, Peer(1, 0, 2))
    ensures var r := AfterCompact(n, 1, []);
            Leads(r, 1, [First, Second], 1, 2, Peer(2, 1, 2), 3, Peer(1, 0, 2)) && r.snapshot == Snapshot(1, 1, []) && r.id == n.id
  {
    assert [Entry(1, 1, [])] + [Mark, First, Second][2..] == [First, Second];
  }

  /** Node 3 takes both entries, and node 1 commits the second on its word. */
  lemma Acknowledged() returns (t: Cluster)
    ensures Reached(t, true) && t.nodes.Keys == {1, 2, 3}
    ensures Leads(t.nodes[1], 1, [First, Second], 2, 2, Peer(2, 1, 2), 3, Peer(3, 2, 2))
    ensures Follows(t.nodes[2], 2, 1, 1, [Mark, First], 0)
    ensures Follows(t.nodes[3], 3, 1, 0, [Mark, First, Second], 0) && t.nodes[3].peers == [2, 1]
    ensures Message(1, 3, 1, InstallSnapshot(Snapshot(1, 1, []))) in t.net
  {
    hide Reached, Follows, Leads, AfterAppendResponse;
    var s := Compacted();
    var t1 := Delivers(s, 3, 0, 0, [Mark], 0, FirstTo(3), First, 0, true);
    assert [Mark] + [First] == [Mark, First] && [Mark, First] + [Second] == [Mark, First, Second];
    var t2 := Delivers(t1, 3, 1, 0, [Mark, First], 0, SecondTo(3), Second, 0, true);
    var ack := Message(3, 1, 1, AppendEntriesResponse(true, 2, 0));
    LeaderLog(t2.nodes[1], 1, [First, Second], 1, 2, Peer(2, 1, 2), 3, Peer(1, 0, 2));
    CountsOther(t2.nodes[1], 1, [First, Second], 1, 2, Peer(2, 1, 2), 3, Peer(1, 0, 2), 2, ack);
    t := Acts(t2, Deliver(1, ack), AfterAppendResponse(t2.nodes[1], ack), true);
  }

  /** Then the snapshot arrives. */
  lemma Overtaken() returns (t: Cluster)
    ensures Reached(t, false) && t.nodes.Keys == {1, 2, 3}
    ensures Leads(t.nodes[1], 1, [First, Second], 2, 2, Peer(2, 1, 2), 3, Peer(3, 2, 2))
    ensures Follows(t.nodes[2], 2, 1, 1, [Mark, First], 0)
    ensures Follows(t.nodes[3], 3, 1, 0, [First], 1) && t.nodes[3].peers == [2, 1]
  {
    hide Reached, Follows, Leads, AfterInstall;
    var s := Acknowledged();
    Relax(s);
    var late := Message(1, 3, 1, InstallSnapshot(Snapshot(1, 1, [])));
    FollowerLog(s.nodes[3], 3, 1, 0, [Mark, First, Second], 0);
    Installs(s.nodes[3], 3, 1, 0, [Mark, First, Second], 0, late);
    t := Acts(s, Deliver(3, late), AfterInstall(s.nodes[3], late), false);
  }

  lemma Relax(s: Cluster)
    requires Reached(s, true)
    ensures Reached(s, false)
  {
    hide PossibleRun, Run;
    var states, actions :| Ends(states, actions, s, true);
    assert Ends(states, actions, s, false);
  }

  /** Node 3, without the committed entry, wins term 2. */
  lemma Replaced() returns (t: Cluster)
    ensures Reached(t, false) && t.nodes.Keys == {1, 2, 3}
    ensures Leads(t.nodes[1], 1, [First, Second], 2, 2, Peer(2, 1, 2), 3, Peer(3, 2, 2))
    ensures Follows(t.nodes[2], 2, 2, 3, [Mark, First], 0)
    ensures Leads(t.nodes[3], 2, [First], 1, 2, Peer(2, 0, 1), 1, Peer(2, 0, 1)) && t.nodes[3].id == 3
  {
    hide Reached, Leads;
    var s := Overtaken();
    t := Elects(s, 3, 2, 1, 1, 0, [First], 1, 1, 1, [Mark, First], 0, false);
  }

  /**
   * Leader completeness fails without orderly installation: in this run node 1 has committed index 2
   * in term 1, and the leader of term 2 has no such index.
   */
  lemma CommittedThenLost() returns (states: seq<Cluster>, actions: seq<Action>)
    ensures PossibleRun(states, actions) && 1 in states[|actions|].nodes && 3 in states[|actions|].nodes
    ensures var n, l := states[|actions|].nodes[1], states[|actions|].nodes[3];
            && n.commitIndex == 2 && l.role == Leader && n.currentTerm < l.currentTerm && LogOk(l.log) && LastIndex(l.log) == 1
  {
    hide PossibleRun, Run;
    var s := Replaced();
    states, actions :| Ends(states, actions, s, false);
  }

  /** And so does state-machine safety: the new leader commits another entry at index 2. */
  lemma CommittedTwice() returns (states: seq<Cluster>, actions: seq<Action>)
    ensures PossibleRun(states, actions) && 1 in states[|actions|].nodes && 3 in states[|actions|].nodes
    ensures var n, l := states[|actions|].nodes[1], states[|actions|].nodes[3];
            HasCommitted(n, 2) && HasCommitted(l, 2) && EntryAt(n, 2) != EntryAt(l, 2)
  {
    hide PossibleRun, Run, Reached;
    var s := Recommitted();
    assert s.nodes[1].log == [First, Second] && s.nodes[3].log == [First, Entry(2, 2, [])];
    states, actions := RunTo(s, false);
  }

  lemma RunTo(s: Cluster, orderly: bool) returns (states: seq<Cluster>, actions: seq<Action>)
    requires Reached(s, orderly)
    ensures Ends(states, actions, s, orderly)
  {
    hide PossibleRun, Run;
    states, actions :| Ends(states, actions, s, orderly);
  }

  lemma Recommitted() returns (t: Cluster)
    ensures Reached(t, false) && t.nodes.Keys == {1, 2, 3}
    ensures Leads(t.nodes[1], 1, [First, Second], 2, 2, Peer(2, 1, 2), 3, Peer(3, 2, 2))
    ensures Leads(t.nodes[3], 2, [First, Entry(2, 2, [])], 2, 2, Peer(3, 2, 2), 1, Peer(2, 0, 2))
  {
    hide Reached, Leads, Follows, AfterPropose, AfterAppendResponse;
    var s := Replaced();
    var x, e := Peer(2, 0, 1), Entry(2, 2, []);
    LeaderLog(s.nodes[3], 2, [First], 1, 2, x, 1, x);
    Proposes(s.nodes[3], 2, [First], 1, 2, x, 1, x, []);
    assert [First] + [e] == [First, e];
    var t1 := Acts(s, Propose(3, [[]]), AfterPropose(s.nodes[3], [[]]), false);
    var m := Message(3, 2, 2, AppendEntries(1, 1, [e], 1, 0));
    var t2 := Delivers(t1, 2, 2, 3, [Mark, First], 0, m, e, 1, false);
    var ack := Message(2, 3, 2, AppendEntriesResponse(true, 2, 0));
    var y := Peer(2, 0, 2);
    LeaderLog(t2.nodes[3], 2, [First, e], 1, 2, y, 1, y);
    Counts(t2.nodes[3], 2, [First, e], 1, 2, y, 1, y, 2, ack);
    t := Acts(t2, Deliver(3, ack), AfterAppendResponse(t2.nodes[3], ack), false);
  }

  // ------------------------------------------- an old AppendEntries below the snapshot boundary

  /** Node 2 takes both entries, and node 1 commits them. */
  lemma Replicated() returns (t: Cluster)
    ensures Reached(t, true) && t.nodes.Keys == {1, 2, 3} && FirstTo(2) in t.net && t.nodes[1].id == 1
    ensures Leads(t.nodes[1], 1, [Mark, First, Second], 2, 2, Peer(3, 2, 2), 3, Peer(1, 0, 2))
    ensures Follows(t.nodes[2], 2, 1, 1, [Mark, First, Second], 0)
  {
    hide Reached, Follows, Leads, AfterAppendResponse;
    var x := Peer(1, 0, 2);
    var s := Opens();
    var t1 := Delivers(s, 2, 1, 1, [Mark], 0, FirstTo(2), First, 0, true);
    assert [Mark] + [First] == [Mark, First] && [Mark, First] + [Second] == [Mark, First, Second];
    var t2 := Delivers(t1, 2, 1, 1, [Mark, First], 0, SecondTo(2), Second, 0, true);
    var ack := Message(2, 1, 1, AppendEntriesResponse(true, 2, 0));
    LeaderLog(t2.nodes[1], 1, [Mark, First, Second], 0, 2, x, 3, x);
    Counts(t2.nodes[1], 1, [Mark, First, Second], 0, 2, x, 3, x, 2, ack);
    t := Acts(t2, Deliver(1, ack), AfterAppendResponse(t2.nodes[1], ack), true);
  }

  /** Node 2 learns of the commit and compacts both entries. */
  lemma CompactedBoth() returns (t: Cluster)
    ensures Reached(t, true) && 2 in t.nodes && FirstTo(2) in t.net
    ensures t.nodes[2].log == [Second] && t.nodes[2].currentTerm == 1 && t.nodes[2].id == 2
  {
    hide Reached, Leads, AfterAppend;
    var s := Replicated();
    var log := [Mark, First, Second];
    LeaderLog(s.nodes[1], 1, log, 2, 2, Peer(3, 2, 2), 3, Peer(1, 0, 2));
    BeatsIdle(s.nodes[1], 1, log, 2, 2, Peer(3, 2, 2), 3, Peer(1, 0, 2));
    var t1 := Acts(s, Heartbeat(1), AfterHeartbeat(s.nodes[1]), true);
    var beat := Message(1, 2, 1, AppendEntries(2, 1, [], 2, 0));
    Learns(t1.nodes[2], 2, 1, 1, log, 0, beat, 2);
    var t2 := Acts(t1, Deliver(2, beat), AfterAppend(t1.nodes[2], beat).value, true);
    t := Compacts(t2, 2, 2, [], true);
    assert [Entry(1, 2, [])] + log[3..] == [Second];
  }

  // ---------------------------------------------------------- two that turn each other down

  lemma Reopens(s: Cluster) returns (t: Cluster)
    requires Reached(s, true) && 1 in s.nodes && LogOk(s.nodes[1].log) && Base(s.nodes[1].log) == 0
    ensures Reached(t, true) && 1 in t.nodes && t.nodes == s.nodes[1 := t.nodes[1]]
    ensures t.nodes[1].id == 1 && t.nodes[1].role == Follower && t.nodes[1].currentTerm == s.nodes[1].currentTerm && t.nodes[1].log == s.nodes[1].log
  {
    hide Reached, Polled, Formed, Possible, After, Orderly, LogOk;
    ReachedPolled(s, true);
    PossibleNow(s, Restart(1));
    t := After(s, Restart(1));
    RestartLeaves(s);
    Goes(s, Restart(1), true);
  }

  lemma RestartLeaves(s: Cluster)
    requires Possible(s, Restart(1)) && Polled(s) && LogOk(s.nodes[1].log) && Base(s.nodes[1].log) == 0
    ensures var t := After(s, Restart(1));
            && 1 in t.nodes && t.nodes == s.nodes[1 := t.nodes[1]]
            && t.nodes[1].id == 1 && t.nodes[1].role == Follower && t.nodes[1].currentTerm == s.nodes[1].currentTerm && t.nodes[1].log == s.nodes[1].log
  {
    hide Polled, NodePolled, Polls, LogOk, Formed;
    PolledNode(s, 1);
    OnDisk(s.nodes[1], s.disk[1]);
  }

  lemma OnDisk(n: Node, d: Durable)
    requires DiskPolled(n, d) && LogOk(n.log) && Base(n.log) == 0
    ensures d == DurableOf(n)
  {
    hide LogOk;
  }

  /**
   * A run after which two of three nodes turn each other down: node 1, with the longest
   * log, was down while node 3 won term 2 with node 2's vote.  handlePreVoteResponse learns no term, so
   * node 1 goes on asking about term 2, in which node 2 has voted, and node 2's log is too short for node 1.
   */
  lemma Stalled() returns (states: seq<Cluster>, actions: seq<Action>)
    ensures Run(states, actions) && {1, 2} <= states[|actions|].nodes.Keys && states[|actions|].core.ids == {1, 2, 3}
    ensures var a, b := states[|actions|].nodes[1], states[|actions|].nodes[2];
            && LogOk(a.log) && LogOk(b.log) && a.role == b.role == Follower && !Willing(a, b) && !Willing(b, a)
            && Canvassed(a, [b]).role != Candidate && Canvassed(b, [a]).role != Candidate
  {
    hide PossibleRun, Run, Reached, Canvassed, Polled, Willing;
    var t := Deposed();
    states, actions := RunTo(t, true);
    ReachedPolled(t, true);
    WiredIn(t, 1);
    WiredIn(t, 2);
    TwoStall(t.nodes[1], t.nodes[2]);
  }

  lemma Deposed() returns (t: Cluster)
    ensures Reached(t, true) && t.nodes.Keys == {1, 2, 3}
    ensures var a, b := t.nodes[1], t.nodes[2]; LogOk(a.log) && LogOk(b.log) && a.role == b.role == Follower && !Willing(a, b) && !Willing(b, a)
  {
    hide Reached, Leads;
    var log := [Mark, First];
    var s := Opens();
    var t1 := Delivers(s, 2, 1, 1, [Mark], 0, FirstTo(2), First, 0, true);
    var t2 := Delivers(t1, 3, 0, 0, [Mark], 0, FirstTo(3), First, 0, true);
    assert [Mark] + [First] == log;
    var t3 := Elects(t2, 3, 2, 1, 1, 0, log, 0, 1, 1, log, 0, true);
    LeaderLog(t3.nodes[1], 1, [Mark, First, Second], 0, 2, Peer(1, 0, 2), 3, Peer(1, 0, 2));
    t := Reopens(t3);
    assert t.nodes.Keys == t3.nodes.Keys;
  }

  lemma WiredIn(s: Cluster, v: Id)
    requires Polled(s) && v in s.nodes
    ensures s.core.ids == s.nodes.Keys && Wired(s.core.ids, s.nodes[v], v)
  {
    hide Polls, VoteView, DiskPolled;
    PolledNode(s, v);
  }

  lemma TwoStall(a: Node, b: Node)
    requires Wired({1, 2, 3}, a, 1) && Wired({1, 2, 3}, b, 2) && LogOk(a.log) && LogOk(b.log) && !Willing(a, b) && !Willing(b, a)
    ensures Canvassed(a, [b]).role != Candidate && Canvassed(b, [a]).role != Candidate
  {
    hide Canvassed, Willing, LogOk;
    assert 2 in a.peers && 1 in b.peers;
    StandsExactly({1, 2, 3}, a, 1, [b]);
    StandsExactly({1, 2, 3}, b, 2, [a]);
    assert WillingIds(a, [b]) == {} && WillingIds(b, [a]) == {};
  }

  /** The first AppendEntries, delivered once more, panics; this run is an orderly one. */
  lemma DuplicatePanics() returns (states: seq<Cluster>, actions: seq<Action>, m: Message)
    ensures Run(states, actions) && 2 in states[|actions|].nodes && m in states[|actions|].net && m.to == 2 && m.body.AppendEntries?
    ensures LogOk(states[|actions|].nodes[2].log) && EntriesOk(m.body.prevIndex, m.body.entries)
    ensures AfterAppend(states[|actions|].nodes[2], m).None?
  {
    hide PossibleRun, Run, Reached;
    var s := CompactedBoth();
    states, actions := RunTo(s, true);
    m := FirstTo(2);
    PanicsOn(s.nodes[2], m);
  }

  lemma PanicsOn(n: Node, m: Message)
    requires n.log == [Second] && n.currentTerm == 1 && m == FirstTo(2)
    ensures LogOk(n.log) && EntriesOk(m.body.prevIndex, m.body.entries) && AfterAppend(n, m).None?
  {
    assert !HasTerm(n.log, 1 + 0, [First][0].term);
  }
}
