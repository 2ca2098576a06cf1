/**
 * What the protocol is for, beside being safe: a majority is enough to elect a leader, to commit an entry
 * and to confirm a read, and nothing short of one is.
 */
module RaftProgress {
  import opened RaftTypes
  import opened Quorums
  import opened RaftNode
  import opened RaftCluster
  import opened RaftSteps
  import opened RaftElections

  /** hasMajorityCount is a majority of the cluster, no more and no less. */
  lemma MajorityExact(ids: set<Id>, n: Node, v: Id, q: set<Id>)
    requires Wired(ids, n, v) && q <= ids
    ensures HasMajority(n, |q|) <==> 2 * |q| > |ids|
    ensures HasMajority(n, |q|) <==> IsQuorum(ids, q)
  {
    PeersSize(ids, n, v);
  }

  lemma MoreVotes(n: Node, a: set<Id>, b: set<Id>)
    requires a <= b && HasMajority(n, |a|)
    ensures HasMajority(n, |b|)
  {
    SubsetSize(a, b);
  }

  // ------------------------------------------------------------------- who would vote

  /** One log is at least as up to date as another: a later last term, or the same one and no shorter. */
  predicate AtLeast(a: seq<Entry>, b: seq<Entry>)
    requires LogOk(a) && LogOk(b)
  {
    if LastTermOf(a) == LastTermOf(b) then LastIndex(a) >= LastIndex(b) else LastTermOf(a) > LastTermOf(b)
  }

  /** Node w would vote for c in the term after c's. */
  predicate Willing(w: Node, c: Node)
    requires LogOk(w.log) && LogOk(c.log)
  {
    && AtLeast(c.log, w.log)
    && if c.currentTerm + 1 == w.currentTerm then w.votedFor in {0, c.id} else c.currentTerm + 1 > w.currentTerm
  }

  function PreVoteFor(c: Node, p: Id): Message
    requires LogOk(c.log)
  {
    Message(c.id, p, c.currentTerm, PreVote(LastIndex(c.log), LastTermOf(c.log)))
  }

  function VoteFor(c: Node, p: Id): Message
    requires LogOk(c.log)
  {
    Message(c.id, p, c.currentTerm + 1, RequestVote(LastIndex(c.log), LastTermOf(c.log)))
  }

  /** A pre-vote is answered truthfully, and changes nothing. */
  lemma PreVoteAnswer(w: Node, c: Node)
    requires LogOk(w.log) && LogOk(c.log)
    ensures AfterPreVote(w, PreVoteFor(c, w.id)) == Send(w, c.id, PreVoteResponse(Willing(w, c)))
  {
  }

  /** What a request for a vote does, in one piece. */
  lemma AskedVote(n: Node, m: Message)
    requires LogOk(n.log) && m.body.RequestVote?
    ensures var f := if m.term > n.currentTerm then n.(currentTerm := m.term, votedFor := 0, role := Follower) else n;
            var granted := m.term == f.currentTerm && f.votedFor in {0, m.from} && LogUpToDate(n, m.body.lastIndex, m.body.lastTerm);
            AfterRequestVote(n, m) == Send(if granted then f.(votedFor := m.from) else f, m.from, RequestVoteResponse(granted))
  {
    hide LogOk;
  }

  /** A vote is given exactly by those who would. */
  lemma VoteAnswer(w: Node, c: Node)
    requires LogOk(w.log) && LogOk(c.log)
    ensures var r := AfterRequestVote(w, VoteFor(c, w.id));
            && r.currentTerm == (if c.currentTerm + 1 > w.currentTerm then c.currentTerm + 1 else w.currentTerm)
            && r.msgs == w.msgs + [Message(w.id, c.id, r.currentTerm, RequestVoteResponse(Willing(w, c)))]
            && (Willing(w, c) ==> r.votedFor == c.id) && r.log == w.log
  {
    hide LogOk, AfterRequestVote;
    AskedVote(w, VoteFor(c, w.id));
  }

  /**
   * handlePreVote answers what a real vote at the next term would be, for any message: the node grants the
   * one exactly when it would grant the other.
   */
  lemma PreVoteForetells(n: Node, m: Message)
    requires LogOk(n.log) && m.body.PreVote?
    ensures var vote := Message(m.from, m.to, m.term + 1, RequestVote(m.body.lastIndex, m.body.lastTerm));
            var r := AfterRequestVote(n, vote);
            && r.msgs != [] && r.msgs[|r.msgs| - 1].body.RequestVoteResponse?
            && AfterPreVote(n, m) == Send(n, m.from, PreVoteResponse(r.msgs[|r.msgs| - 1].body.granted))
  {
    hide LogOk, AfterRequestVote, LogUpToDate;
    AskedVote(n, Message(m.from, m.to, m.term + 1, RequestVote(m.body.lastIndex, m.body.lastTerm)));
  }

  /** Of two logs, one is at least as up to date as the other. */
  lemma AtLeastTotal(a: seq<Entry>, b: seq<Entry>, c: seq<Entry>)
    requires LogOk(a) && LogOk(b) && LogOk(c)
    ensures AtLeast(a, b) || AtLeast(b, a)
    ensures AtLeast(a, b) && AtLeast(b, c) ==> AtLeast(a, c)
  {
  }

  /** So some log is up to date for everyone: of any nodes, one is electable as far as logs go. */
  lemma {:induction false} BestLog(ws: seq<Node>) returns (k: nat)
    requires ws != [] && forall i :: 0 <= i < |ws| ==> LogOk(ws[i].log)
    ensures k < |ws| && forall i :: 0 <= i < |ws| ==> AtLeast(ws[k].log, ws[i].log)
    decreases |ws|
  {
    hide AtLeast, LogOk;
    var n := |ws| - 1;
    if n == 0 {
      k := 0;
      AtLeastTotal(ws[0].log, ws[0].log, ws[0].log);
    } else {
      k := BestLog(ws[..n]);
      AtLeastTotal(ws[k].log, ws[n].log, ws[n].log);
      var best := if AtLeast(ws[k].log, ws[n].log) then k else n;
      forall i | 0 <= i < |ws|
        ensures AtLeast(ws[best].log, ws[i].log)
      {
        if i < n {
          assert ws[..n][i] == ws[i] && ws[..n][k] == ws[k];
          AtLeastTotal(ws[n].log, ws[k].log, ws[i].log);
        } else {
          AtLeastTotal(ws[n].log, ws[n].log, ws[n].log);
        }
      }
      k := best;
    }
  }

  // ----------------------------------------------------------------------- what goes out

  /** One message to each, in order. */
  function Letters(n: Node, to: seq<Id>, body: Body): (ms: seq<Message>)
    ensures |ms| == |to| && forall i :: 0 <= i < |to| ==> ms[i] == Message(n.id, to[i], n.currentTerm, body)
  {
    if to == [] then [] else [Message(n.id, to[0], n.currentTerm, body)] + Letters(n, to[1..], body)
  }

  lemma {:induction false} BroadcastOut(n: Node, to: seq<Id>, body: Body)
    ensures Broadcast(n, to, body) == n.(msgs := n.msgs + Letters(n, to, body))
    decreases |to|
  {
    if to != [] {
      var s := Send(n, to[0], body);
      BroadcastOut(s, to[1..], body);
      SameLetters(n, s, to[1..], body);
    }
  }

  lemma SameLetters(n: Node, s: Node, to: seq<Id>, body: Body)
    requires s.id == n.id && s.currentTerm == n.currentTerm
    ensures Letters(s, to, body) == Letters(n, to, body)
  {
    hide Letters;
  }

  /** A node that times out asks every peer, without a new term. */
  lemma PreCandidateOut(c: Node)
    requires LogOk(c.log) && c.peers != []
    ensures var p := BecomePreCandidate(c);
            && p.role == PreCandidate && p.currentTerm == c.currentTerm && p.votedFor == c.votedFor && p.preVotesReceived == {c.id} && p.log == c.log
            && p.peers == c.peers && p.id == c.id && p.msgs == c.msgs + Letters(c, c.peers, PreVote(LastIndex(c.log), LastTermOf(c.log)))
  {
    hide Letters, LogOk;
    var p := c.(role := PreCandidate, leaderId := 0, preVotesReceived := {c.id});
    BroadcastOut(p, c.peers, PreVote(LastIndex(c.log), LastTermOf(c.log)));
    SameLetters(c, p, c.peers, PreVote(LastIndex(c.log), LastTermOf(c.log)));
  }

  /** And once it stands, again, in a new term and with its own vote. */
  lemma CandidateOut(c: Node)
    requires LogOk(c.log) && c.peers != []
    ensures var p := BecomeCandidate(c);
            && p.role == Candidate && p.currentTerm == c.currentTerm + 1 && p.votedFor == c.id && p.votesReceived == {c.id} && p.log == c.log
            && p.peers == c.peers && p.id == c.id && p.msgs == c.msgs + Letters(p, c.peers, RequestVote(LastIndex(c.log), LastTermOf(c.log)))
  {
    hide Letters, LogOk;
    var p := c.(currentTerm := c.currentTerm + 1, role := Candidate, votedFor := c.id, leaderId := 0, votesReceived := {c.id});
    BroadcastOut(p, c.peers, RequestVote(LastIndex(c.log), LastTermOf(c.log)));
    SameLetters(p, BecomeCandidate(c), c.peers, RequestVote(LastIndex(c.log), LastTermOf(c.log)));
  }

  // -------------------------------------------------------------------------- counting

  predicate PreVoteAnswers(ms: seq<Message>) { forall i :: 0 <= i < |ms| ==> ms[i].body.PreVoteResponse? }

  predicate VoteAnswers(ms: seq<Message>, term: nat) { forall i :: 0 <= i < |ms| ==> ms[i].body.RequestVoteResponse? && ms[i].term == term }

  function Granters(ms: seq<Message>): set<Id>
    requires forall i :: 0 <= i < |ms| ==> ms[i].body.PreVoteResponse? || ms[i].body.RequestVoteResponse?
  {
    set i | 0 <= i < |ms| && ms[i].body.granted :: ms[i].from
  }

  lemma GrantersNext(ms: seq<Message>, m: Message)
    requires forall i :: 0 <= i < |ms| ==> ms[i].body.PreVoteResponse? || ms[i].body.RequestVoteResponse?
    requires m.body.PreVoteResponse? || m.body.RequestVoteResponse?
    ensures Granters(ms + [m]) == Granters(ms) + if m.body.granted then {m.from} else {}
  {
    var all := ms + [m];
    forall p: Id
      ensures p in Granters(all) <==> p in Granters(ms) || (m.body.granted && p == m.from)
    {
      if p in Granters(ms) {
        var i :| 0 <= i < |ms| && ms[i].body.granted && ms[i].from == p;
        assert all[i].body.granted && all[i].from == p;
      }
      if m.body.granted { assert all[|ms|].from == m.from; }
    }
  }

  /** A pre-candidate after these answers. */
  function AfterPreVotes(n: Node, ms: seq<Message>): (r: Node)
    requires LogOk(n.log) && PreVoteAnswers(ms)
    ensures r.log == n.log
  {
    if ms == [] then n
    else
      var r := AfterPreVotes(n, ms[..|ms| - 1]);
      AnswerLogs(r, ms[|ms| - 1]);
      AfterPreVoteResponse(r, ms[|ms| - 1])
  }

  /** A candidate after these answers. */
  function AfterVotes(n: Node, ms: seq<Message>): (r: Node)
    requires LogOk(n.log) && VoteAnswers(ms, n.currentTerm)
    ensures r.log == n.log
  {
    if ms == [] then n
    else
      var r := AfterVotes(n, ms[..|ms| - 1]);
      AnswerLogs(r, ms[|ms| - 1]);
      AfterRequestVoteResponse(r, ms[|ms| - 1])
  }

  /** A pre-candidate n with these pre-votes: it stands once they are a majority, and has only counted them before. */
  predicate Surveyed(n: Node, q: set<Id>, r: Node) {
    if HasMajority(n, |q|)
    then r.role == Candidate && r.currentTerm == n.currentTerm + 1 && r.votesReceived == {n.id} && r.peers == n.peers && r.id == n.id
    else r == n.(preVotesReceived := q)
  }

  lemma PreVoteCounted(n: Node, q: set<Id>, r: Node, m: Message)
    requires LogOk(n.log) && LogOk(r.log) && m.body.PreVoteResponse? && n.role == PreCandidate && n.peers != [] && Surveyed(n, q, r)
    ensures Surveyed(n, if m.body.granted then q + {m.from} else q, AfterPreVoteResponse(r, m))
  {
    hide HasMajority, LogOk, BecomeCandidate;
    if m.body.granted {
      if HasMajority(n, |q|) {
        MoreVotes(n, q, q + {m.from});
      } else {
        var c := n.(preVotesReceived := q + {m.from});
        SameMajority(n, c, |q + {m.from}|);
        CandidateOut(c);
      }
    }
  }

  lemma NoPreVotes(n: Node)
    requires LogOk(n.log) && !HasMajority(n, |n.preVotesReceived|)
    ensures Surveyed(n, n.preVotesReceived + Granters([]), AfterPreVotes(n, []))
  {
    hide HasMajority, LogOk;
    NoGranters();
    assert n.preVotesReceived + {} == n.preVotesReceived;
  }

  lemma PreVotesLast(n: Node, ms: seq<Message>)
    requires LogOk(n.log) && PreVoteAnswers(ms) && ms != []
    ensures AfterPreVotes(n, ms) == AfterPreVoteResponse(AfterPreVotes(n, ms[..|ms| - 1]), ms[|ms| - 1])
  {
    hide LogOk, AfterPreVoteResponse;
  }

  lemma {:induction false} PreVotesCounted(n: Node, ms: seq<Message>)
    requires LogOk(n.log) && PreVoteAnswers(ms) && n.role == PreCandidate && n.peers != [] && !HasMajority(n, |n.preVotesReceived|)
    ensures Surveyed(n, n.preVotesReceived + Granters(ms), AfterPreVotes(n, ms))
    decreases |ms|
  {
    hide HasMajority, Granters, LogOk, AfterPreVoteResponse, AfterPreVotes, Surveyed;
    if ms == [] {
      NoPreVotes(n);
    } else {
      var k := |ms| - 1;
      var q := n.preVotesReceived + Granters(ms[..k]);
      PreVotesCounted(n, ms[..k]);
      PreVotesLast(n, ms);
      PreVoteCounted(n, q, AfterPreVotes(n, ms[..k]), ms[k]);
      GrantersLast(n.preVotesReceived, ms);
    }
  }

  lemma GrantersLast(have: set<Id>, ms: seq<Message>)
    requires PreVoteAnswers(ms) && ms != []
    ensures var k, q := |ms| - 1, have + Granters(ms[..|ms| - 1]);
            have + Granters(ms) == if ms[k].body.granted then q + {ms[k].from} else q
  {
    hide Granters;
    var k := |ms| - 1;
    GrantersNext(ms[..k], ms[k]);
    assert ms[..k] + [ms[k]] == ms;
  }

  lemma NoGranters()
    ensures Granters([]) == {}
  {
  }

  lemma SameMajority(n: Node, r: Node, k: nat)
    requires r.peers == n.peers
    ensures HasMajority(r, k) <==> HasMajority(n, k)
  {
  }

  /** A candidate n with these votes: it leads once they are a majority, and has only counted them before. */
  predicate Tallied(n: Node, q: set<Id>, r: Node) {
    if HasMajority(n, |q|) then r.role == Leader && r.currentTerm == n.currentTerm && r.leaderId == n.id else r == n.(votesReceived := q)
  }

  lemma VoteCounted(n: Node, q: set<Id>, r: Node, m: Message)
    requires LogOk(n.log) && LogOk(r.log) && m.body.RequestVoteResponse? && m.term == n.currentTerm && n.role == Candidate && Tallied(n, q, r)
    ensures Tallied(n, if m.body.granted then q + {m.from} else q, AfterRequestVoteResponse(r, m))
  {
    hide HasMajority, LogOk, BecomeLeader;
    if m.body.granted {
      if HasMajority(n, |q|) {
        MoreVotes(n, q, q + {m.from});
      } else {
        var c := n.(votesReceived := q + {m.from});
        SameMajority(n, c, |q + {m.from}|);
        LeaderOut(c);
      }
    }
  }

  lemma NoVotes(n: Node)
    requires LogOk(n.log) && !HasMajority(n, |n.votesReceived|)
    ensures Tallied(n, n.votesReceived + Granters([]), n)
  {
    hide HasMajority, LogOk;
    NoGranters();
    assert n.votesReceived + {} == n.votesReceived;
  }

  lemma {:induction false} VotesCounted(n: Node, ms: seq<Message>)
    requires LogOk(n.log) && VoteAnswers(ms, n.currentTerm) && n.role == Candidate && !HasMajority(n, |n.votesReceived|)
    ensures Tallied(n, n.votesReceived + Granters(ms), AfterVotes(n, ms))
    decreases |ms|
  {
    hide HasMajority, Granters, LogOk, AfterRequestVoteResponse, Tallied;
    if ms == [] {
      NoVotes(n);
    } else {
      var k := |ms| - 1;
      var q := n.votesReceived + Granters(ms[..k]);
      VotesCounted(n, ms[..k]);
      VoteCounted(n, q, AfterVotes(n, ms[..k]), ms[k]);
      GrantersNext(ms[..k], ms[k]);
      assert ms[..k] + [ms[k]] == ms;
      assert n.votesReceived + Granters(ms) == if ms[k].body.granted then q + {ms[k].from} else q;
    }
  }

  lemma LeaderOut(n: Node)
    requires LogOk(n.log)
    ensures var l := BecomeLeader(n); l.role == Leader && l.currentTerm == n.currentTerm && l.leaderId == n.id
  {
    hide CommitUpTo, LogOk;
    var l := n.(role := Leader, leaderId := n.id, nextIndex := InitialNext(n.peers, LastIndex(n.log) + 1),
                matchIndex := InitialNext(n.peers, 0), sentIndex := map[], pendingReads := map[]);
    SendAppendsSame(l, n.peers, 0);
  }

  // ------------------------------------------------------------------------- a campaign

  ghost predicate Voters(c: Node, ws: seq<Node>) {
    && (forall i :: 0 <= i < |ws| ==> LogOk(ws[i].log) && ws[i].id in c.peers)
    && forall i, j :: 0 <= i < j < |ws| ==> ws[i].id != ws[j].id
  }

  function Last(n: Node): Message
    requires n.msgs != []
  {
    n.msgs[|n.msgs| - 1]
  }

  /** What the voters send back to its pre-votes. */
  function PreVoteReplies(c: Node, ws: seq<Node>): (ms: seq<Message>)
    requires LogOk(c.log) && forall i :: 0 <= i < |ws| ==> LogOk(ws[i].log)
    ensures |ms| == |ws| && PreVoteAnswers(ms)
    ensures forall i :: 0 <= i < |ws| ==> ms[i] == Last(AfterPreVote(ws[i], PreVoteFor(c, ws[i].id))) && ms[i].from == ws[i].id
    ensures forall i :: 0 <= i < |ws| ==> ms[i].body.granted == Willing(ws[i], c)
  {
    if ws == [] then []
    else
      var w := ws[|ws| - 1];
      PreVoteAnswer(w, c);
      PreVoteReplies(c, ws[..|ws| - 1]) + [Last(AfterPreVote(w, PreVoteFor(c, w.id)))]
  }

  /** And those among them that would vote to its request. */
  function VoteReplies(c: Node, ws: seq<Node>): (ms: seq<Message>)
    requires LogOk(c.log) && forall i :: 0 <= i < |ws| ==> LogOk(ws[i].log) && Willing(ws[i], c)
    ensures |ms| == |ws| && VoteAnswers(ms, c.currentTerm + 1)
    ensures forall i :: 0 <= i < |ws| ==> ms[i] == Last(AfterRequestVote(ws[i], VoteFor(c, ws[i].id))) && ms[i].from == ws[i].id && ms[i].body.granted
  {
    if ws == [] then []
    else
      var w := ws[|ws| - 1];
      VoteAnswer(w, c);
      VoteReplies(c, ws[..|ws| - 1]) + [Last(AfterRequestVote(w, VoteFor(c, w.id)))]
  }

  function Ids(ws: seq<Node>): set<Id> { set i | 0 <= i < |ws| :: ws[i].id }

  function WillingIds(c: Node, ws: seq<Node>): set<Id>
    requires LogOk(c.log) && forall i :: 0 <= i < |ws| ==> LogOk(ws[i].log)
  {
    set i | 0 <= i < |ws| && Willing(ws[i], c) :: ws[i].id
  }

  lemma RepliesGrant(c: Node, ws: seq<Node>)
    requires LogOk(c.log) && forall i :: 0 <= i < |ws| ==> LogOk(ws[i].log)
    ensures Granters(PreVoteReplies(c, ws)) == WillingIds(c, ws)
  {
    hide Willing, PreVoteReplies, LogOk;
    var ms := PreVoteReplies(c, ws);
    forall p: Id
      ensures p in Granters(ms) <==> p in WillingIds(c, ws)
    {
      if p in Granters(ms) {
        var i :| 0 <= i < |ms| && ms[i].body.granted && ms[i].from == p;
        assert ws[i].id == p;
      }
      if p in WillingIds(c, ws) {
        var i :| 0 <= i < |ws| && Willing(ws[i], c) && ws[i].id == p;
        assert ms[i].from == p;
      }
    }
  }

  /** Alone of several, a node has no majority. */
  lemma OneOfMany(ids: set<Id>, n: Node, v: Id)
    requires Wired(ids, n, v) && n.peers != []
    ensures !HasMajority(n, |{v}|) && |ids| >= 2
  {
    PeersSize(ids, n, v);
  }

  /** The node after it timed out and heard from these voters. */
  function Canvassed(c: Node, ws: seq<Node>): (r: Node)
    requires LogOk(c.log) && forall i :: 0 <= i < |ws| ==> LogOk(ws[i].log)
    ensures r.log == c.log
  {
    CandidateLog(c);
    AfterPreVotes(BecomePreCandidate(c), PreVoteReplies(c, ws))
  }

  /**
   * A node that times out and hears from these voters stands for election exactly when it and those of them
   * that would vote for it are a majority of the cluster.
   */
  lemma StandsExactly(ids: set<Id>, c: Node, v: Id, ws: seq<Node>)
    requires Wired(ids, c, v) && LogOk(c.log) && c.peers != [] && Voters(c, ws)
    ensures var r := Canvassed(c, ws);
            && (r.role == Candidate <==> 2 * |{v} + WillingIds(c, ws)| > |ids|)
            && (if r.role == Candidate then r.currentTerm == c.currentTerm + 1 && r.votesReceived == {v} && r.peers == c.peers && r.id == v
                else r.currentTerm == c.currentTerm)
  {
    hide PreVoteReplies, WillingIds, BecomePreCandidate, LogOk, HasMajority, AfterPreVotes;
    PreCandidateOut(c);
    var p, ms := BecomePreCandidate(c), PreVoteReplies(c, ws);
    OneOfMany(ids, c, v);
    SameMajority(c, p, |{v}|);
    PreVotesCounted(p, ms);
    RepliesGrant(c, ws);
    var q := {v} + WillingIds(c, ws);
    assert q <= ids by { InCluster(ids, c, v, ws); }
    MajorityExact(ids, c, v, q);
    SameMajority(c, p, |q|);
  }

  lemma InCluster(ids: set<Id>, c: Node, v: Id, ws: seq<Node>)
    requires Wired(ids, c, v) && LogOk(c.log) && Voters(c, ws)
    ensures {v} + WillingIds(c, ws) <= ids && {v} + Ids(ws) <= ids
  {
    hide Willing, LogOk;
  }

  /** With a majority that would vote for it, a node that times out is elected, in the next term. */
  lemma CampaignWins(ids: set<Id>, c: Node, v: Id, ws: seq<Node>)
    requires Wired(ids, c, v) && LogOk(c.log) && c.peers != [] && Voters(c, ws)
    requires (forall i :: 0 <= i < |ws| ==> Willing(ws[i], c)) && 2 * |{v} + Ids(ws)| > |ids|
    ensures Canvassed(c, ws).currentTerm == c.currentTerm + 1
    ensures var r := AfterVotes(Canvassed(c, ws), VoteReplies(c, ws)); r.role == Leader && r.currentTerm == c.currentTerm + 1 && r.leaderId == v
  {
    hide PreVoteReplies, VoteReplies, LogOk, HasMajority, AfterVotes, Willing, Granters, Ids, WillingIds, Canvassed;
    AllWilling(c, ws);
    StandsExactly(ids, c, v, ws);
    var stood, ms := Canvassed(c, ws), VoteReplies(c, ws);
    OneOfMany(ids, c, v);
    SameMajority(c, stood, |{v}|);
    VotesCounted(stood, ms);
    AllGrant(c, ws);
    InCluster(ids, c, v, ws);
    MajorityExact(ids, c, v, {v} + Ids(ws));
    SameMajority(c, stood, |{v} + Ids(ws)|);
  }

  lemma AllWilling(c: Node, ws: seq<Node>)
    requires LogOk(c.log) && forall i :: 0 <= i < |ws| ==> LogOk(ws[i].log) && Willing(ws[i], c)
    ensures WillingIds(c, ws) == Ids(ws)
  {
    hide Willing, LogOk;
  }

  lemma AllGrant(c: Node, ws: seq<Node>)
    requires LogOk(c.log) && forall i :: 0 <= i < |ws| ==> LogOk(ws[i].log) && Willing(ws[i], c)
    ensures Granters(VoteReplies(c, ws)) == Ids(ws)
  {
    hide Willing, VoteReplies, LogOk;
    var ms := VoteReplies(c, ws);
    forall p: Id
      ensures p in Granters(ms) <==> p in Ids(ws)
    {
      if p in Ids(ws) {
        var i :| 0 <= i < |ws| && ws[i].id == p;
        assert ms[i].body.granted && ms[i].from == p;
      }
    }
  }
}
