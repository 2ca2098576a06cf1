/** What a node may send, and the events it may add, in a state that is in order. */
module RaftSending {
  import opened RaftTypes
  import opened RaftCore
  import opened RaftEvents
  import opened RaftNode
  import opened RaftCluster
  import opened RaftFrame

  // ------------------------------------------------------ events touch one node

  lemma ByRefl(c: Core, v: Id)
    requires Inv(c)
    ensures By(c, c, v)
  {
    hide InvGlue, InvVotes, InvBallots, InvSafe, InvKeep, InvCommitted;
  }

  lemma ByExtends(c: Core, d: Core, v: Id)
    requires By(c, d, v)
    ensures Extends(c, d)
  {
  }

  lemma RaiseSame(c: Core, v: Id)
    requires v in c.term
    ensures Raise(c, v, c.term[v]) == c
  {
    assert c.term[v := c.term[v]] == c.term;
  }

  lemma RaiseBy(c: Core, v: Id, t: nat)
    requires Inv(c) && v in c.ids && c.term[v] <= t
    ensures By(c, Raise(c, v, t), v)
  {
    hide InvGlue, InvVotes, InvBallots, InvSafe, InvKeep, InvCommitted;
    RaiseExtends(c, v, t);
  }

  lemma StandBy(c: Core, v: Id)
    requires Inv(c) && v in c.ids && (c.term[v], v) !in c.cand
    ensures By(c, Stand(c, v), v)
  {
    hide InvGlue, InvVotes, InvBallots, InvSafe, InvKeep, InvCommitted;
    StandExtends(c, v);
  }

  lemma VoteBy(c: Core, v: Id, w: Id)
    requires Inv(c) && v in c.ids && (c.term[v], w) in c.cand
    ensures By(c, Vote(c, v, w), v)
  {
    hide InvGlue, InvVotes, InvBallots, InvSafe, InvKeep, InvCommitted;
    VoteExtends(c, v, w);
  }

  lemma ElectBy(c: Core, v: Id, q: set<Id>)
    requires Inv(c) && v in c.ids && c.term[v] !in c.tlog && c.term[v] > 0
    ensures By(c, Elect(c, v, q), v)
  {
    hide InvGlue, InvVotes, InvBallots, InvSafe, InvKeep, InvCommitted;
    ElectExtends(c, v, q);
  }

  lemma AppendBy(c: Core, v: Id, es: Log)
    requires Inv(c) && Appendable(c, v, es) && c.lead[c.term[v]] == v
    ensures By(c, Append(c, v, es), v)
  {
    hide InvGlue, InvVotes, InvBallots, InvSafe, InvKeep, InvCommitted;
    AppendExtends(c, v, es);
  }

  lemma MatchBy(c: Core, v: Id, k: nat, l: Log)
    requires Inv(c) && Matchable(c, v, k, l)
    ensures By(c, Match(c, v, k, l), v)
  {
    hide InvGlue, InvVotes, InvBallots, InvSafe, InvKeep, InvCommitted;
    MatchExtends(c, v, k, l);
  }

  lemma CommitOther(c: Core, t: nat, i: nat, u: Id)
    requires Inv(c) && Own(c, t, i) && u in c.ids
    ensures OtherSame(c, Commit(c, t, i), u)
  {
    hide InvGlue, InvVotes, InvBallots, InvSafe, InvKeep, InvCommitted;
  }

  lemma CommitBy(c: Core, v: Id, t: nat, i: nat)
    requires Inv(c) && Own(c, t, i) && t in c.lead && c.lead[t] == v && Extends(c, Commit(c, t, i))
    ensures By(c, Commit(c, t, i), v)
  {
    hide Inv, Extends;
    var d := Commit(c, t, i);
    forall u | u in c.ids && u != v
      ensures OtherSame(c, d, u)
    {
      CommitOther(c, t, i, u);
    }
    if d.committed != c.committed {
      assert LastTerm(d.committed) == t;
    }
  }

  /** The parts of `NodeOk` that make a handler applicable. */
  lemma NodeBasics(c: Core, n: Node, v: Id)
    requires NodeOk(c, n, v)
    ensures n.id == v && LogOk(n.log) && v in c.ids && 0 !in c.ids && v in c.term && v in c.log && c.term[v] == n.currentTerm
    ensures forall p :: p in n.peers <==> p in c.ids && p != v
    ensures |c.log[v]| == LastIndex(n.log) && LastTermOf(n.log) == LastTerm(c.log[v])
    ensures n.commitIndex <= LastIndex(n.log)
  {
    ViewLog(c, n, v);
  }

  // ------------------------------------------------------------- log and history

  lemma FullLog(c: Log, log: seq<Entry>)
    requires LogOk(log) && Base(log) <= |c| && log[0].term == TermAt(c, Base(log))
    ensures |Full(c, log)| == LastIndex(log)
    ensures forall i :: Base(log) <= i ==> TermIn(log, i) == TermAt(Full(c, log), i)
    ensures LastTermOf(log) == LastTerm(Full(c, log))
    ensures Shares(Full(c, log), c, Base(log))
  {
    var l := Full(c, log);
    var b := Base(log);
    assert l[..b] == c[..b];
    forall i | b <= i
      ensures TermIn(log, i) == TermAt(l, i)
    {
      if i == b {
        if b > 0 { assert l[b - 1] == l[..b][b - 1] == c[b - 1]; }
      } else if i <= LastIndex(log) {
        assert l[i - 1] == log[1..][i - 1 - b] == log[i - b];
      }
    }
    assert LastTermOf(log) == TermIn(log, LastIndex(log));
  }

  lemma ViewLog(c: Core, n: Node, v: Id)
    requires LogView(c, n.log, n.snapshot, v)
    ensures |c.log[v]| == LastIndex(n.log)
    ensures forall i :: Base(n.log) <= i ==> TermIn(n.log, i) == TermAt(c.log[v], i)
    ensures LastTermOf(n.log) == LastTerm(c.log[v])
    ensures Shares(c.log[v], c.committed, Base(n.log))
  {
    FullLog(c.committed, n.log);
  }

  lemma NodeLog(c: Core, n: Node, v: Id)
    requires NodeOk(c, n, v)
    ensures LogView(c, n.log, n.snapshot, v)
    ensures |c.log[v]| == LastIndex(n.log)
    ensures forall i :: Base(n.log) <= i ==> TermIn(n.log, i) == TermAt(c.log[v], i)
  {
    ViewLog(c, n, v);
  }

  lemma NodeCommit(c: Core, n: Node, v: Id)
    requires NodeOk(c, n, v)
    ensures v in c.log && LogOk(n.log) && Base(n.log) <= n.commitIndex <= |c.log[v]| && n.commitIndex <= |c.committed|
    ensures CommittedBy(c, n.currentTerm, c.log[v], n.commitIndex)
  {
    hide LogView, VoteView, CandidateView, LeaderView, Wired;
  }

  /** A snapshot boundary is committed. */
  lemma BaseCommitted(c: Core, n: Node, v: Id)
    requires LogView(c, n.log, n.snapshot, v) && CommitView(c, n, v)
    ensures CommittedBy(c, n.currentTerm, c.log[v], Base(n.log))
    ensures CommittedBy(c, n.currentTerm, c.committed, Base(n.log))
  {
    ViewLog(c, n, v);
    CommittedLess(c, n.currentTerm, c.log[v], Base(n.log), n.commitIndex);
    CommittedCopy(c, n.currentTerm, c.log[v], c.committed, Base(n.log));
  }

  // ----------------------------------------------------------------- sending

  ghost predicate StepOk(c: Core, d: Core, r: Node, v: Id) {
    Inv(d) && By(c, d, v) && NodeOk(d, r, v) && OutboxOk(d, r)
  }

  lemma StepTrans(c: Core, d: Core, e: Core, r: Node, v: Id)
    requires By(c, d, v) && StepOk(d, e, r, v)
    ensures StepOk(c, e, r, v)
  {
    ByTrans(c, d, e, v);
  }

  /** The entries after prev, as the whole log has them. */
  lemma EntriesFull(c: Core, n: Node, v: Id, prev: nat)
    requires LogView(c, n.log, n.snapshot, v) && Base(n.log) <= prev <= LastIndex(n.log)
    ensures EntriesIn(n.log, prev, LastIndex(n.log)) == c.log[v][prev..]
  {
    var b := Base(n.log);
    ViewLog(c, n, v);
    assert c.log[v][prev..] == n.log[1..][prev - b..];
    assert n.log[1..][prev - b..] == n.log[prev - b + 1..];
  }

  lemma AppendMessageOk(c: Core, n: Node, v: Id, p: Id, prev: nat, ctx: nat)
    requires NodeOk(c, n, v) && n.role == Leader && p in n.peers && Base(n.log) <= prev <= LastIndex(n.log)
    ensures MsgOk(c, Message(v, p, n.currentTerm,
                             AppendEntries(prev, TermIn(n.log, prev), EntriesIn(n.log, prev, LastIndex(n.log)), n.commitIndex, ctx)))
  {
    ViewLog(c, n, v);
    EntriesFull(c, n, v, prev);
  }

  lemma InstallMessageOk(c: Core, n: Node, v: Id, p: Id)
    requires NodeOk(c, n, v) && n.role == Leader && p in n.peers && Base(n.log) > 0
    ensures MsgOk(c, Message(v, p, n.currentTerm, InstallSnapshot(n.snapshot)))
  {
    BaseCommitted(c, n, v);
  }

  lemma SendOk(c: Core, n: Node, v: Id, p: Id, body: Body)
    requires NodeOk(c, n, v) && OutboxOk(c, n) && MsgOk(c, Message(v, p, n.currentTerm, body))
    requires Reaches(n, Message(v, p, n.currentTerm, body))
    ensures NodeOk(c, Send(n, p, body), v) && OutboxOk(c, Send(n, p, body))
  {
  }

  /** The point sendAppendEntries sends from. */
  function SendFrom(n: Node, p: Id): nat {
    if At(n.sentIndex, p) > Pred(At(n.nextIndex, p)) then At(n.sentIndex, p) else Pred(At(n.nextIndex, p))
  }

  lemma SendFromInside(c: Core, n: Node, v: Id, p: Id)
    requires NodeOk(c, n, v) && n.role == Leader && p in n.peers
    ensures SendFrom(n, p) <= LastIndex(n.log)
  {
    assert PeerView(c, n, |c.log[v]|, p);
    ViewLog(c, n, v);
  }

  lemma SendAppendOk(c: Core, n: Node, v: Id, p: Id, ctx: nat)
    requires NodeOk(c, n, v) && OutboxOk(c, n) && n.role == Leader && p in n.peers
    ensures var r := SendAppend(n, p, ctx);
            NodeOk(c, r, v) && OutboxOk(c, r) && r == n.(msgs := r.msgs, sentIndex := r.sentIndex)
  {
    hide NodeOk, OutboxOk, TermIn, MsgOk, LogOk;
    NodeBasics(c, n, v);
    if Pred(At(n.nextIndex, p)) < Base(n.log) {
      InstallMessageOk(c, n, v, p);
      SendOk(c, n, v, p, InstallSnapshot(n.snapshot));
    } else {
      var prev, last := SendFrom(n, p), LastIndex(n.log);
      var body := AppendEntries(prev, TermIn(n.log, prev), EntriesIn(n.log, prev, last), n.commitIndex, ctx);
      SendFromInside(c, n, v, p);
      AppendMessageOk(c, n, v, p, prev, ctx);
      SendOk(c, n, v, p, body);
      SentStays(c, Send(n, p, body), v, p);
      SentOutbox(c, Send(n, p, body), p);
    }
  }

  lemma SentOutbox(c: Core, n: Node, p: Id)
    requires LogOk(n.log) && OutboxOk(c, n)
    ensures OutboxOk(c, n.(sentIndex := n.sentIndex[p := LastIndex(n.log)]))
  {
    hide MsgOk, LogOk;
  }

  lemma SentStays(c: Core, n: Node, v: Id, p: Id)
    requires NodeOk(c, n, v) && n.role == Leader
    ensures NodeOk(c, n.(sentIndex := n.sentIndex[p := LastIndex(n.log)]), v)
  {
    ViewLog(c, n, v);
    var r := n.(sentIndex := n.sentIndex[p := LastIndex(n.log)]);
    forall q | q in n.peers
      ensures PeerView(c, r, |c.log[v]|, q)
    {
      assert PeerView(c, n, |c.log[v]|, q);
    }
  }

  lemma SendAppendsOk(c: Core, n: Node, v: Id, to: seq<Id>, ctx: nat)
    requires NodeOk(c, n, v) && OutboxOk(c, n) && n.role == Leader && forall p :: p in to ==> p in n.peers
    ensures var r := SendAppends(n, to, ctx);
            NodeOk(c, r, v) && OutboxOk(c, r) && r == n.(msgs := r.msgs, sentIndex := r.sentIndex)
    decreases |to|
  {
    if to != [] {
      SendAppendOk(c, n, v, to[0], ctx);
      SendAppendsOk(c, SendAppend(n, to[0], ctx), v, to[1..], ctx);
    }
  }

  lemma BroadcastOk(c: Core, n: Node, v: Id, to: seq<Id>, body: Body)
    requires NodeOk(c, n, v) && OutboxOk(c, n) && forall p :: p in to ==> MsgOk(c, Message(v, p, n.currentTerm, body))
    requires !body.AppendEntries?
    ensures var r := Broadcast(n, to, body); NodeOk(c, r, v) && OutboxOk(c, r) && r == n.(msgs := r.msgs)
    decreases |to|
  {
    if to != [] {
      BroadcastOk(c, Send(n, to[0], body), v, to[1..], body);
    }
  }
}
