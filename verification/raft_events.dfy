/** The seven events that extend a `Core`, each with the proof that it keeps `RaftCore.Inv`. */
module RaftEvents {
  import opened RaftTypes
  import opened Quorums
  import opened RaftCore

  function Max(a: nat, b: nat): nat { if a < b then b else a }

  function Raise(s: Core, v: Id, t: nat): Core {
    s.(term := s.term[v := t])
  }

  function Stand(s: Core, v: Id): Core
    requires v in s.term && v in s.log
  {
    s.(cand := s.cand[(s.term[v], v) := s.log[v]])
  }

  function Vote(s: Core, v: Id, c: Id): Core
    requires v in s.term
  {
    s.(votes := s.votes + {Ballot(s.term[v], v, c)})
  }

  function Elect(s: Core, v: Id, q: set<Id>): Core
    requires v in s.term && v in s.log
  {
    var t := s.term[v];
    s.(tlog := s.tlog[t := s.log[v]], lead := s.lead[t := v], elect := s.elect[t := q],
       acc := s.acc[(v, t) := |s.log[v]|])
  }

  function Append(s: Core, v: Id, es: Log): Core
    requires v in s.term && v in s.log
  {
    var t := s.term[v];
    var l := s.log[v] + es;
    s.(tlog := s.tlog[t := l], log := s.log[v := l], acc := s.acc[(v, t) := |l|])
  }

  function Match(s: Core, v: Id, k: nat, l: Log): Core
    requires v in s.term
  {
    var t := s.term[v];
    s.(log := s.log[v := l], acc := s.acc[(v, t) := Max(Acc(s, v, t), k)])
  }

  function Commit(s: Core, t: nat, i: nat): Core
    requires t in s.tlog && i <= |s.tlog[t]|
  {
    s.(committed := if i > |s.committed| then s.tlog[t][..i] else s.committed)
  }

  // ------------------------------------------------- what every event keeps

  /** An index some node had matched before the event was there before it. */
  lemma OwnBefore(s: Core, r: Core, v: Id, t: nat, i: nat)
    requires InvDomain(s) && Extends(s, r) && Own(r, t, i) && Acc(s, v, t) >= i
    ensures Own(s, t, i) && Shares(s.tlog[t], r.tlog[t], i)
  {
    SharesLess(s.tlog[t], r.tlog[t], i, |s.tlog[t]|);
    assert s.tlog[t][i - 1] == s.tlog[t][..i][i - 1] == r.tlog[t][..i][i - 1];
  }

  lemma BallotStays(s: Core, r: Core, b: Ballot, t: nat, i: nat)
    requires Inv(s) && Extends(s, r) && b in s.votes
    ensures (b.term, b.candidate) in r.cand && BallotSafe(r, b, t, i)
  {
    if t < b.term && Own(r, t, i) && Choosable(r, t, i) && Acc(r, b.voter, t) >= i {
      assert Acc(s, b.voter, t) == Acc(r, b.voter, t);
      OwnBefore(s, r, b.voter, t, i);
      ChoosableShrinks(s, r, t, i);
      assert BallotSafe(s, b, t, i);
    }
  }

  lemma LeaderStays(s: Core, r: Core, t: nat, u: nat, i: nat)
    requires Inv(s) && Extends(s, r) && u in s.tlog
    ensures u in r.tlog && LeaderSafe(r, t, u, i)
  {
    if t < u && Own(r, t, i) && Choosable(r, t, i) {
      var q :| IsQuorum(r.ids, q) && MayAckAll(r, q, t, i);
      VotersReached(s, u);
      var v := QuorumsMeet(s.ids, q, s.elect[u]);
      assert MayAck(r, v, t, i);
      assert s.term[v] <= r.term[v];
      assert Acc(s, v, t) == Acc(r, v, t);
      OwnBefore(s, r, v, t, i);
      ChoosableShrinks(s, r, t, i);
      assert LeaderSafe(s, t, u, i);
      SharesLess(s.tlog[u], r.tlog[u], i, |s.tlog[u]|);
    }
  }

  lemma KeepStays(s: Core, r: Core, v: Id, t: nat, i: nat)
    requires Inv(s) && Extends(s, r) && v in s.log && v in r.log
    requires Own(r, t, i) && Choosable(r, t, i) && Acc(s, v, t) >= i
    ensures t in s.tlog && Shares(r.tlog[t], s.log[v], i) && Own(s, t, i) && Choosable(s, t, i)
  {
    OwnBefore(s, r, v, t, i);
    ChoosableShrinks(s, r, t, i);
    assert KeepSafe(s, v, t, i);
  }

  lemma GlueStays(s: Core, r: Core)
    requires InvGlue(s) && Extends(s, r)
    ensures forall v :: v in s.log ==> Glued(r, s.log[v])
    ensures forall t :: t in s.tlog ==> Glued(r, s.tlog[t])
    ensures forall k :: k in s.cand ==> Glued(r, s.cand[k])
  {
    forall v | v in s.log ensures Glued(r, s.log[v]) { GluedExtends(s, r, s.log[v]); }
    forall t | t in s.tlog ensures Glued(r, s.tlog[t]) { GluedExtends(s, r, s.tlog[t]); }
    forall k | k in s.cand ensures Glued(r, s.cand[k]) { GluedExtends(s, r, s.cand[k]); }
  }

  lemma BallotsStay(s: Core, r: Core)
    requires Inv(s) && Extends(s, r) && InvDomain(r) && r.votes == s.votes
    ensures InvBallots(r)
  {
    forall b, t, i | b in r.votes
      ensures BallotSafe(r, b, t, i)
    {
      BallotStays(s, r, b, t, i);
    }
  }

  lemma LeadersStay(s: Core, r: Core)
    requires Inv(s) && Extends(s, r) && r.tlog.Keys == s.tlog.Keys
    ensures InvSafe(r)
  {
    forall t, u, i | u in r.tlog
      ensures LeaderSafe(r, t, u, i)
    {
      LeaderStays(s, r, t, u, i);
    }
  }

  lemma KeepsStay(s: Core, r: Core)
    requires Inv(s) && Extends(s, r) && r.log == s.log && r.acc == s.acc
    ensures InvKeep(r)
  {
    forall v, t, i | v in r.log
      ensures KeepSafe(r, v, t, i)
    {
      if Own(r, t, i) && Choosable(r, t, i) && Acc(r, v, t) >= i {
        KeepStays(s, r, v, t, i);
      }
    }
  }

  lemma CommittedLogStays(s: Core, r: Core)
    requires InvCommitted(s) && Extends(s, r) && r.committed == s.committed
    ensures InvCommitted(r)
  {
    if s.committed != [] {
      var t := LastTerm(s.committed);
      ChosenStays(s, r, t, |s.committed|);
    }
  }

  // --------------------------------------------------------------- events

  lemma VotesStay(s: Core, r: Core)
    requires InvDomain(s) && InvVotes(s) && Extends(s, r) && InvDomain(r)
    requires r.elect == s.elect && r.lead == s.lead
    ensures forall t :: t in r.tlog ==> VotedFor(r, t, r.elect[t], r.lead[t])
  {
    forall t | t in r.tlog
      ensures VotedFor(r, t, r.elect[t], r.lead[t])
    {
      assert VotedFor(s, t, s.elect[t], s.lead[t]);
    }
  }

  lemma RaiseExtends(s: Core, v: Id, t: nat)
    requires InvDomain(s) && v in s.ids && s.term[v] <= t
    ensures Extends(s, Raise(s, v, t)) && InvDomain(Raise(s, v, t))
  {
  }

  lemma RaiseKeeps(s: Core, v: Id, t: nat)
    requires Inv(s) && v in s.ids && s.term[v] <= t
    ensures Inv(Raise(s, v, t)) && Extends(s, Raise(s, v, t))
  {
    var r := Raise(s, v, t);
    RaiseExtends(s, v, t);
    assert InvGlue(r) by { GlueStays(s, r); }
    assert InvVotes(r) by { VotesStay(s, r); }
    BallotsStay(s, r);
    LeadersStay(s, r);
    KeepsStay(s, r);
    CommittedLogStays(s, r);
  }

  lemma StandExtends(s: Core, v: Id)
    requires InvDomain(s) && v in s.ids && (s.term[v], v) !in s.cand
    ensures Extends(s, Stand(s, v)) && InvDomain(Stand(s, v))
  {
  }

  lemma StandKeeps(s: Core, v: Id)
    requires Inv(s) && v in s.ids && (s.term[v], v) !in s.cand
    ensures Inv(Stand(s, v)) && Extends(s, Stand(s, v))
  {
    var r := Stand(s, v);
    StandExtends(s, v);
    assert InvGlue(r) by { GlueStays(s, r); }
    assert InvVotes(r) by { VotesStay(s, r); }
    BallotsStay(s, r);
    LeadersStay(s, r);
    KeepsStay(s, r);
    CommittedLogStays(s, r);
  }

  /** A leader log reaching past i with a later last term is longer than i. */
  lemma LaterTermIsLonger(a: Log, b: Log, l: Log, t: nat, i: nat)
    requires Shares(a, b, i) && Shares(l, b, |l|) && l != [] && LastTerm(l) > t && TermsAtMost(a, t)
    ensures i <= |l|
  {
    forall k | 0 <= k < i && k < |l|
      ensures l[k].term <= t
    {
      assert l[k] == l[..|l|][k] == b[..|l|][k] == b[..i][k] == a[..i][k] == a[k];
    }
  }

  /** A log that holds an entry of term t ends with one of term t or later. */
  lemma LastTermReaches(s: Core, m: Log, t: nat, i: nat)
    requires InvGlue(s) && Glued(s, m) && Own(s, t, i) && Shares(s.tlog[t], m, i)
    ensures m != [] && t <= LastTerm(m)
  {
    assert m[i - 1] == m[..i][i - 1] == s.tlog[t][..i][i - 1];
    assert GluedAt(s, m, |m| - 1);
    var w := LastTerm(m);
    assert TermsAtMost(s.tlog[w], w);
    assert m[i - 1] == m[..|m|][i - 1] == s.tlog[w][..|m|][i - 1];
  }

  /** A candidate at least as up to date as a voter holds all the voter must keep. */
  lemma UpToDateHolds(s: Core, v: Id, l: Log, t: nat, i: nat)
    requires Inv(s) && v in s.ids && Glued(s, l) && UpToDate(LastTerm(l), |l|, s.log[v])
    requires Own(s, t, i) && Choosable(s, t, i) && Acc(s, v, t) >= i
    ensures Shares(s.tlog[t], l, i)
  {
    assert KeepSafe(s, v, t, i);
    LastTermReaches(s, s.log[v], t, i);
    assert GluedAt(s, l, |l| - 1);
    var u := LastTerm(l);
    if u == t {
      SharesLess(l, s.tlog[t], i, |l|);
    } else {
      assert LeaderSafe(s, t, u, i);
      LaterTermIsLonger(s.tlog[t], s.tlog[u], l, t, i);
      SharesLess(l, s.tlog[u], i, |l|);
    }
  }

  lemma VoteExtends(s: Core, v: Id, c: Id)
    requires InvDomain(s) && v in s.ids && (s.term[v], c) in s.cand
    ensures Extends(s, Vote(s, v, c)) && InvDomain(Vote(s, v, c))
  {
  }

  /** A vote for an up-to-date candidate is safe to count. */
  lemma VoteSafe(s: Core, v: Id, c: Id, t: nat, i: nat)
    requires Inv(s) && v in s.ids && (s.term[v], c) in s.cand
    requires var l := s.cand[(s.term[v], c)]; UpToDate(LastTerm(l), |l|, s.log[v])
    ensures BallotSafe(Vote(s, v, c), Ballot(s.term[v], v, c), t, i)
  {
    var r := Vote(s, v, c);
    VoteExtends(s, v, c);
    if Own(r, t, i) && Choosable(r, t, i) && Acc(r, v, t) >= i {
      OwnBefore(s, r, v, t, i);
      ChoosableShrinks(s, r, t, i);
      UpToDateHolds(s, v, s.cand[(s.term[v], c)], t, i);
    }
  }

  lemma VoteBallots(s: Core, v: Id, c: Id)
    requires Inv(s) && v in s.ids && (s.term[v], c) in s.cand
    requires var l := s.cand[(s.term[v], c)]; UpToDate(LastTerm(l), |l|, s.log[v])
    ensures InvDomain(Vote(s, v, c)) && InvBallots(Vote(s, v, c))
  {
    var r := Vote(s, v, c);
    VoteExtends(s, v, c);
    forall b, t, i | b in r.votes
      ensures BallotSafe(r, b, t, i)
    {
      if b in s.votes { BallotStays(s, r, b, t, i); } else { VoteSafe(s, v, c, t, i); }
    }
  }

  lemma VoteGlue(s: Core, v: Id, c: Id)
    requires InvDomain(s) && InvGlue(s) && v in s.ids && (s.term[v], c) in s.cand
    ensures InvGlue(Vote(s, v, c))
  {
    VoteExtends(s, v, c);
    GlueStays(s, Vote(s, v, c));
  }

  lemma VoteVotes(s: Core, v: Id, c: Id)
    requires InvDomain(s) && InvVotes(s) && v in s.ids && (s.term[v], c) in s.cand
    requires forall b :: b in s.votes && b.voter == v && b.term == s.term[v] ==> b.candidate == c
    ensures InvVotes(Vote(s, v, c))
  {
    VoteExtends(s, v, c);
    VotesStay(s, Vote(s, v, c));
  }

  lemma VoteKeeps(s: Core, v: Id, c: Id)
    requires Inv(s) && v in s.ids && (s.term[v], c) in s.cand
    requires forall b :: b in s.votes && b.voter == v && b.term == s.term[v] ==> b.candidate == c
    requires var l := s.cand[(s.term[v], c)]; UpToDate(LastTerm(l), |l|, s.log[v])
    ensures Inv(Vote(s, v, c)) && Extends(s, Vote(s, v, c))
  {
    hide InvGlue, InvVotes, InvSafe, InvKeep, InvCommitted, InvBallots, UpToDate, Extends;
    var r := Vote(s, v, c);
    VoteExtends(s, v, c);
    VoteGlue(s, v, c);
    VoteVotes(s, v, c);
    VoteBallots(s, v, c);
    LeadersStay(s, r);
    KeepsStay(s, r);
    CommittedLogStays(s, r);
  }

  /** The new leader's log has everything earlier leaders may have got chosen. */
  lemma ElectSafe(s: Core, v: Id, q: set<Id>, t: nat, i: nat)
    requires Inv(s) && v in s.ids && (s.term[v], v) in s.cand && s.cand[(s.term[v], v)] == s.log[v]
    requires VotedFor(s, s.term[v], q, v) && t < s.term[v] && Own(s, t, i) && Choosable(s, t, i)
    ensures Shares(s.tlog[t], s.log[v], i)
  {
    var p :| IsQuorum(s.ids, p) && MayAckAll(s, p, t, i);
    var w := QuorumsMeet(s.ids, p, q);
    var b := Ballot(s.term[v], w, v);
    assert b in s.votes;
    assert MayAck(s, w, t, i);
    assert BallotSafe(s, b, t, i);
  }

  /** At its election a leader's log has no entry of its own term yet. */
  lemma NoneOwnYet(s: Core, v: Id, q: set<Id>, i: nat)
    requires Inv(s) && v in s.ids && s.term[v] !in s.tlog
    ensures !Own(Elect(s, v, q), s.term[v], i)
  {
    if 1 <= i <= |s.log[v]| {
      assert GluedAt(s, s.log[v], i - 1);
    }
  }

  lemma ElectExtends(s: Core, v: Id, q: set<Id>)
    requires InvDomain(s) && v in s.ids && s.term[v] !in s.tlog && s.term[v] > 0
    ensures Extends(s, Elect(s, v, q))
  {
    hide Shares;
    assert Acc(s, v, s.term[v]) == 0;
    SharesWhole(s, Elect(s, v, q));
  }

  lemma SharesWhole(s: Core, r: Core)
    requires r.committed == s.committed && forall t :: t in s.tlog ==> t in r.tlog && r.tlog[t] == s.tlog[t]
    ensures Shares(s.committed, r.committed, |s.committed|)
    ensures forall t :: t in s.tlog ==> Shares(s.tlog[t], r.tlog[t], |s.tlog[t]|)
  {
  }

  lemma ElectDomain(s: Core, v: Id, q: set<Id>)
    requires InvDomain(s) && v in s.ids && s.term[v] !in s.tlog && s.term[v] > 0
    ensures InvDomain(Elect(s, v, q))
  {
    assert Acc(s, v, s.term[v]) == 0;
  }

  lemma ElectGlue(s: Core, v: Id, q: set<Id>)
    requires InvDomain(s) && InvGlue(s) && v in s.ids && Extends(s, Elect(s, v, q))
    ensures InvGlue(Elect(s, v, q))
  {
    GlueStays(s, Elect(s, v, q));
  }

  lemma ElectBasics(s: Core, v: Id, q: set<Id>)
    requires InvDomain(s) && InvGlue(s) && InvVotes(s)
    requires v in s.ids && s.term[v] !in s.tlog && s.term[v] > 0 && VotedFor(s, s.term[v], q, v)
    ensures Extends(s, Elect(s, v, q)) && InvDomain(Elect(s, v, q))
    ensures InvGlue(Elect(s, v, q)) && InvVotes(Elect(s, v, q))
  {
    var r := Elect(s, v, q);
    ElectExtends(s, v, q);
    ElectDomain(s, v, q);
    ElectGlue(s, v, q);
    forall u | u in r.tlog
      ensures VotedFor(r, u, r.elect[u], r.lead[u])
    {
      if u != s.term[v] { assert VotedFor(s, u, s.elect[u], s.lead[u]); }
    }
  }

  lemma ElectSafeAll(s: Core, v: Id, q: set<Id>)
    requires Inv(s) && v in s.ids && s.term[v] !in s.tlog && s.term[v] > 0
    requires (s.term[v], v) in s.cand && s.cand[(s.term[v], v)] == s.log[v]
    requires VotedFor(s, s.term[v], q, v)
    ensures InvSafe(Elect(s, v, q))
  {
    var r := Elect(s, v, q);
    ElectExtends(s, v, q);
    forall w, u, i | u in r.tlog
      ensures LeaderSafe(r, w, u, i)
    {
      if u != s.term[v] {
        LeaderStays(s, r, w, u, i);
      } else if w < u && Own(r, w, i) && Choosable(r, w, i) {
        ChoosableShrinks(s, r, w, i);
        ElectSafe(s, v, q, w, i);
      }
    }
  }

  lemma ElectKeepAll(s: Core, v: Id, q: set<Id>)
    requires Inv(s) && v in s.ids && s.term[v] !in s.tlog && s.term[v] > 0
    ensures InvKeep(Elect(s, v, q))
  {
    var r := Elect(s, v, q);
    ElectExtends(s, v, q);
    forall w, u, i | w in r.log
      ensures KeepSafe(r, w, u, i)
    {
      if u == s.term[v] {
        NoneOwnYet(s, v, q, i);
      } else if Own(r, u, i) && Choosable(r, u, i) && Acc(r, w, u) >= i {
        KeepStays(s, r, w, u, i);
      }
    }
  }

  lemma ElectKeeps(s: Core, v: Id, q: set<Id>)
    requires Inv(s) && v in s.ids && s.term[v] !in s.tlog && s.term[v] > 0
    requires (s.term[v], v) in s.cand && s.cand[(s.term[v], v)] == s.log[v]
    requires VotedFor(s, s.term[v], q, v)
    ensures Inv(Elect(s, v, q)) && Extends(s, Elect(s, v, q))
  {
    ElectBasics(s, v, q);
    BallotsStay(s, Elect(s, v, q));
    ElectSafeAll(s, v, q);
    ElectKeepAll(s, v, q);
    CommittedLogStays(s, Elect(s, v, q));
  }

  // A leader appends entries of its own term.

  ghost predicate Appendable(s: Core, v: Id, es: Log) {
    && v in s.ids && v in s.term && v in s.log && s.term[v] in s.tlog && s.tlog[s.term[v]] == s.log[v]
    && forall k :: 0 <= k < |es| ==> es[k].term == s.term[v] && es[k].index == |s.log[v]| + k + 1
  }

  lemma AppendExtends(s: Core, v: Id, es: Log)
    requires InvDomain(s) && Appendable(s, v, es)
    ensures Extends(s, Append(s, v, es))
  {
    var l := s.log[v];
    assert (l + es)[..|l|] == l[..|l|];
    assert Acc(s, v, s.term[v]) <= |l|;
  }

  lemma AppendDomain(s: Core, v: Id, es: Log)
    requires InvDomain(s) && Appendable(s, v, es)
    ensures InvDomain(Append(s, v, es))
  {
    var l := s.log[v];
    assert (l + es)[..|l|] == l[..|l|];
    assert Acc(s, v, s.term[v]) <= |l|;
  }

  lemma AppendGlued(s: Core, r: Core, l: Log, es: Log, t: nat)
    requires Glued(r, l) && t in r.tlog && r.tlog[t] == l + es
    requires forall k :: 0 <= k < |es| ==> es[k].term == t && es[k].index == |l| + k + 1
    ensures Glued(r, l + es)
  {
    forall k | 0 <= k < |l + es|
      ensures GluedAt(r, l + es, k)
    {
      if k < |l| {
        assert GluedAt(r, l, k);
        assert (l + es)[..k + 1] == l[..k + 1];
      }
    }
  }

  lemma AppendGlue(s: Core, v: Id, es: Log)
    requires InvDomain(s) && InvGlue(s) && Appendable(s, v, es) && Extends(s, Append(s, v, es))
    ensures InvGlue(Append(s, v, es))
  {
    hide Glued, Extends;
    var r := Append(s, v, es);
    GlueStays(s, r);
    AppendGlued(s, r, s.log[v], es, s.term[v]);
  }

  lemma AppendKeepOne(s: Core, v: Id, es: Log, w: Id, u: nat, i: nat)
    requires Inv(s) && Appendable(s, v, es) && w in s.ids && Extends(s, Append(s, v, es))
    ensures KeepSafe(Append(s, v, es), w, u, i)
  {
    var r := Append(s, v, es);
    if (w, u) != (v, s.term[v]) && Own(r, u, i) && Choosable(r, u, i) && Acc(r, w, u) >= i {
      KeepStays(s, r, w, u, i);
      SharesAppend(r.tlog[u], s.log[w], es, i);
    }
  }

  lemma SharesAppend(a: Log, b: Log, es: Log, i: nat)
    requires Shares(a, b, i)
    ensures Shares(a, b + es, i)
  {
    assert (b + es)[..i] == b[..i];
  }

  lemma AppendKeepAll(s: Core, v: Id, es: Log)
    requires Inv(s) && Appendable(s, v, es)
    ensures InvKeep(Append(s, v, es))
  {
    AppendExtends(s, v, es);
    forall w, u, i | w in s.ids
      ensures KeepSafe(Append(s, v, es), w, u, i)
    {
      AppendKeepOne(s, v, es, w, u, i);
    }
  }

  lemma AppendKeeps(s: Core, v: Id, es: Log)
    requires Inv(s) && Appendable(s, v, es)
    ensures Inv(Append(s, v, es)) && Extends(s, Append(s, v, es))
  {
    var r := Append(s, v, es);
    AppendExtends(s, v, es);
    AppendDomain(s, v, es);
    AppendGlue(s, v, es);
    assert InvVotes(r) by { VotesStay(s, r); }
    BallotsStay(s, r);
    LeadersStay(s, r);
    AppendKeepAll(s, v, es);
    CommittedLogStays(s, r);
  }

  // A node brings its log in line with the leader of its term, up to k.

  /** Nothing past k is common to the two logs. */
  ghost predicate CommonWithin(a: Log, b: Log, k: nat) {
    forall m: nat :: Shares(a, b, m) ==> m <= k
  }

  ghost predicate Matchable(s: Core, v: Id, k: nat, l: Log) {
    && v in s.ids && v in s.term && v in s.log && s.term[v] in s.tlog
    && Shares(l, s.tlog[s.term[v]], k)
    && (l == s.log[v] || (l == s.tlog[s.term[v]][..k] && CommonWithin(s.log[v], s.tlog[s.term[v]], k)))
  }

  lemma MatchExtends(s: Core, v: Id, k: nat, l: Log)
    requires InvDomain(s) && Matchable(s, v, k, l)
    ensures Extends(s, Match(s, v, k, l))
  {
  }

  lemma MatchDomain(s: Core, v: Id, k: nat, l: Log)
    requires InvDomain(s) && Matchable(s, v, k, l)
    ensures InvDomain(Match(s, v, k, l))
  {
  }

  lemma MatchGlue(s: Core, v: Id, k: nat, l: Log)
    requires InvDomain(s) && InvGlue(s) && Matchable(s, v, k, l) && Extends(s, Match(s, v, k, l))
    ensures InvGlue(Match(s, v, k, l))
  {
    var r := Match(s, v, k, l);
    GlueStays(s, r);
    if l != s.log[v] {
      GluedPrefix(r, s.tlog[s.term[v]], k);
    }
  }

  /** What the node had to keep survives the new log. */
  lemma MatchSafe(s: Core, v: Id, k: nat, l: Log, t: nat, i: nat)
    requires Inv(s) && Matchable(s, v, k, l)
    requires Own(s, t, i) && Choosable(s, t, i) && Acc(s, v, t) >= i
    ensures Shares(s.tlog[t], l, i)
  {
    assert KeepSafe(s, v, t, i);
    if l != s.log[v] {
      if t < s.term[v] {
        assert LeaderSafe(s, t, s.term[v], i);
      }
      assert Shares(s.log[v], s.tlog[s.term[v]], i);
      SharesLess(l, s.tlog[s.term[v]], i, k);
    }
  }

  lemma MatchKeepOne(s: Core, v: Id, k: nat, l: Log, w: Id, u: nat, i: nat)
    requires Inv(s) && Matchable(s, v, k, l) && w in s.ids && Extends(s, Match(s, v, k, l))
    ensures KeepSafe(Match(s, v, k, l), w, u, i)
  {
    hide InvGlue, InvVotes, InvBallots, InvSafe, InvCommitted, Choosable;
    var r := Match(s, v, k, l);
    if Own(r, u, i) && Choosable(r, u, i) && Acc(r, w, u) >= i {
      if Acc(s, w, u) < i {
        SharesLess(l, s.tlog[u], i, k);
      } else {
        KeepStays(s, r, w, u, i);
        if w == v { MatchSafe(s, v, k, l, u, i); }
      }
    }
  }

  lemma MatchKeepAll(s: Core, v: Id, k: nat, l: Log)
    requires Inv(s) && Matchable(s, v, k, l)
    ensures InvKeep(Match(s, v, k, l))
  {
    MatchExtends(s, v, k, l);
    forall w, u, i | w in s.ids
      ensures KeepSafe(Match(s, v, k, l), w, u, i)
    {
      MatchKeepOne(s, v, k, l, w, u, i);
    }
  }

  lemma MatchKeeps(s: Core, v: Id, k: nat, l: Log)
    requires Inv(s) && Matchable(s, v, k, l)
    ensures Inv(Match(s, v, k, l)) && Extends(s, Match(s, v, k, l))
  {
    var r := Match(s, v, k, l);
    MatchExtends(s, v, k, l);
    MatchDomain(s, v, k, l);
    MatchGlue(s, v, k, l);
    assert InvVotes(r) by { VotesStay(s, r); }
    BallotsStay(s, r);
    LeadersStay(s, r);
    MatchKeepAll(s, v, k, l);
    CommittedLogStays(s, r);
  }

  // A leader commits an entry of its own term.

  /** The committed log is a prefix of whatever is chosen beyond it. */
  lemma ChosenExtendsCommitted(s: Core, t: nat, i: nat)
    requires Inv(s) && Chosen(s, t, i) && i > |s.committed|
    ensures Shares(s.committed, s.tlog[t][..i], |s.committed|)
  {
    var n := |s.committed|;
    if n > 0 {
      ChosenAgree(s, LastTerm(s.committed), n, t, i, n);
      assert s.tlog[t][..i][..n] == s.tlog[t][..n];
    }
  }

  lemma CommitExtends(s: Core, t: nat, i: nat)
    requires InvDomain(s) && t in s.tlog && i <= |s.tlog[t]|
    requires i > |s.committed| ==> Shares(s.committed, s.tlog[t][..i], |s.committed|)
    ensures Extends(s, Commit(s, t, i))
  {
  }

  lemma CommitDomain(s: Core, t: nat, i: nat)
    requires InvDomain(s) && t in s.tlog && i <= |s.tlog[t]|
    requires i > |s.committed| ==> Shares(s.committed, s.tlog[t][..i], |s.committed|)
    ensures InvDomain(Commit(s, t, i))
  {
  }

  lemma CommitCommitted(s: Core, t: nat, i: nat)
    requires InvDomain(s) && InvCommitted(s) && Chosen(s, t, i) && Extends(s, Commit(s, t, i))
    ensures InvCommitted(Commit(s, t, i))
  {
    var r := Commit(s, t, i);
    if i > |s.committed| {
      ChosenStays(s, r, t, i);
      assert LastTerm(r.committed) == t;
    } else {
      CommittedLogStays(s, r);
    }
  }

  lemma CommitKeeps(s: Core, t: nat, i: nat)
    requires Inv(s) && Chosen(s, t, i)
    ensures Inv(Commit(s, t, i)) && Extends(s, Commit(s, t, i))
  {
    var r := Commit(s, t, i);
    if i > |s.committed| { ChosenExtendsCommitted(s, t, i); }
    CommitExtends(s, t, i);
    CommitDomain(s, t, i);
    assert InvGlue(r) by { GlueStays(s, r); }
    assert InvVotes(r) by { VotesStay(s, r); }
    BallotsStay(s, r);
    LeadersStay(s, r);
    KeepsStay(s, r);
    CommitCommitted(s, t, i);
  }
}
