/** Majorities of a fixed cluster. */
module Quorums {
  import opened RaftTypes

  /** What `hasMajorityCount` asks of a set of distinct nodes. */
  ghost predicate IsQuorum(ids: set<Id>, q: set<Id>) {
    q <= ids && |q| >= |ids| / 2 + 1
  }

  lemma SubsetSize(a: set<Id>, b: set<Id>)
    requires a <= b
    ensures |a| <= |b|
  {
    assert b == a + (b - a);
  }

  lemma QuorumsMeet(ids: set<Id>, a: set<Id>, b: set<Id>) returns (v: Id)
    requires IsQuorum(ids, a) && IsQuorum(ids, b)
    ensures v in a && v in b && v in ids
  {
    if a * b == {} {
      assert |a + b| == |a| + |b|;
      SubsetSize(a + b, ids);
      assert false;
    }
    v :| v in a * b;
  }
}

/**
 * The protocol underneath the handlers, as a history.
 *
 * A `Core` records what the cluster has done so far: every node's term and
 * whole log (compacted prefix included), every leader's log, the log each
 * candidate ran with, every vote, how far each node has matched each leader,
 * and the longest log ever committed.  Seven events extend it.  `Inv` is
 * inductive over the events and contains leader completeness: an entry that
 * may still reach a majority in its own term is in every later leader's log.
 */
module RaftCore {
  import opened RaftTypes
  import opened Quorums

  /** A whole log: position k holds the entry with index k + 1. */
  type Log = seq<Entry>

  datatype Ballot = Ballot(term: nat, voter: Id, candidate: Id)

  datatype Core = Core(
    ids: set<Id>,
    term: map<Id, nat>,
    log: map<Id, Log>,
    tlog: map<nat, Log>,
    lead: map<nat, Id>,
    elect: map<nat, set<Id>>,
    cand: map<(nat, Id), Log>,
    votes: set<Ballot>,
    acc: map<(Id, nat), nat>,
    committed: Log)

  // ----------------------------------------------------------- vocabulary

  /** The two logs have the same first n entries. */
  ghost predicate Shares(a: Log, b: Log, n: nat) {
    n <= |a| && n <= |b| && a[..n] == b[..n]
  }

  function TermAt(l: Log, i: nat): nat {
    if 1 <= i <= |l| then l[i - 1].term else 0
  }

  function LastTerm(l: Log): nat { TermAt(l, |l|) }

  /** The up-to-date test of handlePreVote and handleRequestVote. */
  predicate UpToDate(lastTerm: nat, lastIndex: nat, l: Log) {
    lastTerm > LastTerm(l) || (lastTerm == LastTerm(l) && lastIndex >= |l|)
  }

  function Acc(s: Core, v: Id, t: nat): nat {
    if (v, t) in s.acc then s.acc[(v, t)] else 0
  }

  /** Index i of term t's leader log holds an entry of that very term. */
  ghost predicate Own(s: Core, t: nat, i: nat) {
    t in s.tlog && 1 <= i <= |s.tlog[t]| && s.tlog[t][i - 1].term == t
  }

  ghost predicate MayAck(s: Core, v: Id, t: nat, i: nat) {
    v in s.term && (s.term[v] <= t || Acc(s, v, t) >= i)
  }

  ghost predicate MayAckAll(s: Core, q: set<Id>, t: nat, i: nat) {
    forall v :: v in q ==> MayAck(s, v, t, i)
  }

  /** A majority has matched, or could still match, term t's leader up to i. */
  ghost predicate Choosable(s: Core, t: nat, i: nat) {
    exists q :: IsQuorum(s.ids, q) && MayAckAll(s, q, t, i)
  }

  ghost predicate MatchedBy(s: Core, q: set<Id>, t: nat, i: nat) {
    forall v :: v in q ==> Acc(s, v, t) >= i
  }

  /** A majority has matched term t's leader up to i, an entry of term t. */
  ghost predicate Chosen(s: Core, t: nat, i: nat) {
    Own(s, t, i) && exists q :: IsQuorum(s.ids, q) && MatchedBy(s, q, t, i)
  }

  /** The first n entries of l were committed by a leader of term at most t. */
  ghost predicate CommittedBy(s: Core, t: nat, l: Log, n: nat) {
    n == 0 || exists u: nat, i: nat :: CommittedVia(s, t, l, n, u, i)
  }

  ghost predicate CommittedVia(s: Core, t: nat, l: Log, n: nat, u: nat, i: nat) {
    u <= t && n <= i && Chosen(s, u, i) && Shares(l, s.tlog[u], n)
  }

  // ------------------------------------------------------------ invariant

  /** Every entry of l sits in its own term's leader log, with all before it. */
  ghost predicate Glued(s: Core, l: Log) {
    forall k :: 0 <= k < |l| ==> GluedAt(s, l, k)
  }

  ghost predicate GluedAt(s: Core, l: Log, k: nat)
    requires k < |l|
  {
    l[k].index == k + 1 && l[k].term in s.tlog && Shares(l, s.tlog[l[k].term], k + 1)
  }

  ghost predicate TermsAtMost(l: Log, t: nat) {
    forall k :: 0 <= k < |l| ==> l[k].term <= t
  }

  ghost predicate InvDomain(s: Core) {
    && s.term.Keys == s.ids && s.log.Keys == s.ids
    && s.lead.Keys == s.tlog.Keys && s.elect.Keys == s.tlog.Keys
    && (forall t :: t in s.tlog ==> s.lead[t] in s.ids && t > 0)
    && (forall b :: b in s.votes ==> b.voter in s.ids && b.term <= s.term[b.voter]
                                     && (b.term, b.candidate) in s.cand)
    && (forall k :: k in s.cand ==> k.1 in s.ids && k.0 <= s.term[k.1])
    && (forall k :: k in s.acc && s.acc[k] > 0 ==>
                      k.0 in s.ids && k.1 in s.tlog && k.1 <= s.term[k.0] && s.acc[k] <= |s.tlog[k.1]|)
  }

  ghost predicate InvGlue(s: Core) {
    && (forall v :: v in s.log ==> Glued(s, s.log[v]))
    && (forall v :: v in s.log && v in s.term ==> TermsAtMost(s.log[v], s.term[v]))
    && (forall t :: t in s.tlog ==> Glued(s, s.tlog[t]) && TermsAtMost(s.tlog[t], t))
    && (forall k :: k in s.cand ==> Glued(s, s.cand[k]))
  }

  ghost predicate InvVotes(s: Core)
    requires InvDomain(s)
  {
    && (forall a, b :: a in s.votes && b in s.votes && a.term == b.term && a.voter == b.voter
                       ==> a.candidate == b.candidate)
    && (forall t :: t in s.tlog ==> VotedFor(s, t, s.elect[t], s.lead[t]))
  }

  ghost predicate VotedFor(s: Core, t: nat, q: set<Id>, c: Id) {
    IsQuorum(s.ids, q) && forall v :: v in q ==> Ballot(t, v, c) in s.votes
  }

  /** What voter v had matched of term t, the candidate it voted for has too. */
  ghost predicate BallotSafe(s: Core, b: Ballot, t: nat, i: nat)
    requires (b.term, b.candidate) in s.cand
  {
    t < b.term && Own(s, t, i) && Choosable(s, t, i) && Acc(s, b.voter, t) >= i
    ==> Shares(s.tlog[t], s.cand[(b.term, b.candidate)], i)
  }

  ghost predicate InvBallots(s: Core)
    requires InvDomain(s)
  {
    forall b, t, i :: b in s.votes ==> BallotSafe(s, b, t, i)
  }

  ghost predicate LeaderSafe(s: Core, t: nat, u: nat, i: nat)
    requires u in s.tlog
  {
    t < u && Own(s, t, i) && Choosable(s, t, i) ==> Shares(s.tlog[t], s.tlog[u], i)
  }

  /** Leader completeness, for everything that may still be chosen. */
  ghost predicate InvSafe(s: Core) {
    forall t, u, i :: u in s.tlog ==> LeaderSafe(s, t, u, i)
  }

  ghost predicate KeepSafe(s: Core, v: Id, t: nat, i: nat)
    requires v in s.log
  {
    Own(s, t, i) && Choosable(s, t, i) && Acc(s, v, t) >= i ==> Shares(s.tlog[t], s.log[v], i)
  }

  /** A node keeps what it has matched for as long as that may be chosen. */
  ghost predicate InvKeep(s: Core) {
    forall v, t, i :: v in s.log ==> KeepSafe(s, v, t, i)
  }

  ghost predicate InvCommitted(s: Core) {
    s.committed != [] ==>
      var t := LastTerm(s.committed);
      Chosen(s, t, |s.committed|) && Shares(s.committed, s.tlog[t], |s.committed|)
  }

  ghost predicate Inv(s: Core) {
    InvDomain(s) && InvGlue(s) && InvVotes(s) && InvBallots(s) && InvSafe(s) && InvKeep(s) && InvCommitted(s)
  }

  // ------------------------------------------------------------- extension

  /** What every event does to the history: it only adds. */
  ghost predicate Extends(s: Core, r: Core) {
    && r.ids == s.ids
    && s.term.Keys == r.term.Keys == s.ids
    && (forall v :: v in s.term ==> s.term[v] <= r.term[v])
    && (forall t :: t in s.tlog ==> t in r.tlog && Shares(s.tlog[t], r.tlog[t], |s.tlog[t]|))
    && (forall t :: t in s.lead ==> t in r.lead && r.lead[t] == s.lead[t])
    && (forall k :: k in s.cand ==> k in r.cand && r.cand[k] == s.cand[k])
    && s.votes <= r.votes
    && (forall v, t :: Acc(s, v, t) <= Acc(r, v, t))
    && (forall v, t :: Acc(s, v, t) < Acc(r, v, t) ==> v in s.term && s.term[v] <= t)
    && Shares(s.committed, r.committed, |s.committed|)
  }

  lemma SharesLess(a: Log, b: Log, m: nat, n: nat)
    requires Shares(a, b, n) && m <= n
    ensures Shares(a, b, m)
  {
    assert a[..m] == a[..n][..m];
    assert b[..m] == b[..n][..m];
  }

  lemma OwnExtends(s: Core, r: Core, t: nat, i: nat)
    requires Extends(s, r) && Own(s, t, i)
    ensures Own(r, t, i) && Shares(s.tlog[t], r.tlog[t], i)
  {
    SharesLess(s.tlog[t], r.tlog[t], i, |s.tlog[t]|);
    assert s.tlog[t][i - 1] == s.tlog[t][..i][i - 1] == r.tlog[t][..i][i - 1];
  }

  lemma ChoosableShrinks(s: Core, r: Core, t: nat, i: nat)
    requires Extends(s, r) && Choosable(r, t, i)
    ensures Choosable(s, t, i)
  {
    var q :| IsQuorum(r.ids, q) && MayAckAll(r, q, t, i);
    forall v | v in q
      ensures MayAck(s, v, t, i)
    {
      assert MayAck(r, v, t, i);
      assert v in s.term;
      assert s.term[v] <= r.term[v];
    }
    assert MayAckAll(s, q, t, i);
  }

  lemma ChosenStays(s: Core, r: Core, t: nat, i: nat)
    requires Extends(s, r) && Chosen(s, t, i)
    ensures Chosen(r, t, i) && Shares(s.tlog[t], r.tlog[t], i)
  {
    OwnExtends(s, r, t, i);
    var q :| IsQuorum(s.ids, q) && MatchedBy(s, q, t, i);
    assert MatchedBy(r, q, t, i);
  }

  lemma ChosenChoosable(s: Core, t: nat, i: nat)
    requires InvDomain(s) && Chosen(s, t, i)
    ensures Choosable(s, t, i)
  {
    var q :| IsQuorum(s.ids, q) && MatchedBy(s, q, t, i);
    assert MayAckAll(s, q, t, i);
  }

  lemma CommittedStays(s: Core, r: Core, t: nat, l: Log, n: nat)
    requires Extends(s, r) && CommittedBy(s, t, l, n)
    ensures forall w: nat :: t <= w ==> CommittedBy(r, w, l, n)
  {
    if n > 0 {
      var u: nat, i: nat :| CommittedVia(s, t, l, n, u, i);
      ChosenStays(s, r, u, i);
      SharesLess(s.tlog[u], r.tlog[u], n, i);
      forall w: nat | t <= w
        ensures CommittedBy(r, w, l, n)
      {
        assert CommittedVia(r, w, l, n, u, i);
      }
    }
  }

  /** The same prefix of another log is committed just as well. */
  lemma CommittedCopy(s: Core, t: nat, l: Log, m: Log, n: nat)
    requires CommittedBy(s, t, l, n) && Shares(l, m, n)
    ensures CommittedBy(s, t, m, n)
  {
    if n > 0 {
      var u: nat, i: nat :| CommittedVia(s, t, l, n, u, i);
      assert CommittedVia(s, t, m, n, u, i);
    }
  }

  lemma CommittedLess(s: Core, t: nat, l: Log, m: nat, n: nat)
    requires CommittedBy(s, t, l, n) && m <= n
    ensures CommittedBy(s, t, l, m)
  {
    if m > 0 {
      var u: nat, i: nat :| CommittedVia(s, t, l, n, u, i);
      SharesLess(l, s.tlog[u], m, n);
      assert CommittedVia(s, t, l, m, u, i);
    }
  }

  lemma GluedExtends(s: Core, r: Core, l: Log)
    requires Extends(s, r) && Glued(s, l)
    ensures Glued(r, l)
  {
    forall k | 0 <= k < |l|
      ensures GluedAt(r, l, k)
    {
      assert GluedAt(s, l, k);
      var t := l[k].term;
      SharesLess(s.tlog[t], r.tlog[t], k + 1, |s.tlog[t]|);
    }
  }

  lemma GluedPrefix(s: Core, l: Log, n: nat)
    requires Glued(s, l) && n <= |l|
    ensures Glued(s, l[..n])
  {
    forall k | 0 <= k < n
      ensures GluedAt(s, l[..n], k)
    {
      assert GluedAt(s, l, k);
      assert l[..n][..k + 1] == l[..k + 1];
    }
  }

  // ------------------------------------------------ consequences of the invariant

  /** Log matching: two logs with the same term at i agree up to i. */
  lemma LogMatching(s: Core, a: Log, b: Log, i: nat)
    requires Glued(s, a) && Glued(s, b) && 1 <= i <= |a| && i <= |b| && a[i - 1].term == b[i - 1].term
    ensures Shares(a, b, i)
  {
    assert GluedAt(s, a, i - 1) && GluedAt(s, b, i - 1);
  }

  /** Leader completeness for what has been chosen. */
  lemma ChosenInLeader(s: Core, t: nat, i: nat, u: nat)
    requires Inv(s) && Chosen(s, t, i) && u in s.tlog && t <= u
    ensures Shares(s.tlog[t], s.tlog[u], i)
  {
    ChosenChoosable(s, t, i);
    assert LeaderSafe(s, t, u, i);
  }

  lemma CommittedInLeader(s: Core, t: nat, l: Log, n: nat, u: nat)
    requires Inv(s) && CommittedBy(s, t, l, n) && u in s.tlog && t <= u
    ensures Shares(l, s.tlog[u], n)
  {
    if n > 0 {
      var w: nat, i: nat :| CommittedVia(s, t, l, n, w, i);
      ChosenInLeader(s, w, i, u);
      SharesLess(s.tlog[w], s.tlog[u], n, i);
    }
  }

  /** Two chosen prefixes agree as far as both go. */
  lemma ChosenAgree(s: Core, t: nat, i: nat, u: nat, j: nat, n: nat)
    requires Inv(s) && Chosen(s, t, i) && Chosen(s, u, j) && n <= i && n <= j
    ensures Shares(s.tlog[t], s.tlog[u], n)
  {
    if t <= u {
      ChosenInLeader(s, t, i, u);
      SharesLess(s.tlog[t], s.tlog[u], n, i);
    } else {
      ChosenInLeader(s, u, j, t);
      SharesLess(s.tlog[u], s.tlog[t], n, j);
    }
  }

  /** Two committed prefixes agree as far as both go. */
  lemma CommittedAgree(s: Core, t: nat, a: Log, m: nat, u: nat, b: Log, n: nat)
    requires Inv(s) && CommittedBy(s, t, a, m) && CommittedBy(s, u, b, n) && m <= n
    ensures Shares(a, b, m)
  {
    if m > 0 {
      var t': nat, i: nat :| CommittedVia(s, t, a, m, t', i);
      var u': nat, j: nat :| CommittedVia(s, u, b, n, u', j);
      SharesLess(b, s.tlog[u'], m, n);
      ChosenAgree(s, t', i, u', j, m);
    }
  }

  lemma CommittedLog(s: Core)
    requires Inv(s)
    ensures CommittedBy(s, LastTerm(s.committed), s.committed, |s.committed|)
    ensures s.committed != [] ==> LastTerm(s.committed) in s.tlog && TermsAtMost(s.committed, LastTerm(s.committed))
  {
    if s.committed != [] {
      var t := LastTerm(s.committed);
      assert CommittedVia(s, t, s.committed, |s.committed|, t, |s.committed|);
      forall k | 0 <= k < |s.committed|
        ensures s.committed[k].term <= t
      {
        assert s.committed[k] == s.committed[..|s.committed|][k] == s.tlog[t][..|s.committed|][k];
      }
    }
  }

  /** What a node has committed is part of the one committed log. */
  lemma CommittedInLog(s: Core, t: nat, l: Log, n: nat)
    requires Inv(s) && CommittedBy(s, t, l, n) && n <= |s.committed|
    ensures Shares(l, s.committed, n)
  {
    CommittedLog(s);
    CommittedAgree(s, t, l, n, LastTerm(s.committed), s.committed, |s.committed|);
  }

  /** Two elected leaders of one term are one node. */
  lemma OneLeader(s: Core, t: nat, c: Id, q: set<Id>)
    requires Inv(s) && t in s.tlog && VotedFor(s, t, q, c)
    ensures s.lead[t] == c
  {
    var v := QuorumsMeet(s.ids, q, s.elect[t]);
    assert Ballot(t, v, c) in s.votes;
    assert Ballot(t, v, s.lead[t]) in s.votes;
  }

  /** The voters of an elected leader have all reached its term. */
  lemma VotersReached(s: Core, t: nat)
    requires Inv(s) && t in s.tlog
    ensures t in s.elect && IsQuorum(s.ids, s.elect[t])
    ensures forall v :: v in s.elect[t] ==> v in s.term && s.term[v] >= t
  {
    forall v | v in s.elect[t]
      ensures v in s.term && s.term[v] >= t
    {
      assert Ballot(t, v, s.lead[t]) in s.votes;
    }
  }
}
