/** Runs of a cluster: freshly made nodes, then any steps that are possible. */
module RaftRuns {
  import opened RaftTypes
  import opened RaftCore
  import opened RaftNode
  import opened RaftCluster
  import opened RaftSteps

  const BlankDisk := Durable(0, 0, [Entry(0, 0, [])], NoSnapshot)

  /** Every node as New makes it, each knowing all the others, and nothing sent yet. */
  ghost predicate Initial(s: Cluster) {
    && 0 !in s.nodes && s.disk.Keys == s.nodes.Keys && s.nextReadCtx.Keys == s.nodes.Keys
    && (forall v :: v in s.nodes ==> s.nodes[v] == NewNode(v, s.nodes[v].peers) && Wired(s.nodes.Keys, s.nodes[v], v))
    && (forall v :: v in s.nodes ==> s.disk[v] == BlankDisk && s.nextReadCtx[v] == 1)
    && s.net == {}
    && Unwritten(s.core, s.nodes.Keys)
  }

  /** The empty history. */
  ghost predicate Unwritten(c: Core, ids: set<Id>) {
    && c.ids == ids && c.term.Keys == ids && c.log.Keys == ids
    && (forall v :: v in ids ==> c.term[v] == 0 && c.log[v] == [])
    && c.tlog == map[] && c.lead == map[] && c.elect == map[] && c.cand == map[] && c.votes == {} && c.acc == map[]
    && c.committed == []
  }

  /**
   * The states a cluster goes through, and the actions between them: timeouts,
   * heartbeats, proposals, reads, deliveries of any message ever sent, compactions,
   * restarts, and crashes anywhere inside Persist.
   */
  ghost predicate PossibleRun(states: seq<Cluster>, actions: seq<Action>) {
    && |states| == |actions| + 1 && Initial(states[0])
    && forall i :: 0 <= i < |actions| ==> Possible(states[i], actions[i]) && states[i + 1] == After(states[i], actions[i])
  }

  lemma PossibleStep(states: seq<Cluster>, actions: seq<Action>, i: nat)
    requires PossibleRun(states, actions) && i < |actions|
    ensures |states| == |actions| + 1 && Possible(states[i], actions[i]) && states[i + 1] == After(states[i], actions[i])
  {
    hide Possible, Initial, After;
  }

  lemma PossibleStart(states: seq<Cluster>, actions: seq<Action>)
    requires PossibleRun(states, actions)
    ensures |states| == |actions| + 1 && Initial(states[0])
  {
    hide Initial, Possible, After;
  }
}
