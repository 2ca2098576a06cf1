/**
 * The disks of the cluster model are the storage files of its nodes.
 *
 * Over every possible run, each node's file opens to exactly the durable state the model
 * gives the node, and a crash at any byte of a Persist is a step of the model.
 */
module RaftFiles {
  import opened Bytes
  import opened RaftTypes
  import opened Wal
  import opened RaftRecords
  import opened RaftDisk
  import opened RaftCore
  import opened RaftNode
  import opened RaftCluster
  import opened RaftSteps
  import opened RaftRuns
  import opened RaftStable
  import opened RaftPolls

  type Files = map<Id, Bytes>

  /** The handler of an action ran to its Persist, and what it made fits on disk. */
  ghost predicate Handles(s: Cluster, a: Action, r: Node) {
    Possible(s, a) && a.v in s.disk && Persists(a) && HandledAt(s, a) == Some(r) && LogOk(r.log) && Sized(r)
  }

  lemma HandlesTracked(s: Cluster, a: Action, r: Node)
    requires Handles(s, a, r) && Polled(s)
    ensures Synced(s.nodes[a.v], s.disk[a.v]) && Tracked(s.nodes[a.v], r) && LogOk(s.disk[a.v].log)
  {
    hide Polled, NodePolled, DiskPolled, Handled, Tracked, Sized, Formed;
    PolledNode(s, a.v);
    PolledLog(s.core, s.nodes[a.v], a.v);
    if a.Deliver? { PolledMsg(s, a.m); }
    DiskTracks(s.nodes[a.v], s.disk[a.v], a, s.nextReadCtx[a.v]);
  }

  /** A Persist that completes leaves the file storing the model's new disk. */
  lemma DiskRefined(crc: Checksum, s: Cluster, a: Action, r: Node, b: Bytes, seqNum: nat)
    requires Handles(s, a, r) && Stores(crc, b, s.disk[a.v]) && Polled(s)
    ensures a.v in After(s, a).disk && Stores(crc, Persisted(crc, b, seqNum, r), After(s, a).disk[a.v])
  {
    hide Polled, Synced, Tracked, Stores, Persisted, Handled, History, Sized;
    HandlesTracked(s, a, r);
    PersistStores(crc, b, seqNum, s.nodes[a.v], s.disk[a.v], r);
  }

  /** A crash at any byte of Persist is a Crash step of the model. */
  lemma CrashRefined(crc: Checksum, s: Cluster, a: Action, r: Node, b: Bytes, seqNum: nat, left: Bytes)
    requires Handles(s, a, r) && Stores(crc, b, s.disk[a.v]) && Leaves(crc, b, seqNum, r, left) && Polled(s)
    ensures Open(crc, left).Some? && Possible(s, Crash(a.v, a, Open(crc, left).value))
    ensures Stores(crc, left[..ValidLen(crc, left)], Open(crc, left).value)
  {
    hide Polled, Synced, Tracked, Stores, Leaves, Handled, Open, Records, ValidLen, Recoverable, Sized;
    HandlesTracked(s, a, r);
    CrashStores(crc, b, seqNum, s.nodes[a.v], s.disk[a.v], r, left);
  }

  // ----------------------------------------------------------------- whole runs

  /** How the files change over a step. */
  ghost predicate FileStep(crc: Checksum, s: Cluster, a: Action, f: Files, g: Files) {
    && Possible(s, a) && f.Keys == s.nodes.Keys && g.Keys == f.Keys
    && (forall u :: u in f && u != a.v ==> g[u] == f[u])
    && if a.Crash? then
         exists r, seqNum: nat, left :: CrashedFile(crc, s, a, r, f[a.v], seqNum, left, g[a.v])
       else if Persists(a) && HandledAt(s, a).Some? then
         exists seqNum: nat :: PersistedFile(crc, s, a, f[a.v], seqNum, g[a.v])
       else g[a.v] == f[a.v]
  }

  ghost predicate PersistedFile(crc: Checksum, s: Cluster, a: Action, b: Bytes, seqNum: nat, c: Bytes)
    requires Possible(s, a) && Persists(a) && HandledAt(s, a).Some?
  {
    var r := HandledAt(s, a).value; Handles(s, a, r) && c == Persisted(crc, b, seqNum, r)
  }

  /** The crash cut the file somewhere, and reopening it removed the torn tail. */
  ghost predicate CrashedFile(crc: Checksum, s: Cluster, a: Action, r: Node, b: Bytes, seqNum: nat, left: Bytes, c: Bytes)
    requires a.Crash?
  {
    Handles(s, a.during, r) && a.during.v == a.v && Leaves(crc, b, seqNum, r, left) && Open(crc, left) == Some(a.left)
    && c == left[..ValidLen(crc, left)]
  }

  ghost predicate FileRun(crc: Checksum, states: seq<Cluster>, actions: seq<Action>, files: seq<Files>) {
    && PossibleRun(states, actions) && |states| == |actions| + 1 && |files| == |states|
    && files[0].Keys == states[0].nodes.Keys && (forall v :: v in files[0] ==> files[0][v] == [])
    && forall i :: 0 <= i < |actions| ==> FileStep(crc, states[i], actions[i], files[i], files[i + 1])
  }

  ghost predicate AllStore(crc: Checksum, s: Cluster, f: Files) {
    f.Keys == s.nodes.Keys && s.disk.Keys == s.nodes.Keys && forall v :: v in f ==> Stores(crc, f[v], s.disk[v])
  }

  /** Only the acting node's disk may change, and to this. */
  predicate DiskStep(s: Cluster, t: Cluster, v: Id, d: Durable) {
    v in s.nodes && v in s.disk && t.disk == s.disk[v := d] && t.nodes.Keys == s.nodes.Keys
  }

  lemma ReopenedDisk(s: Cluster, v: Id, d: Durable, c: Core)
    requires v in s.nodes && v in s.disk && LogOk(d.log)
    ensures DiskStep(s, Reopened(s, v, d, c), v, d)
  {
  }

  lemma DoneDisk(s: Cluster, a: Action, r: Node)
    requires Formed(s) && a.v in s.nodes && LogOk(r.log)
    ensures DiskStep(s, Done(s, a, r), a.v, DurableOf(r))
  {
    hide History;
  }

  lemma OtherDisks(s: Cluster, a: Action)
    requires Possible(s, a)
    ensures a.Crash? ==> DiskStep(s, After(s, a), a.v, a.left)
    ensures !a.Crash? && !(Persists(a) && HandledAt(s, a).Some?) ==> a.v in s.disk && DiskStep(s, After(s, a), a.v, s.disk[a.v])
    ensures Persists(a) && HandledAt(s, a).Some? ==> DiskStep(s, After(s, a), a.v, DurableOf(HandledAt(s, a).value))
  {
    hide Handled, History, HistCrash, Done, Reopened, DiskStep, DurableOf;
    match a
    case Restart(v) => ReopenedDisk(s, v, s.disk[v], s.core);
    case Crash(v, during, left) =>
      assert Possible(s, during);
      ReopenedDisk(s, v, left, HistCrash(s.core, s.nodes[v], HandledAt(s, during).value, during, s.disk[v], left));
    case Compact(v, index, data) =>
      if CompactPanics(s.nodes[v], index) { ReopenedDisk(s, v, s.disk[v], s.core); } else { CompactDisk(s, v, index, data); }
    case _ =>
      HandledLogOk(s.nodes[a.v], a, s.nextReadCtx[a.v]);
      if HandledAt(s, a).None? { ReopenedDisk(s, a.v, s.disk[a.v], s.core); } else { DoneDisk(s, a, HandledAt(s, a).value); }
  }

  lemma CompactDisk(s: Cluster, v: Id, index: nat, data: Bytes)
    requires v in s.nodes && v in s.disk && LogOk(s.nodes[v].log) && !CompactPanics(s.nodes[v], index)
    ensures DiskStep(s, s.(nodes := s.nodes[v := AfterCompact(s.nodes[v], index, data)]), v, s.disk[v])
  {
    assert s.disk[v := s.disk[v]] == s.disk;
  }

  lemma ActingDisk(crc: Checksum, s: Cluster, a: Action, f: Files, g: Files)
    requires Polled(s) && AllStore(crc, s, f) && FileStep(crc, s, a, f, g)
    ensures a.v in After(s, a).disk && Stores(crc, g[a.v], After(s, a).disk[a.v])
  {
    hide Polled, Stores, Persisted, Open, Leaves, Handles, After, ValidLen;
    OtherDisks(s, a);
    if a.Crash? {
      var r, seqNum: nat, left :| CrashedFile(crc, s, a, r, f[a.v], seqNum, left, g[a.v]);
      CrashRefined(crc, s, a.during, r, f[a.v], seqNum, left);
    } else if Persists(a) && HandledAt(s, a).Some? {
      var seqNum: nat :| PersistedFile(crc, s, a, f[a.v], seqNum, g[a.v]);
      DiskRefined(crc, s, a, HandledAt(s, a).value, f[a.v], seqNum);
    }
  }

  lemma StepStores(crc: Checksum, s: Cluster, a: Action, f: Files, g: Files)
    requires Polled(s) && AllStore(crc, s, f) && FileStep(crc, s, a, f, g)
    ensures AllStore(crc, After(s, a), g)
  {
    hide Polled, Stores, After;
    OtherDisks(s, a);
    ActingDisk(crc, s, a, f, g);
  }

  /** Over every possible run, with crashes at any byte, each file opens to the durable state of its node. */
  lemma {:induction false} RunStores(crc: Checksum, states: seq<Cluster>, actions: seq<Action>, files: seq<Files>, i: nat)
    requires FileRun(crc, states, actions, files) && i < |states|
    ensures AllStore(crc, states[i], files[i])
  {
    hide PossibleRun, Polled, AllStore, After, FileStep;
    if i == 0 {
      BlankStores(crc, states, actions, files);
    } else {
      RunStores(crc, states, actions, files, i - 1);
      RunPolled(states, actions, i - 1);
      PossibleStep(states, actions, i - 1);
      assert FileStep(crc, states[i - 1], actions[i - 1], files[i - 1], files[i]);
      StepStores(crc, states[i - 1], actions[i - 1], files[i - 1], files[i]);
    }
  }

  lemma BlankStores(crc: Checksum, states: seq<Cluster>, actions: seq<Action>, files: seq<Files>)
    requires FileRun(crc, states, actions, files)
    ensures AllStore(crc, states[0], files[0])
  {
    hide FileStep, Stores, Wired, Possible, After, Unwritten;
    EmptyFile(crc);
    assert Opened(Blank) == BlankDisk;
  }

  /**
   * After every Persist in any possible run, what OpenStorage would read is the node's own term, vote, log
   * and snapshot.
   */
  lemma PersistedInRun(crc: Checksum, states: seq<Cluster>, actions: seq<Action>, files: seq<Files>, i: nat)
    requires FileRun(crc, states, actions, files) && i < |actions|
    requires Persists(actions[i]) && Possible(states[i], actions[i]) && HandledAt(states[i], actions[i]).Some?
    ensures var v := actions[i].v;
            && v in files[i + 1] && v in states[i + 1].nodes
            && Open(crc, files[i + 1][v]) == Some(DurableOf(states[i + 1].nodes[v]))
  {
    hide PossibleRun, Polled, Handled, History, FileStep;
    RunStores(crc, states, actions, files, i + 1);
    PossibleStep(states, actions, i);
    HandledLogOk(states[i].nodes[actions[i].v], actions[i], states[i].nextReadCtx[actions[i].v]);
  }
}
