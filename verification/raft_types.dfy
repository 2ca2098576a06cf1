/** Bytes, as the on-disk formats and opaque payloads use them. */
module Bytes {
  type Byte = b: nat | b < 256
  type Bytes = seq<Byte>
  type U32 = n: nat | n < 0x1_0000_0000

  /** crc32.ChecksumIEEE, or any function in its place. */
  type Checksum = Bytes -> U32
}

/** The values of raft/message.go, one message constructor per MessageType. */
module RaftTypes {
  import opened Bytes

  type Id = nat

  datatype Option<+T> = None | Some(value: T)

  datatype Role = Follower | PreCandidate | Candidate | Leader

  datatype Entry = Entry(term: nat, index: nat, data: Bytes)

  datatype Snapshot = Snapshot(lastIndex: nat, lastTerm: nat, data: Bytes)

  const NoSnapshot := Snapshot(0, 0, [])

  datatype Body =
    | PreVote(lastIndex: nat, lastTerm: nat)
    | PreVoteResponse(granted: bool)
    | RequestVote(lastIndex: nat, lastTerm: nat)
    | RequestVoteResponse(granted: bool)
    | AppendEntries(prevIndex: nat, prevTerm: nat, entries: seq<Entry>, commit: nat, readCtx: nat)
    | AppendEntriesResponse(success: bool, matchIndex: nat, readCtx: nat)
    | InstallSnapshot(snap: Snapshot)
    | InstallSnapshotResponse(matchIndex: nat)

  datatype Message = Message(from: Id, to: Id, term: nat, body: Body)

  datatype ReadState = ReadState(index: nat, ctx: nat)

  datatype PendingRead = PendingRead(index: nat, acked: set<Id>)

  /** What storage holds, and what `OpenStorage` gives back. */
  datatype Durable = Durable(term: nat, vote: Id, log: seq<Entry>, snapshot: Snapshot)
}
