/** The values shared by every layer: identifiers, log entries, snapshots and the
    arguments and replies of the three RPCs. */
module Types {

  newtype byte = x: int | 0 <= x < 256

  type Bytes = seq<byte>

  datatype Option<+T> = None | Some(value: T)

  /** A node's address, typically "host:port", as bytes. */
  datatype ServerID = ServerID(addr: Bytes)

  datatype Role = Follower | Candidate | Leader

  datatype LogType = LogCommand | LogConfiguration | LogNoop

  datatype ConfigChange = ConfigChange(add: bool, server: ServerID)

  /** What entries that are no membership changes carry. */
  const NO_CHANGE := ConfigChange(false, ServerID([]))

  /** One log entry. `data`, `clientID` and `seqNum` belong to commands, `config` to
      membership changes. */
  datatype RaftLog = RaftLog(
    index: int,
    term: int,
    kind: LogType,
    data: Bytes,
    config: ConfigChange,
    clientID: Bytes,
    seqNum: int)

  datatype Snapshot = Snapshot(
    lastIncludedIndex: int,
    lastIncludedTerm: int,
    data: Bytes,
    serverConfig: set<ServerID>,
    hash: Bytes)

  datatype PersistentState = PersistentState(currentTerm: int, votedFor: Option<ServerID>, logs: seq<RaftLog>)

  datatype RequestVoteArgs = RequestVoteArgs(
    term: int, candidateID: ServerID, lastLogIndex: int, lastLogTerm: int)

  datatype RequestVoteResponse = RequestVoteResponse(id: ServerID, term: int, voteGranted: bool)

  datatype AppendEntriesArgs = AppendEntriesArgs(
    term: int,
    leaderID: Option<ServerID>,
    prevLogIndex: int,
    prevLogTerm: int,
    entries: seq<RaftLog>,
    leaderCommit: int)

  datatype AppendEntriesResponse = AppendEntriesResponse(
    id: ServerID, term: int, success: bool, lastIndex: int)

  datatype InstallSnapshotArgs = InstallSnapshotArgs(
    id: ServerID,
    term: int,
    lastIncludedIndex: int,
    lastIncludedTerm: int,
    data: Bytes,
    serverConfiguration: set<ServerID>,
    hash: Bytes)

  datatype InstallSnapshotResponse = InstallSnapshotResponse(
    id: ServerID, term: int, success: bool, lastIncludedIndex: int, lastIncludedTerm: int)
}
