/** One node as the code keeps it: the filled part of the log array with its parallel hashes, the
    latest snapshot, and the per-peer maps, as values. Each function is what one method of
    `nodeState` makes of them; `NodeState` performs the same steps in place.

    `digest` is the hash function; `gameState` is what the application answers when asked for a
    snapshot. */
module Replica {
  import opened Types
  import opened Agreement

  const CAPACITY := 1024

  /** A queued membership change; the ticket stands for its two reply channels. */
  datatype ConfigEntry = ConfigEntry(msg: ConfigChange, ticket: int)

  datatype Membership = Membership(
    serverConfig: set<ServerID>,
    oldServerConfig: set<ServerID>,
    lastConfigLogIndex: int,
    inConfigChange: bool,
    pendingConfigs: int,
    configQueue: seq<ConfigEntry>)

  datatype Node = Node(
    currentTerm: int,
    votedFor: Option<ServerID>,
    logs: seq<RaftLog>,
    hashes: seq<Bytes>,
    role: Role,
    commitIndex: int,
    lastApplied: int,
    currentLeader: Option<ServerID>,
    lastSnapshot: Option<Snapshot>,
    nextIndex: map<ServerID, int>,
    matchIndex: map<ServerID, int>,
    lastSentLogIndex: map<ServerID, int>,
    electionVotes: int,
    config: Membership)

  /** The hash of an entry's bytes followed by an earlier hash. */
  type Digest = (RaftLog, Bytes) -> Bytes

  // ---- state.go ----

  function LastIdx(n: Node): int {
    if n.logs != [] then n.logs[|n.logs| - 1].index
    else if n.lastSnapshot.Some? then n.lastSnapshot.value.lastIncludedIndex
    else -1
  }

  function LastIdxTerm(n: Node): int {
    if n.logs != [] then n.logs[|n.logs| - 1].term
    else if n.lastSnapshot.Some? then n.lastSnapshot.value.lastIncludedTerm
    else -1
  }

  /** The array position of an index, scanning back from the newest entry; -1 when absent. */
  function Find(logs: seq<RaftLog>, logIdx: int): (i: int)
    ensures -1 <= i < |logs|
    ensures i >= 0 ==> logs[i].index == logIdx
  {
    if logs == [] then -1
    else if logs[|logs| - 1].index == logIdx then |logs| - 1
    else Find(logs[..|logs| - 1], logIdx)
  }

  function LogHash(
      digest: Digest, logs: seq<RaftLog>, hashes: seq<Bytes>, snap: Option<Snapshot>, entry: RaftLog): Bytes
    requires |logs| <= |hashes| + 1
  {
    var i := Find(logs, entry.index);
    if i > 0 then digest(entry, hashes[i - 1])
    else if snap.Some? then digest(entry, snap.value.hash)
    else digest(entry, [])
  }

  function UpdateTerm(n: Node, term: int): Node {
    n.(currentTerm := term, votedFor := None)
  }

  function Persistent(n: Node): PersistentState {
    PersistentState(n.currentTerm, n.votedFor, n.logs)
  }

  // ---- election.go ----

  function StartElection(n: Node, id: ServerID): Node {
    n.(currentTerm := n.currentTerm + 1, role := Candidate, votedFor := Some(id), electionVotes := 1)
  }

  function PrepareRequestVote(n: Node, id: ServerID): RequestVoteArgs {
    RequestVoteArgs(n.currentTerm, id, LastIdx(n), LastIdxTerm(n))
  }

  predicate LogOK(n: Node, rva: RequestVoteArgs) {
    || rva.lastLogTerm > LastIdxTerm(n)
    || (rva.lastLogTerm == LastIdxTerm(n) && rva.lastLogIndex >= LastIdx(n))
  }

  predicate CanVote(n: Node, rva: RequestVoteArgs) {
    n.votedFor == None || n.votedFor == Some(rva.candidateID)
  }

  function HandleRequestToVote(n: Node, id: ServerID, rva: RequestVoteArgs): (Node, RequestVoteResponse) {
    if n.currentTerm > rva.term then
      (n, RequestVoteResponse(id, n.currentTerm, false))
    else
      var n1 := if n.currentTerm < rva.term then UpdateTerm(n, rva.term) else n;
      if CanVote(n1, rva) && LogOK(n1, rva) then
        (n1.(role := Follower, votedFor := Some(rva.candidateID), currentLeader := Some(rva.candidateID)),
         RequestVoteResponse(id, n1.currentTerm, true))
      else
        (n1, RequestVoteResponse(id, n1.currentTerm, false))
  }

  function UpdateElection(n: Node, resp: RequestVoteResponse): (Node, bool) {
    if resp.term > n.currentTerm then
      (UpdateTerm(n.(electionVotes := 0), resp.term).(role := Follower), false)
    else if resp.term == n.currentTerm && resp.voteGranted then
      var n1 := n.(electionVotes := n.electionVotes + 1);
      (n1, n1.electionVotes > |n.config.serverConfig| / 2)
    else
      (n, false)
  }

  /** The leader-only state a winner starts with. */
  function TakeOffice(n: Node, id: ServerID): Node {
    n.(electionVotes := 0, role := Leader, currentLeader := Some(id),
       nextIndex := map sid | sid in n.nextIndex :: LastIdx(n) + 1,
       matchIndex := n.matchIndex[id := -1],
       lastSentLogIndex := n.lastSentLogIndex[id := -1])
  }

  function WinElection(digest: Digest, n: Node, id: ServerID): Node
    requires |n.logs| == |n.hashes|
  {
    AddNoopLog(digest, TakeOffice(n, id), id)
  }

  // ---- log.go: the leader's side ----

  /** Leader-side append: hashed before the fill counter moves, so the new entry is not found. */
  function Append(digest: Digest, n: Node, id: ServerID, entry: RaftLog): Node
    requires |n.logs| == |n.hashes|
  {
    n.(logs := n.logs + [entry],
       hashes := n.hashes + [LogHash(digest, n.logs, n.hashes, n.lastSnapshot, entry)],
       matchIndex := n.matchIndex[id := entry.index],
       lastSentLogIndex := n.lastSentLogIndex[id := entry.index],
       nextIndex := n.nextIndex[id := entry.index + 1])
  }

  function AddNoopLog(digest: Digest, n: Node, id: ServerID): Node
    requires |n.logs| == |n.hashes|
  {
    if |n.logs| >= CAPACITY then n
    else Append(digest, n, id, RaftLog(LastIdx(n) + 1, n.currentTerm, LogNoop, [], NO_CHANGE, [], 0))
  }

  /** Appends a command, compacting a full array first; the index, or -1 when there is no room. */
  function AddCommandLog(
      digest: Digest, n: Node, id: ServerID, clientID: Bytes, seqNum: int, data: Bytes, gameState: Bytes)
      : (Node, int)
    requires |n.logs| == |n.hashes|
  {
    var entry := RaftLog(LastIdx(n) + 1, n.currentTerm, LogCommand, data, NO_CHANGE, clientID, seqNum);
    var n1 := if |n.logs| >= CAPACITY then TakeSnapshot(n, gameState).0 else n;
    if |n1.logs| >= CAPACITY then (n1, -1)
    else (Append(digest, n1, id, entry), entry.index)
  }

  function Get(m: map<ServerID, int>, id: ServerID): int {
    if id in m then m[id] else 0
  }

  /** Index and term of what stands before array position i; the end of the log when i is -1. */
  function PrevOf(n: Node, i: int): (int, int)
    requires i < |n.logs|
  {
    if i < 0 then (LastIdx(n), LastIdxTerm(n))
    else if i == 0 && n.lastSnapshot.Some? then
      (n.lastSnapshot.value.lastIncludedIndex, n.lastSnapshot.value.lastIncludedTerm)
    else if i > 0 then (n.logs[i - 1].index, n.logs[i - 1].term)
    else (-1, -1)
  }

  /** The request for a follower, or None when its next entry is inside the snapshot. */
  function GetAppendEntriesArgs(n: Node, id: ServerID): (Node, Option<AppendEntriesArgs>) {
    var next := Get(n.nextIndex, id);
    var i := Find(n.logs, next);
    if i < 0 && next <= LastIdx(n) then (n, None)
    else
      var entries := if i >= 0 then From(n.logs, i) else [];
      var prev := PrevOf(n, i);
      var sent := if entries != [] then entries[|entries| - 1].index else next - 1;
      (n.(lastSentLogIndex := n.lastSentLogIndex[id := sent]),
       Some(AppendEntriesArgs(n.currentTerm, n.currentLeader, prev.0, prev.1, entries, n.commitIndex)))
  }

  /** The new match index and whether the follower needs a snapshot. */
  function HandleAppendEntriesResponse(n: Node, aer: AppendEntriesResponse): (Node, int, bool) {
    if !aer.success then
      if aer.term > n.currentTerm then
        (UpdateTerm(n.(role := Follower), aer.term).(currentLeader := Some(aer.id)), -1, false)
      else
        var next := if aer.lastIndex >= 0 then aer.lastIndex else 0;
        (n.(nextIndex := n.nextIndex[aer.id := next]), -1,
         n.lastSnapshot.Some? && next <= n.lastSnapshot.value.lastIncludedIndex)
    else
      var sent := Get(n.lastSentLogIndex, aer.id);
      (n.(nextIndex := n.nextIndex[aer.id := sent + 1], matchIndex := n.matchIndex[aer.id := sent]), sent, false)
  }

  function HoldersOf(matchIndex: map<ServerID, int>, index: int): set<ServerID> {
    set sid | sid in matchIndex && matchIndex[sid] >= index
  }

  /** The scan of checkCommits over the first `count` array positions, newest first. */
  function CommitScan(n: Node, count: nat): int
    requires count <= |n.logs|
  {
    if count == 0 || n.logs[count - 1].index <= n.commitIndex then n.commitIndex
    else if |HoldersOf(n.matchIndex, n.logs[count - 1].index)| > |n.config.serverConfig| / 2
            && n.logs[count - 1].term == n.currentTerm then n.logs[count - 1].index
    else CommitScan(n, count - 1)
  }

  function CheckCommits(n: Node): Node {
    n.(commitIndex := CommitScan(n, |n.logs|))
  }

  /** The array position of the entry to apply next, or -1. */
  function UpdateLastApplied(n: Node): (Node, int) {
    if n.commitIndex <= n.lastApplied then (n, -1)
    else
      var i := Find(n.logs, n.lastApplied + 1);
      (if i >= 0 then n.(lastApplied := n.lastApplied + 1) else n, i)
  }

  // ---- log.go: the follower's side ----

  function Place(digest: Digest, n: Node, pos: nat, entry: RaftLog): Node
    requires pos <= |n.logs| == |n.hashes|
  {
    var logs := n.logs[..pos] + [entry];
    n.(logs := logs,
       hashes := n.hashes[..pos] + [LogHash(digest, logs, n.hashes[..pos], n.lastSnapshot, entry)])
  }

  function Configure(n: Node, pos: int, entry: RaftLog): Node {
    if entry.kind == LogConfiguration then n.(config := ApplyConfiguration(n.config, pos, entry.config)) else n
  }

  /** One turn of the merge loop: append, leave alone, or truncate and replace. */
  function MergeOne(digest: Digest, n: Node, pos: nat, entry: RaftLog): (n': Node)
    requires pos <= |n.logs| == |n.hashes|
    ensures pos < |n'.logs| == |n'.hashes|
  {
    if pos >= |n.logs| then Configure(Place(digest, n, pos, entry), pos, entry)
    else if SameIdTerm(n.logs[pos], entry) then n
    else
      var reverted :=
        if n.logs[pos].index <= n.config.lastConfigLogIndex
        then n.(config := n.config.(serverConfig := n.config.oldServerConfig)) else n;
      Configure(Place(digest, reverted, pos, entry), pos, entry)
  }

  function MergeLoop(digest: Digest, n: Node, pos: nat, entries: seq<RaftLog>): (n': Node)
    requires pos <= |n.logs| == |n.hashes|
    ensures |n'.logs| == |n'.hashes|
    decreases |entries|
  {
    if entries == [] then n else MergeLoop(digest, MergeOne(digest, n, pos, entries[0]), pos + 1, entries[1..])
  }

  function FollowerCommit(commit: int, aea: AppendEntriesArgs): int {
    if aea.leaderCommit <= commit then commit
    else if aea.entries == [] then aea.leaderCommit
    else
      var last := aea.entries[|aea.entries| - 1].index;
      if aea.leaderCommit <= last then aea.leaderCommit else last
  }

  /** The node once it has taken over the term of a request, as a follower. */
  function Following(n: Node, term: int): Node {
    (if term > n.currentTerm then UpdateTerm(n, term) else n).(role := Follower)
  }

  /** The array position of the entry before the new ones, or -1. */
  function PrevAt(n: Node, aea: AppendEntriesArgs): (i: int)
    ensures -1 <= i < |n.logs|
  {
    if aea.prevLogIndex >= 0 then Find(n.logs, aea.prevLogIndex) else -1
  }

  function MergeAndCommit(digest: Digest, n: Node, pos: nat, aea: AppendEntriesArgs): Node
    requires pos <= |n.logs| == |n.hashes|
  {
    var merged := MergeLoop(digest, n, pos, aea.entries);
    merged.(commitIndex := FollowerCommit(merged.commitIndex, aea))
  }

  function HandleAppendEntries(
      digest: Digest, n: Node, myID: ServerID, aea: AppendEntriesArgs, gameState: Bytes): (Node, AppendEntriesResponse)
    requires |n.logs| == |n.hashes|
  {
    var last := LastIdx(n);
    if aea.term < n.currentTerm then (n, AppendEntriesResponse(myID, n.currentTerm, false, last))
    else
      var n1 := Following(n, aea.term);
      var refusal := AppendEntriesResponse(myID, n1.currentTerm, false, last);
      var i := PrevAt(n, aea);
      if PrevRefused(n, aea, i) then (n1, refusal)
      else
        var n2 := n1.(currentLeader := aea.leaderID);
        if i + 1 + |aea.entries| >= CAPACITY then (TakeSnapshot(n2, gameState).0, refusal)
        else (MergeAndCommit(digest, n2, i + 1, aea), AppendEntriesResponse(myID, n1.currentTerm, true, last))
  }

  /** The consistency check on the entry before the new ones; i is its array position or -1. */
  predicate PrevRefused(n: Node, aea: AppendEntriesArgs, i: int)
    requires -1 <= i < |n.logs|
  {
    aea.prevLogIndex >= 0 &&
    if i < 0 then n.lastSnapshot == None || n.lastSnapshot.value.lastIncludedIndex < aea.prevLogIndex
    else n.logs[i].term != aea.prevLogTerm
  }

  // ---- snapshot.go ----

  function TakeSnapshot(n: Node, gameState: Bytes): (Node, bool)
    requires |n.logs| == |n.hashes|
  {
    var i := Find(n.logs, n.lastApplied);
    if i < 0 then (n, false)
    else
      var snap := Snapshot(n.logs[i].index, n.logs[i].term, gameState, n.config.serverConfig, n.hashes[i]);
      (CutAt(n, snap, i + 1), true)
  }

  /** The array from a position on, behind a snapshot. */
  function CutAt(n: Node, snap: Snapshot, start: nat): Node
    requires start <= |n.logs| == |n.hashes|
  {
    n.(lastSnapshot := Some(snap), logs := From(n.logs, start), hashes := From(n.hashes, start))
  }

  function PrepareInstallSnapshot(n: Node, leaderID: ServerID): InstallSnapshotArgs
    requires n.lastSnapshot.Some?
  {
    var snap := n.lastSnapshot.value;
    InstallSnapshotArgs(leaderID, n.currentTerm, snap.lastIncludedIndex, snap.lastIncludedTerm,
                        snap.data, snap.serverConfig, snap.hash)
  }

  /** The third part is what the application has to restore, if anything. */
  function HandleInstallSnapshotRequest(n: Node, myID: ServerID, isa: InstallSnapshotArgs)
      : (Node, InstallSnapshotResponse, Option<Bytes>)
  {
    if isa.term < n.currentTerm then (n, InstallSnapshotResponse(myID, n.currentTerm, false, 0, 0), None)
    else
      var n1 := if isa.term > n.currentTerm then UpdateTerm(n, isa.term) else n;
      var ack := InstallSnapshotResponse(myID, n1.currentTerm, true, isa.lastIncludedIndex, isa.lastIncludedTerm);
      if isa.lastIncludedIndex <= n1.lastApplied then (n1, ack, None)
      else
        var snap := Snapshot(isa.lastIncludedIndex, isa.lastIncludedTerm, isa.data, isa.serverConfiguration, isa.hash);
        (n1.(lastSnapshot := Some(snap), logs := [], hashes := [],
             commitIndex := isa.lastIncludedIndex, lastApplied := isa.lastIncludedIndex),
         ack, Some(isa.data))
  }

  function HandleInstallSnapshotResponse(n: Node, isr: InstallSnapshotResponse): (Node, int) {
    if !isr.success then
      (if isr.term >= n.currentTerm
       then UpdateTerm(n.(role := Follower), isr.term).(currentLeader := Some(isr.id)) else n, -1)
    else
      (n.(lastSentLogIndex := n.lastSentLogIndex[isr.id := isr.lastIncludedIndex],
          nextIndex := n.nextIndex[isr.id := isr.lastIncludedIndex + 1],
          matchIndex := n.matchIndex[isr.id := isr.lastIncludedIndex]),
       isr.lastIncludedIndex)
  }

  /** How many leading entries a snapshot up to `last` already covers. */
  function CoveredCount(entries: seq<RaftLog>, last: int): (k: nat)
    ensures k <= |entries|
    ensures forall i :: 0 <= i < k ==> entries[i].index <= last
    ensures k < |entries| ==> entries[k].index > last
  {
    if entries == [] || entries[0].index > last then 0 else 1 + CoveredCount(entries[1..], last)
  }

  function Purge(n: Node, aea: AppendEntriesArgs): AppendEntriesArgs {
    if n.lastSnapshot == None then aea
    else
      var k := CoveredCount(aea.entries, n.lastSnapshot.value.lastIncludedIndex);
      if k == 0 then aea
      else aea.(prevLogIndex := aea.entries[k - 1].index, prevLogTerm := aea.entries[k - 1].term,
                entries := From(aea.entries, k))
  }

  // ---- config_change.go ----

  function ApplyConfiguration(m: Membership, logIdx: int, cfg: ConfigChange): Membership {
    m.(oldServerConfig := m.serverConfig,
       serverConfig := if cfg.add then m.serverConfig + {cfg.server} else m.serverConfig - {cfg.server},
       lastConfigLogIndex := logIdx)
  }

  /** The configuration applies at once; the entry is dropped when the array is full. */
  function AddConfigLog(digest: Digest, n: Node, leaderID: ServerID, cfg: ConfigChange): Node
    requires |n.logs| == |n.hashes|
  {
    var entry := RaftLog(LastIdx(n) + 1, n.currentTerm, LogConfiguration, [], cfg, [], 0);
    var n1 := n.(config := ApplyConfiguration(n.config, LastIdx(n) + 1, cfg));
    if |n.logs| >= CAPACITY then n1 else Append(digest, n1, leaderID, entry)
  }

  function Enqueue(m: Membership, entry: ConfigEntry): Membership {
    m.(configQueue := m.configQueue + [entry], pendingConfigs := m.pendingConfigs + 1)
  }

  predicate QueueOk(m: Membership) {
    m.pendingConfigs == |m.configQueue|
  }

  function HandleNextConfigurationChange(digest: Digest, n: Node): (Node, Option<ConfigEntry>)
    requires |n.logs| == |n.hashes| && QueueOk(n.config)
  {
    if n.config.inConfigChange || n.config.pendingConfigs == 0 then (n, None)
    else
      var entry := n.config.configQueue[0];
      var n1 := n.(config := n.config.(
        inConfigChange := true, configQueue := n.config.configQueue[1..],
        pendingConfigs := n.config.pendingConfigs - 1));
      (AddConfigLog(digest, n1, Leading(n), entry.msg), Some(entry))
  }

  /** An unset current leader is the empty address. */
  function Leading(n: Node): ServerID {
    if n.currentLeader.Some? then n.currentLeader.value else ServerID([])
  }

  function UnlockNextConfiguration(m: Membership): Membership {
    m.(inConfigChange := false)
  }

  /** One turn of checkLogsToApply, as far as the node goes: a leader that applies a membership change
      lets the next one start. */
  function ApplyTurn(n: Node): (Node, int) {
    var out := UpdateLastApplied(n);
    if out.1 >= 0 && n.role == Leader && n.logs[out.1].kind == LogConfiguration
    then (out.0.(config := UnlockNextConfiguration(n.config)), out.1) else out
  }

  // ---- starting and restarting ----

  function NewNode(id: ServerID, peers: set<ServerID>): Node {
    Node(0, None, [], [], Follower, -1, -1, None, None,
         map p | p in peers :: 0, map p | p in peers :: -1, map p | p in peers :: -1, 0,
         Membership({id} + peers, {id} + peers, 0, false, 0, []))
  }

  const BLANK: Bytes := seq(32, _ => 0)

  function Take(logs: seq<RaftLog>): seq<RaftLog> {
    if |logs| <= CAPACITY then logs else logs[..CAPACITY]
  }

  /** Start: what a new node makes of the state and the snapshot it finds in storage. */
  function Recover(id: ServerID, peers: set<ServerID>, ps: PersistentState, snap: Option<Snapshot>): Node {
    var n := NewNode(id, peers);
    var n1 :=
      if ps.currentTerm > 0 then
        n.(currentTerm := ps.currentTerm, votedFor := ps.votedFor, logs := Take(ps.logs),
           hashes := seq(|Take(ps.logs)|, _ => BLANK))
      else n;
    if snap.Some? then
      n1.(lastSnapshot := snap, commitIndex := snap.value.lastIncludedIndex, lastApplied := snap.value.lastIncludedIndex)
    else n1
  }
}
