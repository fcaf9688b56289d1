/** The mutable state of one node: a fixed array of entries with a parallel array of hashes and a
    fill counter, updated in place by the handlers. `State()` reads it as a `Replica.Node`; every
    method is proved to turn it into what the function of the same name in `Replica` says. */
module NodeState {
  import opened Types
  import opened Agreement
  import opened Replica

  const NO_ENTRY := RaftLog(0, 0, LogCommand, [], NO_CHANGE, [], 0)

  class NodeState {
    const digest: Digest

    // persistent
    var currentTerm: int
    var votedFor: Option<ServerID>
    const logs: array<RaftLog>
    const logHashes: array<Bytes>
    var nextLogIdx: int

    // volatile
    var role: Role
    var commitIndex: int
    var lastApplied: int
    var currentLeader: Option<ServerID>
    var lastSnapshot: Option<Snapshot>

    // leader only
    var nextIndex: map<ServerID, int>
    var matchIndex: map<ServerID, int>
    var lastSentLogIndex: map<ServerID, int>

    // election
    var electionVotes: int

    // cluster configuration
    var serverConfig: set<ServerID>
    var oldServerConfig: set<ServerID>
    var lastConfigLogIndex: int
    var inConfigChange: bool
    var pendingConfigs: int
    var configQueue: seq<ConfigEntry>

    ghost predicate Valid()
      reads this
    {
      && logs.Length == CAPACITY && logHashes.Length == CAPACITY
      && 0 <= nextLogIdx <= CAPACITY
    }

    ghost function Config(): Membership
      reads this
    {
      Membership(serverConfig, oldServerConfig, lastConfigLogIndex, inConfigChange, pendingConfigs, configQueue)
    }

    ghost function State(): (n: Node)
      requires Valid()
      reads this, logs, logHashes
      ensures |n.logs| == |n.hashes| == nextLogIdx
    {
      Node(currentTerm, votedFor, logs[..nextLogIdx], logHashes[..nextLogIdx], role, commitIndex, lastApplied,
           currentLeader, lastSnapshot, nextIndex, matchIndex, lastSentLogIndex, electionVotes, Config())
    }

    constructor (digest: Digest, id: ServerID, peers: set<ServerID>)
      ensures Valid() && fresh(logs) && fresh(logHashes)
      ensures this.digest == digest && State() == NewNode(id, peers)
      ensures forall i :: 0 <= i < CAPACITY ==> logHashes[i] == BLANK
    {
      this.digest := digest;
      currentTerm, votedFor, nextLogIdx := 0, None, 0;
      logs := new RaftLog[CAPACITY](_ => NO_ENTRY);
      logHashes := new Bytes[CAPACITY](_ => BLANK);
      role, commitIndex, lastApplied, currentLeader, lastSnapshot := Follower, -1, -1, None, None;
      nextIndex := map p | p in peers :: 0;
      matchIndex := map p | p in peers :: -1;
      lastSentLogIndex := map p | p in peers :: -1;
      electionVotes := 0;
      serverConfig, oldServerConfig := {id} + peers, {id} + peers;
      lastConfigLogIndex, inConfigChange, pendingConfigs, configQueue := 0, false, 0, [];
    }

    // ---- state.go ----

    method GetLastLogIdxTerm() returns (idx: int, term: int)
      requires Valid()
      ensures idx == LastIdx(State()) && term == LastIdxTerm(State())
    {
      if nextLogIdx > 0 {
        return logs[nextLogIdx - 1].index, logs[nextLogIdx - 1].term;
      }
      if lastSnapshot.Some? {
        return lastSnapshot.value.lastIncludedIndex, lastSnapshot.value.lastIncludedTerm;
      }
      return -1, -1;
    }

    /** Scans backwards from the newest entry. */
    method FindArrayIdxByLogIndex(logIdx: int) returns (found: bool, arrIdx: int)
      requires Valid()
      ensures arrIdx == Find(logs[..nextLogIdx], logIdx) && (found <==> arrIdx >= 0)
    {
      var i := nextLogIdx - 1;
      while i >= 0
        invariant -1 <= i < nextLogIdx
        invariant Find(logs[..nextLogIdx], logIdx) == Find(logs[..i + 1], logIdx)
      {
        if logs[i].index == logIdx {
          return true, i;
        }
        assert logs[..i + 1][..i] == logs[..i];
        i := i - 1;
      }
      return false, -1;
    }

    method GetLogHash(entry: RaftLog) returns (hash: Bytes)
      requires Valid()
      ensures hash == LogHash(digest, logs[..nextLogIdx], logHashes[..nextLogIdx], lastSnapshot, entry)
    {
      var _, arrIdx := FindArrayIdxByLogIndex(entry.index);
      if arrIdx > 0 {
        return digest(entry, logHashes[arrIdx - 1]);
      }
      if lastSnapshot.Some? {
        return digest(entry, lastSnapshot.value.hash);
      }
      return digest(entry, []);
    }

    /** Shifts both arrays down after a compaction. */
    method CopyLogsToBeginning(startLog: nat)
      requires Valid() && startLog <= nextLogIdx
      modifies this`nextLogIdx, logs, logHashes
      ensures Valid() && nextLogIdx == old(nextLogIdx) - startLog
      ensures logs[..nextLogIdx] == From(old(logs[..nextLogIdx]), startLog)
      ensures logHashes[..nextLogIdx] == From(old(logHashes[..nextLogIdx]), startLog)
    {
      var dst := 0;
      while startLog + dst < nextLogIdx
        invariant nextLogIdx == old(nextLogIdx) && 0 <= dst <= nextLogIdx - startLog
        invariant forall k :: 0 <= k < dst ==> logs[k] == old(logs[startLog + k])
        invariant forall k :: 0 <= k < dst ==> logHashes[k] == old(logHashes[startLog + k])
        invariant forall k :: startLog + dst <= k < CAPACITY ==> logs[k] == old(logs[k])
        invariant forall k :: startLog + dst <= k < CAPACITY ==> logHashes[k] == old(logHashes[k])
      {
        logs[dst] := logs[startLog + dst];
        logHashes[dst] := logHashes[startLog + dst];
        dst := dst + 1;
      }
      nextLogIdx := dst;
    }

    method UpdateCurrentTerm(term: int)
      requires Valid()
      modifies this`currentTerm, this`votedFor
      ensures Valid() && State() == UpdateTerm(old(State()), term)
    {
      currentTerm, votedFor := term, None;
    }

    method GetPersistentState() returns (ps: PersistentState)
      requires Valid()
      ensures ps == Persistent(State())
    {
      return PersistentState(currentTerm, votedFor, logs[..nextLogIdx]);
    }

    // ---- election.go ----

    method StartElection(id: ServerID)
      requires Valid()
      modifies this
      ensures Valid() && State() == Replica.StartElection(old(State()), id)
    {
      currentTerm := currentTerm + 1;
      role := Candidate;
      votedFor := Some(id);
      electionVotes := 1;
    }

    method PrepareRequestVoteRPC(id: ServerID) returns (rva: RequestVoteArgs)
      requires Valid()
      ensures rva == PrepareRequestVote(State(), id)
    {
      var lastIdx, lastTerm := GetLastLogIdxTerm();
      return RequestVoteArgs(currentTerm, id, lastIdx, lastTerm);
    }

    method HandleRequestToVote(id: ServerID, rva: RequestVoteArgs) returns (resp: RequestVoteResponse)
      requires Valid()
      modifies this
      ensures Valid() && (State(), resp) == Replica.HandleRequestToVote(old(State()), id, rva)
    {
      var lastIdx, lastTerm := GetLastLogIdxTerm();
      if currentTerm > rva.term {
        return RequestVoteResponse(id, currentTerm, false);
      }
      if currentTerm < rva.term {
        UpdateCurrentTerm(rva.term);
      }
      var canVote := votedFor == None || votedFor == Some(rva.candidateID);
      var logOK := rva.lastLogTerm > lastTerm || (rva.lastLogTerm == lastTerm && rva.lastLogIndex >= lastIdx);
      if canVote && logOK {
        role := Follower;
        votedFor := Some(rva.candidateID);
        currentLeader := Some(rva.candidateID);
        return RequestVoteResponse(id, currentTerm, true);
      }
      return RequestVoteResponse(id, currentTerm, false);
    }

    method UpdateElection(resp: RequestVoteResponse) returns (won: bool)
      requires Valid()
      modifies this
      ensures Valid() && (State(), won) == Replica.UpdateElection(old(State()), resp)
    {
      if resp.term > currentTerm {
        electionVotes := 0;
        UpdateCurrentTerm(resp.term);
        role := Follower;
        return false;
      }
      if resp.term == currentTerm && resp.voteGranted {
        electionVotes := electionVotes + 1;
        if electionVotes > |serverConfig| / 2 {
          return true;
        }
      }
      return false;
    }

    method WinElection(id: ServerID)
      requires Valid()
      modifies this, logs, logHashes
      ensures Valid() && State() == Replica.WinElection(digest, old(State()), id)
    {
      TakeOffice(id);
      AddNoopLogLocked(id);
    }

    method TakeOffice(id: ServerID)
      requires Valid()
      modifies this
      ensures Valid() && State() == Replica.TakeOffice(old(State()), id)
    {
      var lastIdx, _ := GetLastLogIdxTerm();
      electionVotes := 0;
      role := Leader;
      currentLeader := Some(id);
      nextIndex := ResetNext(nextIndex, lastIdx);
      matchIndex := matchIndex[id := -1];
      lastSentLogIndex := lastSentLogIndex[id := -1];
    }

    /** The loop over the peers: each one's next index becomes the one after the last entry. */
    static method ResetNext(next: map<ServerID, int>, lastIdx: int) returns (r: map<ServerID, int>)
      ensures r == map sid | sid in next :: lastIdx + 1
    {
      r := next;
      var todo := next.Keys;
      while todo != {}
        invariant r.Keys == next.Keys && todo <= next.Keys
        invariant forall sid :: sid in next && sid !in todo ==> r[sid] == lastIdx + 1
        decreases todo
      {
        var sid :| sid in todo;
        r := r[sid := lastIdx + 1];
        todo := todo - {sid};
      }
    }

    // ---- log.go: the leader's side ----

    /** Stores an entry at the fill position; its hash is taken before the counter moves. */
    method StoreLast(entry: RaftLog)
      requires Valid() && nextLogIdx < CAPACITY
      modifies this`nextLogIdx, logs, logHashes
      ensures Valid() && nextLogIdx == old(nextLogIdx) + 1
      ensures logs[..nextLogIdx] == old(logs[..nextLogIdx]) + [entry]
      ensures logHashes[..nextLogIdx] == old(logHashes[..nextLogIdx]) +
                [LogHash(digest, old(logs[..nextLogIdx]), old(logHashes[..nextLogIdx]), lastSnapshot, entry)]
    {
      logs[nextLogIdx] := entry;
      assert logs[..nextLogIdx] == old(logs[..nextLogIdx]);
      var hash := GetLogHash(entry);
      logHashes[nextLogIdx] := hash;
      nextLogIdx := nextLogIdx + 1;
    }

    /** The leader's own bookkeeping for an entry it has just stored. */
    method CreditSelf(id: ServerID, index: int)
      modifies this`matchIndex, this`lastSentLogIndex, this`nextIndex
      ensures matchIndex == old(matchIndex)[id := index]
      ensures lastSentLogIndex == old(lastSentLogIndex)[id := index]
      ensures nextIndex == old(nextIndex)[id := index + 1]
    {
      matchIndex := matchIndex[id := index];
      lastSentLogIndex := lastSentLogIndex[id := index];
      nextIndex := nextIndex[id := index + 1];
    }

    method AppendLocked(id: ServerID, entry: RaftLog)
      requires Valid() && nextLogIdx < CAPACITY
      modifies this`nextLogIdx, this`matchIndex, this`lastSentLogIndex, this`nextIndex, logs, logHashes
      ensures Valid() && State() == Append(digest, old(State()), id, entry)
    {
      CreditSelf(id, entry.index);
      StoreLast(entry);
    }

    method AddNoopLogLocked(id: ServerID)
      requires Valid()
      modifies this, logs, logHashes
      ensures Valid() && State() == AddNoopLog(digest, old(State()), id)
    {
      var lastIdx, _ := GetLastLogIdxTerm();
      if nextLogIdx >= CAPACITY {
        return;
      }
      AppendLocked(id, RaftLog(lastIdx + 1, currentTerm, LogNoop, [], NO_CHANGE, [], 0));
    }

    method AddCommandLog(id: ServerID, clientID: Bytes, seqNum: int, data: Bytes, gameState: Bytes)
      returns (index: int)
      requires Valid()
      modifies this, logs, logHashes
      ensures Valid()
      ensures (State(), index) == Replica.AddCommandLog(digest, old(State()), id, clientID, seqNum, data, gameState)
    {
      var lastIdx, _ := GetLastLogIdxTerm();
      var entry := RaftLog(lastIdx + 1, currentTerm, LogCommand, data, NO_CHANGE, clientID, seqNum);
      var ok := MakeRoom(gameState);
      if !ok {
        return -1;
      }
      AppendLocked(id, entry);
      return entry.index;
    }

    /** Compacts a full array; false when there is still no room. */
    method MakeRoom(gameState: Bytes) returns (ok: bool)
      requires Valid()
      modifies this`lastSnapshot, this`nextLogIdx, logs, logHashes
      ensures Valid() && ok == (nextLogIdx < CAPACITY)
      ensures State() == if old(nextLogIdx) >= CAPACITY then Replica.TakeSnapshot(old(State()), gameState).0
                         else old(State())
    {
      if nextLogIdx >= CAPACITY {
        var taken := TakeSnapshot(gameState);
        return taken && nextLogIdx < CAPACITY;
      }
      return true;
    }

    method LogsFrom(arrLogIdx: int) returns (entries: seq<RaftLog>)
      requires Valid() && arrLogIdx < nextLogIdx
      ensures entries == if arrLogIdx >= 0 then From(logs[..nextLogIdx], arrLogIdx) else []
    {
      if arrLogIdx < 0 {
        return [];
      }
      entries := logs[arrLogIdx..nextLogIdx];
      assert entries == From(logs[..nextLogIdx], arrLogIdx);
    }

    method PrevIdxTerm(arrLogIdx: int) returns (idx: int, term: int)
      requires Valid() && arrLogIdx < nextLogIdx
      ensures (idx, term) == PrevOf(State(), arrLogIdx)
    {
      if arrLogIdx < 0 {
        idx, term := GetLastLogIdxTerm();
      } else if arrLogIdx == 0 && lastSnapshot.Some? {
        return lastSnapshot.value.lastIncludedIndex, lastSnapshot.value.lastIncludedTerm;
      } else if arrLogIdx > 0 {
        return logs[arrLogIdx - 1].index, logs[arrLogIdx - 1].term;
      } else {
        return -1, -1;
      }
    }

    method GetAppendEntriesArgs(id: ServerID) returns (args: Option<AppendEntriesArgs>)
      requires Valid()
      modifies this
      ensures Valid() && (State(), args) == Replica.GetAppendEntriesArgs(old(State()), id)
    {
      var myLastIdx, _ := GetLastLogIdxTerm();
      var serverNextIdx := Get(nextIndex, id);
      var found, arrLogIdx := FindArrayIdxByLogIndex(serverNextIdx);
      if !found && serverNextIdx <= myLastIdx {
        return None;
      }
      var logsToSend := LogsFrom(arrLogIdx);
      var prevLogIdx, prevLogTerm := PrevIdxTerm(arrLogIdx);
      if |logsToSend| > 0 {
        lastSentLogIndex := lastSentLogIndex[id := logsToSend[|logsToSend| - 1].index];
      } else {
        lastSentLogIndex := lastSentLogIndex[id := serverNextIdx - 1];
      }
      return Some(AppendEntriesArgs(currentTerm, currentLeader, prevLogIdx, prevLogTerm, logsToSend, commitIndex));
    }

    method HandleAppendEntriesResponse(aer: AppendEntriesResponse) returns (matched: int, needSnapshot: bool)
      requires Valid()
      modifies this
      ensures Valid()
      ensures (State(), matched, needSnapshot) == Replica.HandleAppendEntriesResponse(old(State()), aer)
    {
      if !aer.success {
        if aer.term > currentTerm {
          role := Follower;
          UpdateCurrentTerm(aer.term);
          currentLeader := Some(aer.id);
          return -1, false;
        }
        if aer.lastIndex >= 0 {
          nextIndex := nextIndex[aer.id := aer.lastIndex];
        } else {
          nextIndex := nextIndex[aer.id := 0];
        }
        needSnapshot := lastSnapshot.Some? && nextIndex[aer.id] <= lastSnapshot.value.lastIncludedIndex;
        return -1, needSnapshot;
      }
      nextIndex := nextIndex[aer.id := Get(lastSentLogIndex, aer.id) + 1];
      matchIndex := matchIndex[aer.id := Get(lastSentLogIndex, aer.id)];
      return matchIndex[aer.id], false;
    }

    /** The inner count of checkCommits: how many peers have replicated an index. */
    static method CountReplicated(matched: map<ServerID, int>, index: int) returns (replicated: nat)
      ensures replicated == |HoldersOf(matched, index)|
    {
      replicated := 0;
      var seen: set<ServerID> := {};
      var todo := matched.Keys;
      while todo != {}
        invariant todo !! seen && todo + seen == matched.Keys
        invariant replicated == |HoldersAmong(matched, index, seen)|
        decreases todo
      {
        var sid :| sid in todo;
        HoldersGrow(matched, index, seen, sid);
        if matched[sid] >= index {
          replicated := replicated + 1;
        }
        todo, seen := todo - {sid}, seen + {sid};
      }
      assert HoldersAmong(matched, index, seen) == HoldersOf(matched, index);
    }

    method CheckCommits()
      requires Valid()
      modifies this`commitIndex
      ensures Valid() && State() == Replica.CheckCommits(old(State()))
    {
      ghost var n := State();
      var i := nextLogIdx - 1;
      while i >= 0
        invariant -1 <= i < nextLogIdx && commitIndex == old(commitIndex)
        invariant CommitScan(n, |n.logs|) == CommitScan(n, i + 1)
      {
        if logs[i].index <= commitIndex {
          break;
        }
        var replicated := CountReplicated(matchIndex, logs[i].index);
        if replicated > |serverConfig| / 2 && logs[i].term == currentTerm {
          commitIndex := logs[i].index;
          break;
        }
        i := i - 1;
      }
    }

    method UpdateLastApplied() returns (arrIdx: int)
      requires Valid()
      modifies this`lastApplied
      ensures Valid() && (State(), arrIdx) == Replica.UpdateLastApplied(old(State()))
    {
      if commitIndex <= lastApplied {
        return -1;
      }
      var _, i := FindArrayIdxByLogIndex(lastApplied + 1);
      if i >= 0 {
        lastApplied := lastApplied + 1;
      }
      return i;
    }

    // ---- log.go: the follower's side ----

    /** Overwrites or extends the array at a position and hashes with the counter already moved. */
    method PlaceAt(pos: nat, entry: RaftLog)
      requires Valid() && pos <= nextLogIdx && pos < CAPACITY
      modifies this`nextLogIdx, logs, logHashes
      ensures Valid() && State() == Place(digest, old(State()), pos, entry)
    {
      ghost var before := logs[..nextLogIdx];
      ghost var hashes := logHashes[..nextLogIdx];
      logs[pos] := entry;
      nextLogIdx := pos + 1;
      var hash := GetLogHash(entry);
      logHashes[pos] := hash;
      assert logs[..nextLogIdx] == before[..pos] + [entry];
      assert hash == LogHash(digest, logs[..nextLogIdx], hashes[..pos], lastSnapshot, entry);
      assert logHashes[..nextLogIdx] == hashes[..pos] + [hash];
    }

    method ApplyConfigurationLocked(logIdx: int, cfg: ConfigChange)
      modifies this`serverConfig, this`oldServerConfig, this`lastConfigLogIndex
      ensures Config() == ApplyConfiguration(old(Config()), logIdx, cfg)
    {
      oldServerConfig := serverConfig;
      if cfg.add {
        serverConfig := serverConfig + {cfg.server};
      } else {
        serverConfig := serverConfig - {cfg.server};
      }
      lastConfigLogIndex := logIdx;
    }

    /** Stores an entry and, when it is a membership change, applies it at once. */
    method StoreEntry(pos: nat, entry: RaftLog)
      requires Valid() && pos <= nextLogIdx && pos < CAPACITY
      modifies this`nextLogIdx, this`serverConfig, this`oldServerConfig, this`lastConfigLogIndex, logs, logHashes
      ensures Valid() && pos < nextLogIdx
      ensures State() == Configure(Place(digest, old(State()), pos, entry), pos, entry)
    {
      PlaceAt(pos, entry);
      if entry.kind == LogConfiguration {
        ApplyConfigurationLocked(pos, entry.config);
      }
    }

    method RevertConfiguration()
      requires Valid()
      modifies this`serverConfig
      ensures Valid()
      ensures State() == old(State()).(config := old(Config()).(serverConfig := oldServerConfig))
    {
      serverConfig := oldServerConfig;
    }

    method MergeEntry(pos: nat, entry: RaftLog)
      requires Valid() && pos <= nextLogIdx && pos < CAPACITY
      modifies this, logs, logHashes
      ensures Valid() && pos < nextLogIdx && State() == MergeOne(digest, old(State()), pos, entry)
    {
      if pos >= nextLogIdx {
        StoreEntry(pos, entry);
      } else if logs[pos].index != entry.index || logs[pos].term != entry.term {
        if logs[pos].index <= lastConfigLogIndex {
          RevertConfiguration();
        }
        StoreEntry(pos, entry);
      }
    }

    /** The merge loop of handleAppendEntries. */
    method MergeEntries(startNext: nat, entries: seq<RaftLog>)
      requires Valid() && startNext <= nextLogIdx && startNext + |entries| < CAPACITY
      modifies this, logs, logHashes
      ensures Valid() && State() == MergeLoop(digest, old(State()), startNext, entries)
    {
      var i := 0;
      ghost var trace := [State()];
      while i < |entries|
        invariant 0 <= i <= |entries| && Valid() && startNext + i <= nextLogIdx
        invariant |trace| == i + 1 && trace[0] == old(State()) && trace[i] == State()
        invariant Turns(digest, trace, startNext, entries)
      {
        MergeEntry(startNext + i, entries[i]);
        TurnsGrow(digest, trace, startNext, entries, State());
        trace := trace + [State()];
        i := i + 1;
      }
      TurnsAreLoop(digest, trace, startNext, entries, 0);
      assert From(entries, 0) == entries;
    }

    /** Step 2: the array position of the previous entry, or a refusal. */
    method CheckPrev(aea: AppendEntriesArgs) returns (refused: bool, arrIdx: int)
      requires Valid()
      ensures arrIdx == PrevAt(State(), aea)
      ensures refused == PrevRefused(State(), aea, arrIdx)
    {
      if aea.prevLogIndex < 0 {
        return false, -1;
      }
      var found, i := FindArrayIdxByLogIndex(aea.prevLogIndex);
      if !found {
        refused := lastSnapshot == None || lastSnapshot.value.lastIncludedIndex < aea.prevLogIndex;
      } else {
        refused := logs[i].term != aea.prevLogTerm;
      }
      return refused, i;
    }

    /** Steps 3 to 5, once the previous entry matches. */
    method MergeAndCommit(startNext: nat, aea: AppendEntriesArgs)
      requires Valid() && startNext <= nextLogIdx && startNext + |aea.entries| < CAPACITY
      modifies this, logs, logHashes
      ensures Valid()
      ensures State() == Replica.MergeAndCommit(digest, old(State()), startNext, aea)
    {
      MergeEntries(startNext, aea.entries);
      AdvanceFollowerCommit(aea);
    }

    /** Adopts a newer term, and steps down from Candidate or Leader. */
    method FollowTerm(term: int)
      requires Valid() && term >= currentTerm
      modifies this`currentTerm, this`votedFor, this`role
      ensures Valid()
      ensures State() == Following(old(State()), term)
    {
      if term > currentTerm {
        UpdateCurrentTerm(term);
      }
      if role == Candidate || role == Leader {
        role := Follower;
      }
    }

    method HandleAppendEntries(myID: ServerID, aea: AppendEntriesArgs, gameState: Bytes)
      returns (resp: AppendEntriesResponse)
      requires Valid()
      modifies this, logs, logHashes
      ensures Valid()
      ensures (State(), resp) == Replica.HandleAppendEntries(digest, old(State()), myID, aea, gameState)
    {
      var lastIdx, _ := GetLastLogIdxTerm();
      if aea.term < currentTerm {
        return AppendEntriesResponse(myID, currentTerm, false, lastIdx);
      }
      FollowTerm(aea.term);
      resp := AppendEntriesResponse(myID, currentTerm, false, lastIdx);
      var refused, prevLogArrIdx := CheckPrev(aea);
      if refused {
        return;
      }
      currentLeader := aea.leaderID;
      var startNext := prevLogArrIdx + 1;
      if startNext + |aea.entries| >= CAPACITY {
        var ok := TakeSnapshot(gameState);
        if !ok || startNext + |aea.entries| >= CAPACITY {
          return;
        }
      }
      MergeAndCommit(startNext, aea);
      resp := resp.(success := true);
    }

    method AdvanceFollowerCommit(aea: AppendEntriesArgs)
      modifies this`commitIndex
      ensures commitIndex == FollowerCommit(old(commitIndex), aea)
    {
      if aea.leaderCommit > commitIndex {
        if |aea.entries| > 0 {
          var last := aea.entries[|aea.entries| - 1].index;
          commitIndex := if aea.leaderCommit <= last then aea.leaderCommit else last;
        } else {
          commitIndex := aea.leaderCommit;
        }
      }
    }

    // ---- snapshot.go ----

    method TakeSnapshot(gameState: Bytes) returns (ok: bool)
      requires Valid()
      modifies this`lastSnapshot, this`nextLogIdx, logs, logHashes
      ensures Valid() && (State(), ok) == Replica.TakeSnapshot(old(State()), gameState)
    {
      var found, arrIdx := FindArrayIdxByLogIndex(lastApplied);
      if !found {
        return false;
      }
      var snap := Snapshot(logs[arrIdx].index, logs[arrIdx].term, gameState, serverConfig, logHashes[arrIdx]);
      CompactTo(snap, arrIdx + 1);
      return true;
    }

    /** Keeps only the entries after the snapshot point. */
    method CompactTo(snap: Snapshot, startLog: nat)
      requires Valid() && startLog <= nextLogIdx
      modifies this`lastSnapshot, this`nextLogIdx, logs, logHashes
      ensures Valid() && State() == CutAt(old(State()), snap, startLog)
    {
      lastSnapshot := Some(snap);
      CopyLogsToBeginning(startLog);
    }

    method PrepareInstallSnapshotRPC(leaderID: ServerID) returns (isa: InstallSnapshotArgs)
      requires Valid() && lastSnapshot.Some?
      ensures isa == PrepareInstallSnapshot(State(), leaderID)
    {
      var snap := lastSnapshot.value;
      return InstallSnapshotArgs(leaderID, currentTerm, snap.lastIncludedIndex, snap.lastIncludedTerm,
                                 snap.data, snap.serverConfig, snap.hash);
    }

    method HandleInstallSnapshotRequest(myID: ServerID, isa: InstallSnapshotArgs)
      returns (resp: InstallSnapshotResponse, restore: Option<Bytes>)
      requires Valid()
      modifies this
      ensures Valid()
      ensures (State(), resp, restore) == Replica.HandleInstallSnapshotRequest(old(State()), myID, isa)
    {
      if isa.term < currentTerm {
        return InstallSnapshotResponse(myID, currentTerm, false, 0, 0), None;
      }
      if isa.term > currentTerm {
        UpdateCurrentTerm(isa.term);
      }
      resp := InstallSnapshotResponse(myID, currentTerm, true, isa.lastIncludedIndex, isa.lastIncludedTerm);
      if isa.lastIncludedIndex <= lastApplied {
        return resp, None;
      }
      lastSnapshot := Some(Snapshot(isa.lastIncludedIndex, isa.lastIncludedTerm, isa.data,
                                    isa.serverConfiguration, isa.hash));
      nextLogIdx := 0;
      commitIndex := isa.lastIncludedIndex;
      lastApplied := isa.lastIncludedIndex;
      return resp, Some(isa.data);
    }

    method HandleInstallSnapshotResponse(isr: InstallSnapshotResponse) returns (matched: int)
      requires Valid()
      modifies this
      ensures Valid() && (State(), matched) == Replica.HandleInstallSnapshotResponse(old(State()), isr)
    {
      if !isr.success {
        if isr.term >= currentTerm {
          role := Follower;
          UpdateCurrentTerm(isr.term);
          currentLeader := Some(isr.id);
        }
        return -1;
      }
      lastSentLogIndex := lastSentLogIndex[isr.id := isr.lastIncludedIndex];
      nextIndex := nextIndex[isr.id := isr.lastIncludedIndex + 1];
      matchIndex := matchIndex[isr.id := isr.lastIncludedIndex];
      return matchIndex[isr.id];
    }

    /** Finds how many leading entries the snapshot covers by a loop that stops at the first newer. */
    method PurgeEntriesFromSnapshot(aea: AppendEntriesArgs) returns (purged: AppendEntriesArgs)
      requires Valid()
      ensures purged == Purge(State(), aea)
    {
      if lastSnapshot == None {
        return aea;
      }
      var lastSnapIdx := lastSnapshot.value.lastIncludedIndex;
      var remove := 0;
      while remove < |aea.entries| && aea.entries[remove].index <= lastSnapIdx
        invariant 0 <= remove <= |aea.entries|
        invariant CoveredCount(aea.entries, lastSnapIdx) == remove + CoveredCount(aea.entries[remove..], lastSnapIdx)
      {
        assert aea.entries[remove..][1..] == aea.entries[remove + 1..];
        remove := remove + 1;
      }
      if remove > 0 {
        assert aea.entries[remove..] == From(aea.entries, remove);
        return aea.(prevLogIndex := aea.entries[remove - 1].index, prevLogTerm := aea.entries[remove - 1].term,
                    entries := aea.entries[remove..]);
      }
      return aea;
    }

    // ---- config_change.go ----

    method AddConfigLogUnlocked(leaderID: ServerID, cfg: ConfigChange)
      requires Valid()
      modifies this, logs, logHashes
      ensures Valid() && State() == AddConfigLog(digest, old(State()), leaderID, cfg)
    {
      var lastIdx, _ := GetLastLogIdxTerm();
      var entry := RaftLog(lastIdx + 1, currentTerm, LogConfiguration, [], cfg, [], 0);
      ApplyConfigurationLocked(lastIdx + 1, cfg);
      if nextLogIdx >= CAPACITY {
        return;
      }
      AppendLocked(leaderID, entry);
    }

    method HandleNextConfigurationChange() returns (started: Option<ConfigEntry>)
      requires Valid() && QueueOk(Config())
      modifies this, logs, logHashes
      ensures Valid() && QueueOk(Config())
      ensures (State(), started) == Replica.HandleNextConfigurationChange(digest, old(State()))
    {
      if inConfigChange || pendingConfigs == 0 {
        return None;
      }
      inConfigChange := true;
      var entry := configQueue[0];
      configQueue := configQueue[1..];
      pendingConfigs := pendingConfigs - 1;
      AddConfigLogUnlocked(if currentLeader.Some? then currentLeader.value else ServerID([]), entry.msg);
      return Some(entry);
    }

    method HandleConfigurationRPC(entry: ConfigEntry) returns (started: Option<ConfigEntry>)
      requires Valid() && QueueOk(Config())
      modifies this, logs, logHashes
      ensures Valid() && QueueOk(Config())
      ensures (State(), started) == Replica.HandleNextConfigurationChange(
                digest, old(State()).(config := Enqueue(old(Config()), entry)))
    {
      configQueue := configQueue + [entry];
      pendingConfigs := pendingConfigs + 1;
      started := HandleNextConfigurationChange();
    }

    method UnlockNextConfiguration()
      modifies this`inConfigChange
      ensures Config() == Replica.UnlockNextConfiguration(old(Config()))
    {
      inConfigChange := false;
    }

    // ---- node.go ----

    /** Copies stored entries into the array until either ends. */
    method RestoreLogs(stored: seq<RaftLog>)
      requires Valid() && nextLogIdx == 0
      modifies this`nextLogIdx, logs
      ensures Valid() && logs[..nextLogIdx] == Take(stored)
    {
      var i := 0;
      while i < |stored| && i < CAPACITY
        invariant 0 <= i <= |stored| && i <= CAPACITY && nextLogIdx == i
        invariant logs[..i] == stored[..i]
      {
        logs[i] := stored[i];
        nextLogIdx := i + 1;
        i := i + 1;
      }
    }

    /** Start: loads what storage returned into a node just built. */
    method Restore(id: ServerID, peers: set<ServerID>, ps: PersistentState, snap: Option<Snapshot>)
      requires Valid() && State() == NewNode(id, peers)
      requires forall i :: 0 <= i < CAPACITY ==> logHashes[i] == BLANK
      modifies this, logs
      ensures Valid() && State() == Recover(id, peers, ps, snap)
    {
      if ps.currentTerm > 0 {
        RestoreState(ps);
      }
      if snap.Some? {
        lastSnapshot := snap;
        commitIndex := snap.value.lastIncludedIndex;
        lastApplied := snap.value.lastIncludedIndex;
      }
    }

    method RestoreState(ps: PersistentState)
      requires Valid() && nextLogIdx == 0
      requires forall i :: 0 <= i < CAPACITY ==> logHashes[i] == BLANK
      modifies this`currentTerm, this`votedFor, this`nextLogIdx, logs
      ensures Valid()
      ensures State() == old(State()).(currentTerm := ps.currentTerm, votedFor := ps.votedFor,
                                       logs := Take(ps.logs), hashes := seq(|Take(ps.logs)|, _ => BLANK))
    {
      currentTerm := ps.currentTerm;
      votedFor := ps.votedFor;
      RestoreLogs(ps.logs);
      assert logHashes[..nextLogIdx] == seq(|Take(ps.logs)|, _ => BLANK);
    }
  }

  /** A node before and after each turn of the merge loop. */
  ghost predicate Turns(digest: Digest, trace: seq<Node>, pos: nat, entries: seq<RaftLog>) {
    && 0 < |trace| <= |entries| + 1
    && forall j :: 0 <= j < |trace| - 1 ==> TurnAt(digest, trace, pos, entries, j)
  }

  ghost predicate TurnAt(digest: Digest, trace: seq<Node>, pos: nat, entries: seq<RaftLog>, j: nat)
    requires j + 1 < |trace| && j < |entries|
  {
    pos + j <= |trace[j].logs| == |trace[j].hashes| && trace[j + 1] == MergeOne(digest, trace[j], pos + j, entries[j])
  }

  lemma TurnsGrow(digest: Digest, trace: seq<Node>, pos: nat, entries: seq<RaftLog>, n: Node)
    requires Turns(digest, trace, pos, entries) && |trace| <= |entries|
    requires var last := |trace| - 1;
             pos + last <= |trace[last].logs| == |trace[last].hashes|
             && n == MergeOne(digest, trace[last], pos + last, entries[last])
    ensures Turns(digest, trace + [n], pos, entries)
  {
    forall j | 0 <= j < |trace| ensures TurnAt(digest, trace + [n], pos, entries, j) {
      if j < |trace| - 1 {
        assert TurnAt(digest, trace, pos, entries, j);
      }
    }
  }

  lemma {:induction false} TurnsAreLoop(digest: Digest, trace: seq<Node>, pos: nat, entries: seq<RaftLog>, j: nat)
    requires Turns(digest, trace, pos, entries) && |trace| == |entries| + 1 && j <= |entries|
    requires pos + j <= |trace[j].logs| == |trace[j].hashes|
    ensures MergeLoop(digest, trace[j], pos + j, From(entries, j)) == trace[|entries|]
    decreases |entries| - j
  {
    if j < |entries| {
      assert TurnAt(digest, trace, pos, entries, j);
      LoopTurn(digest, trace[j], pos + j, entries, j, trace[j + 1], pos + (j + 1), j + 1);
      TurnsAreLoop(digest, trace, pos, entries, j + 1);
    }
  }

  /** One turn of the merge loop, seen from its specification. */
  lemma LoopTurn(
      digest: Digest, n: Node, pos: nat, entries: seq<RaftLog>, i: nat, n': Node, pos': nat, i': nat)
    requires pos <= |n.logs| == |n.hashes| && i < |entries| && pos' == pos + 1 && i' == i + 1
    requires n' == MergeOne(digest, n, pos, entries[i])
    ensures pos' <= |n'.logs| == |n'.hashes|
    ensures MergeLoop(digest, n, pos, From(entries, i)) == MergeLoop(digest, n', pos', From(entries, i'))
  {
    assert From(entries, i)[1..] == From(entries, i');
  }

  ghost function HoldersAmong(matched: map<ServerID, int>, index: int, among: set<ServerID>): set<ServerID> {
    set sid | sid in among && sid in matched && matched[sid] >= index
  }

  lemma HoldersGrow(matched: map<ServerID, int>, index: int, among: set<ServerID>, sid: ServerID)
    requires sid in matched && sid !in among
    ensures |HoldersAmong(matched, index, among + {sid})| ==
            |HoldersAmong(matched, index, among)| + if matched[sid] >= index then 1 else 0
  {
    var before, after := HoldersAmong(matched, index, among), HoldersAmong(matched, index, among + {sid});
    if matched[sid] >= index {
      assert after == before + {sid};
    } else {
      assert after == before;
    }
  }
}
