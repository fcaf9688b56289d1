/** The remaining handlers on the unbounded log: submission, replies, commit, apply, installation of a
    snapshot, and recovery from storage. */
module HandlerRefinement {
  import opened Types
  import opened Agreement
  import opened Replica
  import opened Guards
  import opened Cluster
  import opened Refinement

  // ---- submission ----

  function CommandEntry(n: Node, clientID: Bytes, seqNum: int, data: Bytes): RaftLog {
    RaftLog(LastIdx(n) + 1, n.currentTerm, LogCommand, data, NO_CHANGE, clientID, seqNum)
  }

  predicate Stuck(n: Node) {
    |n.logs| >= CAPACITY && n.lastApplied < Base(n.lastSnapshot)
  }

  /** A full array is compacted first, which makes room whenever anything new has been applied;
      then exactly one entry is added, with the next index. */
  lemma SubmitRefines(
      digest: Digest, n: Node, log: seq<RaftLog>, voters: set<ServerID>, id: ServerID,
      clientID: Bytes, seqNum: int, data: Bytes, gameState: Bytes)
    requires Rep(n, log)
    ensures var out, s := AddCommandLog(digest, n, id, clientID, seqNum, data, gameState), Abs(n, log, voters);
            var s1 := if |n.logs| >= CAPACITY then s.(base := s.applied + 1) else s;
            if Stuck(n) then out == (n, -1)
            else
              var log' := log + [CommandEntry(n, clientID, seqNum, data)];
              && out.1 == |log|
              && Rep(out.0, log') && out.0.config == n.config
              && Abs(out.0, log', voters) == s1.(log := log', matchIndex := s.matchIndex[id := |log|])
              && (forall e :: e in out.0.logs ==> e in n.logs || e == CommandEntry(n, clientID, seqNum, data))
              && (if |n.logs| < CAPACITY then out.0.lastSnapshot == n.lastSnapshot
                  else out.0.lastSnapshot.Some? && out.0.lastSnapshot.value.data == gameState)
  {
    var entry := CommandEntry(n, clientID, seqNum, data);
    var n1 := if |n.logs| >= CAPACITY then TakeSnapshot(n, gameState).0 else n;
    LastOfFull(n, log);
    SnapshotRefines(n, log, gameState);
    if !Stuck(n) {
      AppendFits(digest, n1, log, id, entry);
      AppendIs(digest, n1, id, entry);
    }
  }

  lemma AppendIs(digest: Digest, n: Node, id: ServerID, entry: RaftLog)
    requires |n.logs| == |n.hashes|
    ensures var n' := Append(digest, n, id, entry);
            n' == n.(logs := n.logs + [entry], hashes := n'.hashes, matchIndex := n.matchIndex[id := entry.index],
                     nextIndex := n'.nextIndex, lastSentLogIndex := n'.lastSentLogIndex)
  {
  }

  // ---- commit ----

  predicate Committable(n: Node, log: seq<RaftLog>, index: int) {
    && 0 <= index && n.commitIndex < index < |log|
    && log[index].term == n.currentTerm
    && |HoldersOf(n.matchIndex, index)| > |n.config.serverConfig| / 2
  }

  lemma {:induction false} ScanOptimal(n: Node, log: seq<RaftLog>, count: nat)
    requires Fits(n, log) && Base(n.lastSnapshot) <= n.commitIndex + 1 && count <= |n.logs|
    ensures var c := CommitScan(n, count);
            && (c == n.commitIndex || (Committable(n, log, c) && c < Base(n.lastSnapshot) + count))
            && forall i :: c < i < Base(n.lastSnapshot) + count ==> !Committable(n, log, i)
    decreases count
  {
    if count > 0 && n.logs[count - 1].index > n.commitIndex {
      ScanOptimal(n, log, count - 1);
    }
  }

  /** The commit scan finds the optimum: the largest index above the old commit index that is of the
      current term and held by a majority, and nothing changes exactly if there is none. */
  lemma CommitIsOptimal(n: Node, log: seq<RaftLog>)
    requires Fits(n, log) && Base(n.lastSnapshot) <= n.commitIndex + 1
    ensures var c := CheckCommits(n).commitIndex;
            && CheckCommits(n) == n.(commitIndex := c)
            && c >= n.commitIndex
            && (c > n.commitIndex ==> Committable(n, log, c))
            && (c == n.commitIndex <==> forall i :: !Committable(n, log, i))
            && forall i :: Committable(n, log, i) ==> i <= c
  {
    ScanOptimal(n, log, |n.logs|);
  }

  // ---- apply ----

  /** The scan finds the next committed entry, and it is the unbounded log's. */
  lemma ApplyRefines(n: Node, log: seq<RaftLog>)
    requires Rep(n, log)
    ensures var out := UpdateLastApplied(n);
            if n.lastApplied < n.commitIndex then
              && 0 <= out.1 < |n.logs| && n.logs[out.1] == log[n.lastApplied + 1]
              && out.0 == n.(lastApplied := n.lastApplied + 1) && Rep(out.0, log)
            else out == (n, -1)
  {
    FindIn(n, log, n.lastApplied + 1);
  }

  // ---- snapshot installation ----

  function Installed(s: Server, m: InstallReq): Server {
    if s.term > m.args.term then s
    else if HoldsMore(s, m) then Adopt(s, m.args.term)
    else Install(Adopt(s, m.args.term), m)
  }

  predicate Describes(isa: InstallSnapshotArgs, prefix: seq<RaftLog>) {
    prefix != [] && isa.lastIncludedIndex == |prefix| - 1 && isa.lastIncludedTerm == LastTerm(prefix)
  }

  predicate Replaces(s: Server, m: InstallReq) {
    s.term <= m.args.term && !HoldsMore(s, m) && m.args.lastIncludedIndex > s.applied
  }

  /** The snapshot an install message carries, whole. */
  function Carried(isa: InstallSnapshotArgs): Snapshot {
    Snapshot(isa.lastIncludedIndex, isa.lastIncludedTerm, isa.data, isa.serverConfiguration, isa.hash)
  }

  lemma InstallRefines(n: Node, log: seq<RaftLog>, voters: set<ServerID>, id: ServerID, m: InstallReq)
    requires Rep(n, log) && Describes(m.args, m.prefix)
    ensures var n', s' := GuardedInstall(n, id, m.args).0, Installed(Abs(n, log, voters), m);
            && Rep(n', s'.log) && Abs(n', s'.log, voters) == s' && n'.config == n.config
            && if Replaces(Abs(n, log, voters), m) then
                 && n'.logs == [] && s'.log == m.prefix
                 && n'.lastSnapshot == Some(Carried(m.args))
               else n'.logs == n.logs && s'.log == log && n'.lastSnapshot == n.lastSnapshot
  {
    LastOfFull(n, log);
    if Replaces(Abs(n, log, voters), m) {
      Replaced(n, log, voters, id, m);
    } else {
      Kept(n, log, voters, id, m);
    }
  }

  lemma Replaced(n: Node, log: seq<RaftLog>, voters: set<ServerID>, id: ServerID, m: InstallReq)
    requires Rep(n, log) && Describes(m.args, m.prefix) && Replaces(Abs(n, log, voters), m)
    ensures var n', s' := GuardedInstall(n, id, m.args).0, Installed(Abs(n, log, voters), m);
            && Rep(n', m.prefix) && Abs(n', m.prefix, voters) == s' && n'.config == n.config && s'.log == m.prefix
            && n'.logs == [] && n'.lastSnapshot == Some(Carried(m.args))
  {
    LastOfFull(n, log);
  }

  lemma Kept(n: Node, log: seq<RaftLog>, voters: set<ServerID>, id: ServerID, m: InstallReq)
    requires Rep(n, log) && Describes(m.args, m.prefix) && !Replaces(Abs(n, log, voters), m)
    ensures var n', s' := GuardedInstall(n, id, m.args).0, Installed(Abs(n, log, voters), m);
            && n' == n.(currentTerm := s'.term, votedFor := s'.votedFor, role := s'.role)
            && s' == Adopt(Abs(n, log, voters), s'.term)
    ensures Rep(GuardedInstall(n, id, m.args).0, log)
  {
    LastOfFull(n, log);
    if n.currentTerm <= m.args.term && HoldsPast(n, m.args) {
      assert HoldsMore(Abs(n, log, voters), m);
    }
  }

  /** What the receiver of a snapshot answers, and what its application restores. */
  lemma InstallAnswers(n: Node, log: seq<RaftLog>, voters: set<ServerID>, id: ServerID, m: InstallReq)
    requires Rep(n, log) && Describes(m.args, m.prefix)
    ensures var out, s := GuardedInstall(n, id, m.args), Abs(n, log, voters);
            && out.2 == (if Replaces(s, m) then Some(m.args.data) else None)
            && (out.1 == None <==> s.term <= m.args.term && HoldsMore(s, m))
            && (out.1.Some? ==>
                  && out.1.value.id == id && out.1.value.success == (s.term <= m.args.term)
                  && out.1.value.term == Adopt(s, m.args.term).term
                  && (out.1.value.success ==> out.1.value.lastIncludedIndex == m.args.lastIncludedIndex))
  {
    LastOfFull(n, log);
  }

  // ---- replies to the leader ----

  /** With each acknowledgement paired to its own request and its own term, a reply credits exactly
      what `Cluster` credits. */
  lemma AppendReplyRefines(n: Node, log: seq<RaftLog>, voters: set<ServerID>, r: AppendRep)
    requires Rep(n, log)
    ensures var n', s := GuardedAppendReply(n, r.resp, r.covered), Abs(n, log, voters);
            && Rep(n', log) && n'.config == n.config && n'.logs == n.logs && n'.lastSnapshot == n.lastSnapshot
            && Abs(n', log, voters) ==
               if !r.resp.success then Adopt(s, r.resp.term)
               else if r.resp.term != s.term then s
               else s.(matchIndex := s.matchIndex[r.resp.id := r.covered])
  {
  }

  lemma InstallReplyRefines(n: Node, log: seq<RaftLog>, voters: set<ServerID>, r: InstallRep)
    requires Rep(n, log)
    ensures var n', s := GuardedInstallReply(n, r.resp), Abs(n, log, voters);
            && Rep(n', log) && n'.config == n.config && n'.logs == n.logs && n'.lastSnapshot == n.lastSnapshot
            && Abs(n', log, voters) ==
               if !r.resp.success then Adopt(s, r.resp.term)
               else if r.resp.term != s.term then s
               else s.(matchIndex := s.matchIndex[r.resp.id := r.resp.lastIncludedIndex])
  {
  }

  /** What a reply to a snapshot reports: the match index it leads to, or nothing. */
  lemma InstallReplyReports(n: Node, isr: InstallSnapshotResponse)
    ensures var out := HandleInstallSnapshotResponse(n, isr);
            if isr.success then isr.id in out.0.matchIndex && out.1 == out.0.matchIndex[isr.id] == isr.lastIncludedIndex
            else out.1 < 0 && out.0.matchIndex == n.matchIndex
  {
  }

  // ---- recovery ----

  /** A node in its first term has stored nothing that recovery would skip. */
  predicate Restorable(n: Node) {
    n.currentTerm >= 0 && (n.currentTerm == 0 ==> n.votedFor == None && n.logs == [])
  }

  /** Recovery from what was stored keeps term, vote, log and snapshot, and forgets the rest. */
  lemma RecoverRefines(n: Node, log: seq<RaftLog>, voters: set<ServerID>, id: ServerID, servers: set<ServerID>)
    requires Rep(n, log) && Restorable(n) && id in servers
    ensures var n' := Recover(id, servers - {id}, Persistent(n), n.lastSnapshot);
            && Rep(n', log) && Abs(n', log, {}) == Reborn(id, Abs(n, log, voters), servers)
            && n'.logs == n.logs && n'.lastSnapshot == n.lastSnapshot
            && n'.config.serverConfig == n'.config.oldServerConfig == servers
  {
  }

  /** Storage that holds more than the array does is restored from its start, up to what fits, and
      the hash of every restored entry is 32 zero bytes. */
  lemma OversizedRestore(id: ServerID, peers: set<ServerID>, ps: PersistentState, snap: Option<Snapshot>)
    requires ps.currentTerm > 0 && |ps.logs| > CAPACITY
    ensures var n := Recover(id, peers, ps, snap);
            && |n.logs| == |n.hashes| == CAPACITY && Agree(n.logs, ps.logs, CAPACITY)
            && forall i, k :: 0 <= i < CAPACITY && 0 <= k < 32 ==> |n.hashes[i]| == 32 && n.hashes[i][k] == 0
  {
  }

  /** What was stored, as much of it as fits, is what the node starts with, exactly when it was stored in
      a later term than 0 or there was nothing. */
  lemma RestoresIff(id: ServerID, peers: set<ServerID>, ps: PersistentState, snap: Option<Snapshot>)
    ensures var n := Recover(id, peers, ps, snap);
            var kept := if |ps.logs| <= CAPACITY then ps.logs else ps.logs[..CAPACITY];
            Persistent(n) == ps.(logs := kept) <==> ps.currentTerm > 0 || ps == PersistentState(0, None, [])
  {
  }

  /** A node starts as a follower in term 0 that knows its peers, has nothing and names no leader. */
  lemma StartsFromNothing(id: ServerID, peers: set<ServerID>, p: ServerID)
    ensures var n := NewNode(id, peers);
            && n.role == Follower && n.currentLeader == None && Rep(n, []) && QueueOk(n.config)
            && !n.config.inConfigChange && n.config.lastConfigLogIndex == 0
            && n.nextIndex.Keys == n.matchIndex.Keys == n.lastSentLogIndex.Keys == peers
            && (p in peers ==> n.nextIndex[p] == LastIdx(n) + 1 && n.matchIndex[p] == n.lastSentLogIndex[p] == LastIdx(n))
  {
  }
}
