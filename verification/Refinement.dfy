/** The array form against the unbounded log. `log` is everything a node's log has ever stood for:
    the entries its snapshot covers, then the filled part of the array. Each handler, guarded, is
    a step of `Cluster` on that log. */
module Refinement {
  import opened Types
  import opened Agreement
  import opened Replica
  import opened Guards
  import opened Cluster

  function Base(snap: Option<Snapshot>): int {
    if snap.Some? then snap.value.lastIncludedIndex + 1 else 0
  }

  ghost predicate Shaped(logs: seq<RaftLog>, hashes: seq<Bytes>, base: int) {
    && |logs| == |hashes| <= CAPACITY
    && forall i :: 0 <= i < |logs| ==> logs[i].index == base + i
  }

  /** The snapshot ends where it says, in the term it says, and the array holds the rest. */
  ghost predicate Covering(logs: seq<RaftLog>, snap: Option<Snapshot>, log: seq<RaftLog>) {
    && |log| == Base(snap) + |logs|
    && (snap.Some? ==> Base(snap) >= 1 && log[Base(snap) - 1].term == snap.value.lastIncludedTerm)
    && forall i :: 0 <= i < |logs| ==> logs[i] == log[Base(snap) + i]
  }

  ghost predicate Fits(n: Node, log: seq<RaftLog>) {
    && Shaped(n.logs, n.hashes, Base(n.lastSnapshot))
    && Covering(n.logs, n.lastSnapshot, log)
  }

  /** The representation invariant: indices contiguous from the snapshot on, hashes in step, never
      more entries than the array holds, and the applied and committed indices in order. */
  ghost predicate Rep(n: Node, log: seq<RaftLog>) {
    && Fits(n, log)
    && Base(n.lastSnapshot) <= n.lastApplied + 1
    && n.lastApplied <= n.commitIndex < |log|
  }

  function Abs(n: Node, log: seq<RaftLog>, voters: set<ServerID>): Server {
    Server(n.currentTerm, n.votedFor, n.role, log, Base(n.lastSnapshot), n.commitIndex, n.lastApplied,
           n.electionVotes, voters, n.matchIndex)
  }

  // ---- the scan ----

  /** The backwards scan is subtraction. */
  lemma {:induction false} FindIsSubtraction(logs: seq<RaftLog>, base: int, idx: int)
    requires forall i :: 0 <= i < |logs| ==> logs[i].index == base + i
    ensures Find(logs, idx) == if base <= idx < base + |logs| then idx - base else -1
  {
    if logs != [] {
      FindIsSubtraction(logs[..|logs| - 1], base, idx);
    }
  }

  lemma FindIn(n: Node, log: seq<RaftLog>, idx: int)
    requires Rep(n, log)
    ensures Find(n.logs, idx) == if Base(n.lastSnapshot) <= idx < |log| then idx - Base(n.lastSnapshot) else -1
  {
    FindIsSubtraction(n.logs, Base(n.lastSnapshot), idx);
  }

  lemma LastOfFull(n: Node, log: seq<RaftLog>)
    requires Rep(n, log)
    ensures LastIdx(n) == LastIndex(log) && LastIdxTerm(n) == LastTerm(log)
  {
  }

  // ---- elections ----

  /** A vote is decided exactly as on the unbounded log: compaction does not show. */
  lemma VoteRefines(n: Node, log: seq<RaftLog>, voters: set<ServerID>, id: ServerID, rva: RequestVoteArgs)
    requires Rep(n, log)
    ensures var out, s := GuardedVote(n, id, rva), Adopt(Abs(n, log, voters), rva.term);
            && Rep(out.0, log)
            && out.1 == RequestVoteResponse(id, s.term, GrantsVote(s, rva))
            && Abs(out.0, log, voters) ==
               if GrantsVote(s, rva) then s.(role := Follower, votedFor := Some(rva.candidateID)) else s
  {
    LastOfFull(n, log);
    LastOfFull(UpdateTerm(n, rva.term), log);
  }

  lemma AppendFits(digest: Digest, n: Node, log: seq<RaftLog>, id: ServerID, entry: RaftLog)
    requires Rep(n, log) && |n.logs| < CAPACITY && entry.index == |log|
    ensures Rep(Append(digest, n, id, entry), log + [entry])
  {
  }

  lemma WinRefines(digest: Digest, n: Node, log: seq<RaftLog>, voters: set<ServerID>, id: ServerID)
    requires Rep(n, log)
    ensures var n', s' := GuardedWin(digest, n, id), Crown(id, Abs(n, log, voters), |n.logs| < CAPACITY);
            Rep(n', s'.log) && Abs(n', s'.log, voters) == s'
  {
    if |n.logs| < CAPACITY {
      WinWithRoom(digest, n, log, voters, id);
    } else {
      FreshMatch(n, WinElection(digest, n, id), id, -1);
    }
  }

  lemma WinWithRoom(digest: Digest, n: Node, log: seq<RaftLog>, voters: set<ServerID>, id: ServerID)
    requires Rep(n, log) && |n.logs| < CAPACITY
    ensures var n', s' := GuardedWin(digest, n, id), Crown(id, Abs(n, log, voters), true);
            Rep(n', s'.log) && Abs(n', s'.log, voters) == s'
  {
    var n1 := TakeOffice(n, id);
    var noop := RaftLog(|log|, n.currentTerm, LogNoop, [], NO_CHANGE, [], 0);
    LastOfFull(n, log);
    LastOfFull(n1, log);
    assert WinElection(digest, n, id) == Append(digest, n1, id, noop);
    AppendFits(digest, n1, log, id, noop);
    FreshMatch(n, WinElection(digest, n, id), id, |log|);
  }

  /** The peers' match indices are cleared, the leader's own stays as it was set. */
  lemma FreshMatch(n: Node, won: Node, id: ServerID, idx: int)
    requires won.matchIndex == n.matchIndex[id := idx]
    ensures FreshTenure(won, id).matchIndex == (map p | p in n.matchIndex :: -1)[id := idx]
  {
  }

  // ---- compaction ----

  /** Compaction leaves the unbounded log as it is. */
  lemma SnapshotRefines(n: Node, log: seq<RaftLog>, gameState: Bytes)
    requires Rep(n, log)
    ensures var out := TakeSnapshot(n, gameState);
            && Rep(out.0, log)
            && out.1 == (Base(n.lastSnapshot) <= n.lastApplied)
            && (!out.1 ==> out.0 == n)
            && (out.1 ==>
                  && |out.0.logs| < |n.logs|
                  && out.0 == n.(lastSnapshot := out.0.lastSnapshot, logs := out.0.logs, hashes := out.0.hashes)
                  && Base(out.0.lastSnapshot) == n.lastApplied + 1
                  && out.0.lastSnapshot.value.data == gameState)
  {
    var snap, i := SnapshotTaken(n, log, gameState);
    if Base(n.lastSnapshot) <= n.lastApplied {
      CutRefines(n, log, i, snap);
    }
  }

  /** Where the array is cut, and what the snapshot says. */
  lemma SnapshotTaken(n: Node, log: seq<RaftLog>, gameState: Bytes) returns (snap: Snapshot, i: int)
    requires Rep(n, log)
    ensures i == n.lastApplied - Base(n.lastSnapshot) && i < |n.logs|
    ensures snap.data == gameState
    ensures i >= 0 ==> snap.lastIncludedIndex == n.logs[i].index && snap.lastIncludedTerm == n.logs[i].term
    ensures TakeSnapshot(n, gameState) == if i < 0 then (n, false) else (CutAt(n, snap, i + 1), true)
  {
    i := n.lastApplied - Base(n.lastSnapshot);
    FindIn(n, log, n.lastApplied);
    snap := Snapshot(0, 0, gameState, {}, []);
    if i >= 0 {
      snap := Snapshot(n.logs[i].index, n.logs[i].term, gameState, n.config.serverConfig, n.hashes[i]);
    }
  }

  lemma CutRefines(n: Node, log: seq<RaftLog>, i: nat, snap: Snapshot)
    requires Rep(n, log) && i < |n.logs| && i == n.lastApplied - Base(n.lastSnapshot)
    requires snap.lastIncludedIndex == n.logs[i].index && snap.lastIncludedTerm == n.logs[i].term
    ensures var n' := CutAt(n, snap, i + 1);
            && Rep(n', log) && |n'.logs| < |n.logs|
            && n' == n.(lastSnapshot := Some(snap), logs := n'.logs, hashes := n'.hashes)
            && Base(n'.lastSnapshot) == n.lastApplied + 1
  {
  }

  /** What a snapshot records: the applied index with its term, the application's state, the servers
      as they are now, and the hash of the last entry covered. What follows stays in the array. */
  lemma SnapshotRecords(n: Node, log: seq<RaftLog>, gameState: Bytes)
    requires Rep(n, log) && Base(n.lastSnapshot) <= n.lastApplied
    ensures var i, n' := n.lastApplied - Base(n.lastSnapshot), TakeSnapshot(n, gameState).0;
            && n'.lastSnapshot == Some(Snapshot(
                                         n.lastApplied, log[n.lastApplied].term, gameState, n.config.serverConfig, n.hashes[i]))
            && |n'.logs| == |n'.hashes| == |n.logs| - i - 1
            && forall j :: 0 <= j < |n'.logs| ==> n'.logs[j] == n.logs[i + 1 + j] && n'.hashes[j] == n.hashes[i + 1 + j]
  {
    FindIn(n, log, n.lastApplied);
  }

  // ---- the leader's requests ----

  /** A request carries the unbounded log from some position to its end, with the entry before it. */
  lemma RequestRefines(n: Node, log: seq<RaftLog>, id: ServerID)
    requires Rep(n, log)
    ensures var out, next := GetAppendEntriesArgs(n, id), Get(n.nextIndex, id);
            && out.0 == n.(lastSentLogIndex := out.0.lastSentLogIndex)
            && (out.1 == None <==> next < Base(n.lastSnapshot) && next <= LastIndex(log))
            && (out.1.Some? ==> Carries(n, log, if next < |log| then next else |log|, out.1.value))
  {
    var next := Get(n.nextIndex, id);
    LastOfFull(n, log);
    FindIn(n, log, next);
    if Find(n.logs, next) >= 0 {
      RequestWithin(n, log, id);
    } else if next >= |log| {
      FromTheEnd(n, log, id);
    }
  }

  lemma RequestWithin(n: Node, log: seq<RaftLog>, id: ServerID)
    requires Rep(n, log) && Base(n.lastSnapshot) <= Get(n.nextIndex, id) < |log|
    ensures var out := GetAppendEntriesArgs(n, id);
            out.1.Some? && Carries(n, log, Get(n.nextIndex, id), out.1.value)
  {
    FindIn(n, log, Get(n.nextIndex, id));
    RequestPrev(n, log, Find(n.logs, Get(n.nextIndex, id)));
    TailOf(n, log, Find(n.logs, Get(n.nextIndex, id)));
  }

  lemma TailOf(n: Node, log: seq<RaftLog>, i: int)
    requires Rep(n, log) && 0 <= i < |n.logs|
    ensures IsSlice(From(n.logs, i), log, Base(n.lastSnapshot) + i)
  {
  }

  lemma FromTheEnd(n: Node, log: seq<RaftLog>, id: ServerID)
    requires Rep(n, log) && Get(n.nextIndex, id) >= |log|
    ensures var out := GetAppendEntriesArgs(n, id);
            out.1.Some? && Carries(n, log, |log|, out.1.value)
  {
    LastOfFull(n, log);
    FindIn(n, log, Get(n.nextIndex, id));
  }

  ghost predicate Carries(n: Node, log: seq<RaftLog>, next: int, args: AppendEntriesArgs) {
    && 0 <= next <= |log|
    && args.term == n.currentTerm && args.leaderID == n.currentLeader && args.leaderCommit == n.commitIndex
    && args.prevLogIndex == next - 1
    && (next > 0 ==> args.prevLogTerm == log[next - 1].term)
    && IsSlice(args.entries, log, next) && next + |args.entries| == |log|
  }

  lemma RequestPrev(n: Node, log: seq<RaftLog>, i: int)
    requires Rep(n, log) && 0 <= i < |n.logs|
    ensures PrevOf(n, i).0 == Base(n.lastSnapshot) + i - 1
    ensures Base(n.lastSnapshot) + i > 0 ==> PrevOf(n, i).1 == log[Base(n.lastSnapshot) + i - 1].term
  {
  }

  /** What a success is credited with equals what the request covered, unless the next index had
      run past the end of the log. */
  lemma CreditedIsCovered(n: Node, log: seq<RaftLog>, id: ServerID)
    requires Rep(n, log) && GetAppendEntriesArgs(n, id).1.Some?
    ensures var out := GetAppendEntriesArgs(n, id);
            Get(out.0.lastSentLogIndex, id) == Covers(out.1.value) <==> Get(n.nextIndex, id) <= |log|
  {
    RequestRefines(n, log, id);
    FindIn(n, log, Get(n.nextIndex, id));
  }
}
