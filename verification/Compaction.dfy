/** Compaction is invisible: whatever a node answers or asks after taking a snapshot, it would have
    answered or asked with its whole log in the array. */
module Compaction {
  import opened Types
  import opened Agreement
  import opened Replica
  import opened Guards
  import opened Refinement
  import opened MergeRefinement
  import C = Cluster

  /** What candidates, voters and followers see of a node does not change. */
  lemma SnapshotInvisible(
      n: Node, log: seq<RaftLog>, gameState: Bytes, id: ServerID, rva: RequestVoteArgs, to: ServerID)
    requires Rep(n, log)
    ensures var n' := TakeSnapshot(n, gameState).0;
            && LastIdx(n') == LastIdx(n) && LastIdxTerm(n') == LastIdxTerm(n)
            && PrepareRequestVote(n', id) == PrepareRequestVote(n, id)
            && HandleRequestToVote(n', id, rva).1 == HandleRequestToVote(n, id, rva).1
            && (Get(n.nextIndex, to) > n.lastApplied ==>
                  GetAppendEntriesArgs(n', to).1 == GetAppendEntriesArgs(n, to).1)
  {
    var n' := TakeSnapshot(n, gameState).0;
    SnapshotRefines(n, log, gameState);
    LastOfFull(n, log);
    LastOfFull(n', log);
    SameVote(n, n', id, rva);
    if Get(n.nextIndex, to) > n.lastApplied {
      SameRequest(n, n', log, to);
    }
  }

  lemma SameVote(n: Node, n': Node, id: ServerID, rva: RequestVoteArgs)
    requires n'.currentTerm == n.currentTerm && n'.votedFor == n.votedFor
    requires LastIdx(n') == LastIdx(n) && LastIdxTerm(n') == LastIdxTerm(n)
    ensures HandleRequestToVote(n', id, rva).1 == HandleRequestToVote(n, id, rva).1
  {
    assert LogOK(UpdateTerm(n, rva.term), rva) == LogOK(n, rva);
    assert LogOK(UpdateTerm(n', rva.term), rva) == LogOK(n', rva);
  }

  /** Two nodes that stand for the same log build the same requests above both snapshots. */
  lemma SameRequest(n: Node, n': Node, log: seq<RaftLog>, to: ServerID)
    requires Rep(n, log) && Rep(n', log)
    requires n'.currentTerm == n.currentTerm && n'.currentLeader == n.currentLeader
    requires n'.commitIndex == n.commitIndex && n'.nextIndex == n.nextIndex
    requires Base(n.lastSnapshot) <= Get(n.nextIndex, to) && Base(n'.lastSnapshot) <= Get(n.nextIndex, to)
    ensures GetAppendEntriesArgs(n', to).1 == GetAppendEntriesArgs(n, to).1
  {
    var next := if Get(n.nextIndex, to) < |log| then Get(n.nextIndex, to) else |log|;
    RequestRefines(n, log, to);
    RequestRefines(n', log, to);
    SameCarried(n, n', log, next, GetAppendEntriesArgs(n, to).1.value, GetAppendEntriesArgs(n', to).1.value);
    if next == 0 {
      NoPrevious(n, log, to);
      NoPrevious(n', log, to);
    }
  }

  lemma SameCarried(
      n: Node, n': Node, log: seq<RaftLog>, next: int, a: AppendEntriesArgs, b: AppendEntriesArgs)
    requires Carries(n, log, next, a) && Carries(n', log, next, b)
    requires n'.currentTerm == n.currentTerm && n'.currentLeader == n.currentLeader && n'.commitIndex == n.commitIndex
    ensures b == a.(prevLogTerm := b.prevLogTerm) && (next > 0 ==> a == b)
  {
    assert a.entries == b.entries;
  }

  lemma NoPrevious(n: Node, log: seq<RaftLog>, to: ServerID)
    requires Rep(n, log) && GetAppendEntriesArgs(n, to).1.Some?
    requires GetAppendEntriesArgs(n, to).1.value.prevLogIndex == -1
    ensures GetAppendEntriesArgs(n, to).1.value.prevLogTerm == -1
  {
    LastOfFull(n, log);
    FindIn(n, log, Get(n.nextIndex, to));
  }

  // ---- merges ----

  lemma {:induction false} MergeSkips(log: seq<RaftLog>, start: nat, entries: seq<RaftLog>, k: nat)
    requires k <= |entries| && start + k <= |log|
    requires forall i :: 0 <= i < k ==> SameIdTerm(log[start + i], entries[i])
    ensures Merge(log, start, entries) == Merge(log, start + k, From(entries, k))
    decreases k
  {
    if k == 0 {
      assert From(entries, 0) == entries;
    } else {
      assert From(entries[1..], k - 1) == From(entries, k);
      assert SameIdTerm(log[start + 0], entries[0]);
      forall i | 0 <= i < k - 1 ensures SameIdTerm(log[start + 1 + i], entries[1..][i]) {
        assert SameIdTerm(log[start + (i + 1)], entries[i + 1]);
      }
      MergeSkips(log, start + 1, entries[1..], k - 1);
    }
  }

  /** With the purge, an accepted request leaves the log that merging all of it into the whole log
      would, provided what the snapshot covers of it is in place. */
  lemma PurgeInvisible(s: C.Server, args: AppendEntriesArgs)
    requires C.PrevMatches(s, args) && 0 <= s.base <= |s.log|
    requires forall i :: 0 <= i < |args.entries| && args.prevLogIndex + 1 + i < s.base ==>
               SameIdTerm(s.log[args.prevLogIndex + 1 + i], args.entries[i])
    ensures C.Follow(s, args).log == Merge(s.log, args.prevLogIndex + 1, args.entries)
  {
    var start, skip := args.prevLogIndex + 1, C.MergeStart(s, args) - (args.prevLogIndex + 1);
    if skip > 0 {
      var k := if skip <= |args.entries| then skip else |args.entries|;
      MergeSkips(s.log, start, args.entries, k);
    }
  }

  /** So a node that has compacted accepts the same requests, to the same effect, as one that holds
      the whole log in its array, while both have room. */
  lemma MergesInvisible(
      digest: Digest, n: Node, n': Node, log: seq<RaftLog>, id: ServerID, aea: AppendEntriesArgs, gameState: Bytes)
    requires Rep(n, log) && Rep(n', log) && n.lastSnapshot == None
    requires GoodRequest(aea)
    requires n.currentTerm <= aea.term && n'.currentTerm <= aea.term
    requires C.PrevMatches(Abs(n, log, {}), aea) && !ArrayFull(n, aea) && !ArrayFull(n', aea)
    requires forall i :: 0 <= i < |aea.entries| && aea.prevLogIndex + 1 + i < Base(n'.lastSnapshot) ==>
               SameIdTerm(log[aea.prevLogIndex + 1 + i], aea.entries[i])
    ensures var log' := Merge(log, aea.prevLogIndex + 1, aea.entries);
            && GuardedAppend(digest, n, id, aea, gameState).1 == GuardedAppend(digest, n', id, aea, gameState).1
            && GuardedAppend(digest, n, id, aea, gameState).1.success
            && Fits(GuardedAppend(digest, n, id, aea, gameState).0, log')
            && Fits(GuardedAppend(digest, n', id, aea, gameState).0, log')
  {
    MergedTo(digest, n, log, id, aea, gameState);
    MergedTo(digest, n', log, id, aea, gameState);
    LastOfFull(n, log);
    LastOfFull(n', log);
  }

  lemma MergedTo(digest: Digest, n: Node, log: seq<RaftLog>, id: ServerID, aea: AppendEntriesArgs, gameState: Bytes)
    requires Rep(n, log) && GoodRequest(aea) && n.currentTerm <= aea.term
    requires C.PrevMatches(Abs(n, log, {}), aea) && !ArrayFull(n, aea)
    requires forall i :: 0 <= i < |aea.entries| && aea.prevLogIndex + 1 + i < Base(n.lastSnapshot) ==>
               SameIdTerm(log[aea.prevLogIndex + 1 + i], aea.entries[i])
    ensures var out := GuardedAppend(digest, n, id, aea, gameState);
            && out.1 == AppendEntriesResponse(id, aea.term, true, LastIdx(n))
            && Fits(out.0, Merge(log, aea.prevLogIndex + 1, aea.entries))
  {
    AcceptRefines(digest, n, log, {}, id, aea, gameState);
    PurgeInvisible(C.Adopt(Abs(n, log, {}), aea.term).(role := Follower), aea);
  }
}
