/** The follower's in-place merge, guarded by the purge, against the merge rule on the unbounded log. */
module MergeRefinement {
  import opened Types
  import opened Agreement
  import opened Replica
  import opened Guards
  import opened Cluster
  import opened Refinement

  // ---- the follower's merge ----

  ghost predicate Contiguous(entries: seq<RaftLog>, first: int) {
    forall i :: 0 <= i < |entries| ==> entries[i].index == first + i
  }

  /** Only the log, its hashes and the configuration that follows it may differ. */
  ghost predicate OnlyLog(n: Node, n': Node) {
    |n'.logs| == |n'.hashes| && n' == n.(logs := n'.logs, hashes := n'.hashes, config := n'.config)
  }

  lemma MergeOneIs(digest: Digest, n: Node, pos: nat, entry: RaftLog)
    requires |n.logs| == |n.hashes| && pos <= |n.logs|
    ensures var n' := MergeOne(digest, n, pos, entry);
            && OnlyLog(n, n')
            && n'.logs == if pos < |n.logs| && SameIdTerm(n.logs[pos], entry) then n.logs
                          else n.logs[..pos] + [entry]
  {
  }

  /** The in-place loop is the merge rule. */
  lemma {:induction false} LoopRefines(digest: Digest, n: Node, pos: nat, entries: seq<RaftLog>)
    requires |n.logs| == |n.hashes| && pos <= |n.logs|
    ensures var n' := MergeLoop(digest, n, pos, entries);
            n'.logs == Merge(n.logs, pos, entries) && OnlyLog(n, n')
    decreases |entries|
  {
    if entries != [] {
      var n1 := MergeOne(digest, n, pos, entries[0]);
      MergeOneIs(digest, n, pos, entries[0]);
      LoopRefines(digest, n1, pos + 1, entries[1..]);
      MergeTurn(n.logs, n1.logs, pos, entries);
    }
  }

  /** Once one entry has been placed at the end, all the later ones are appended. */
  lemma MergeTurn(logs: seq<RaftLog>, logs1: seq<RaftLog>, pos: nat, entries: seq<RaftLog>)
    requires pos <= |logs| && entries != []
    requires logs1 == if pos < |logs| && SameIdTerm(logs[pos], entries[0]) then logs else logs[..pos] + [entries[0]]
    ensures pos + 1 <= |logs1| && Merge(logs1, pos + 1, entries[1..]) == Merge(logs, pos, entries)
  {
    if !(pos < |logs| && SameIdTerm(logs[pos], entries[0])) {
      assert logs1[..pos + 1] == logs1;
      assert logs1 + entries[1..] == logs[..pos] + entries;
    }
  }

  lemma {:induction false} CoveredIs(entries: seq<RaftLog>, first: int, last: int)
    requires Contiguous(entries, first)
    ensures CoveredCount(entries, last) ==
            if last < first then 0 else if last - first + 1 <= |entries| then last - first + 1 else |entries|
    decreases |entries|
  {
    if entries != [] && entries[0].index <= last {
      CoveredIs(entries[1..], first + 1, last);
    }
  }

  // ---- the merge rule itself ----

  ghost predicate MatchesFirst(log: seq<RaftLog>, start: nat, entries: seq<RaftLog>, j: int) {
    && 0 <= j <= |entries| && start + j <= |log|
    && forall i :: 0 <= i < j ==> SameIdTerm(log[start + i], entries[i])
  }

  /** The rule: with j entries in place already, either nothing is left to do and the log is kept
      to its last entry, or entry j is the first missing or conflicting one and the rest of the
      log is what was sent. */
  lemma {:induction false} MergeMeaning(log: seq<RaftLog>, start: nat, entries: seq<RaftLog>) returns (j: nat)
    requires start <= |log|
    ensures MatchesFirst(log, start, entries, j)
    ensures j == |entries| ==> Merge(log, start, entries) == log
    ensures j < |entries| ==>
              && (start + j == |log| || !SameIdTerm(log[start + j], entries[j]))
              && Merge(log, start, entries) == log[..start + j] + entries[j..]
    decreases |entries|
  {
    j := 0;
    if entries != [] && start < |log| && SameIdTerm(log[start], entries[0]) {
      var k := MergeMeaning(log, start + 1, entries[1..]);
      j := k + 1;
      assert forall i :: 1 <= i < j ==> entries[i] == entries[1..][i - 1];
      assert entries[1..][k..] == entries[j..];
    }
  }

  /** Merging into the array is merging into the unbounded log. */
  lemma {:induction false} MergeCovering(
      logs: seq<RaftLog>, snap: Option<Snapshot>, log: seq<RaftLog>, pos: nat, entries: seq<RaftLog>)
    requires Covering(logs, snap, log) && pos <= |logs|
    ensures Base(snap) + pos <= |log|
    ensures Covering(Merge(logs, pos, entries), snap, Merge(log, Base(snap) + pos, entries))
    decreases |entries|
  {
    if entries != [] {
      if pos < |logs| && SameIdTerm(logs[pos], entries[0]) {
        MergeCovering(logs, snap, log, pos + 1, entries[1..]);
      } else {
        SpliceCovering(logs, snap, log, pos, entries);
      }
    }
  }

  lemma SpliceCovering(
      logs: seq<RaftLog>, snap: Option<Snapshot>, log: seq<RaftLog>, pos: nat, entries: seq<RaftLog>)
    requires Covering(logs, snap, log) && pos <= |logs|
    ensures Covering(logs[..pos] + entries, snap, log[..Base(snap) + pos] + entries)
  {
  }

  lemma {:induction false} MergeShape(logs: seq<RaftLog>, base: int, pos: nat, entries: seq<RaftLog>)
    requires pos <= |logs| && Contiguous(entries, base + pos)
    requires forall i :: 0 <= i < |logs| ==> logs[i].index == base + i
    ensures var merged := Merge(logs, pos, entries);
            && (|merged| <= |logs| || |merged| == pos + |entries|)
            && forall i :: 0 <= i < |merged| ==> merged[i].index == base + i
    decreases |entries|
  {
    if entries != [] && pos < |logs| && SameIdTerm(logs[pos], entries[0]) {
      MergeShape(logs, base, pos + 1, entries[1..]);
    }
  }

  // ---- the purge ----

  /** Guard G5 leaves of a request what lies past the snapshot, in both forms. */
  lemma PurgeIs(n: Node, log: seq<RaftLog>, voters: set<ServerID>, aea: AppendEntriesArgs)
    requires Fits(n, log) && aea.prevLogIndex >= -1 && Contiguous(aea.entries, aea.prevLogIndex + 1)
    ensures var s, p := Abs(n, log, voters), Purge(n, aea);
            && p == aea.(prevLogIndex := p.prevLogIndex, prevLogTerm := p.prevLogTerm, entries := p.entries)
            && p.entries == MergeRest(s, aea)
            && Contiguous(p.entries, MergeStart(s, aea))
            && (aea.prevLogIndex + 1 >= Base(n.lastSnapshot) ==> p == aea)
            && (aea.prevLogIndex + 1 < Base(n.lastSnapshot) ==> -1 <= p.prevLogIndex < Base(n.lastSnapshot))
  {
    if n.lastSnapshot.Some? {
      CoveredIs(aea.entries, aea.prevLogIndex + 1, n.lastSnapshot.value.lastIncludedIndex);
    }
  }

  /** A purged request still says what its sender's log holds: the entry it names as previous is the one
      before those it still carries, and it covers as much as before. */
  lemma PurgedStillTrue(n: Node, aea: AppendEntriesArgs, src: seq<RaftLog>)
    requires aea.prevLogIndex >= -1 && IsSlice(aea.entries, src, aea.prevLogIndex + 1)
    requires forall i :: 0 <= i < |src| ==> src[i].index == i
    requires aea.prevLogIndex >= 0 ==> aea.prevLogIndex < |src| && aea.prevLogTerm == src[aea.prevLogIndex].term
    ensures var p := Purge(n, aea);
            && p.prevLogIndex >= -1 && IsSlice(p.entries, src, p.prevLogIndex + 1)
            && (p.prevLogIndex >= 0 ==> p.prevLogIndex < |src| && p.prevLogTerm == src[p.prevLogIndex].term)
            && Covers(p) == Covers(aea)
  {
    if n.lastSnapshot.Some? {
      var k := CoveredCount(aea.entries, n.lastSnapshot.value.lastIncludedIndex);
      if k > 0 {
        DropFront(aea, src, k, Purge(n, aea));
      }
    }
  }

  lemma DropFront(aea: AppendEntriesArgs, src: seq<RaftLog>, k: nat, p: AppendEntriesArgs)
    requires aea.prevLogIndex >= -1 && IsSlice(aea.entries, src, aea.prevLogIndex + 1)
    requires forall i :: 0 <= i < |src| ==> src[i].index == i
    requires 0 < k <= |aea.entries| && p.entries == From(aea.entries, k)
    requires p.prevLogIndex == aea.entries[k - 1].index && p.prevLogTerm == aea.entries[k - 1].term
    ensures p.prevLogIndex == aea.prevLogIndex + k && IsSlice(p.entries, src, p.prevLogIndex + 1)
    ensures p.prevLogIndex < |src| && p.prevLogTerm == src[p.prevLogIndex].term
  {
    assert aea.entries[k - 1] == src[aea.prevLogIndex + k];
  }

  /** The consistency check, and where merging starts. */
  lemma PrevIs(n: Node, log: seq<RaftLog>, voters: set<ServerID>, aea: AppendEntriesArgs)
    requires Fits(n, log) && aea.prevLogIndex >= -1 && Contiguous(aea.entries, aea.prevLogIndex + 1)
    ensures var s, p := Abs(n, log, voters), Purge(n, aea);
            && -1 <= PrevAt(n, p) < |n.logs|
            && PrevRefused(n, p, PrevAt(n, p)) == !PrevMatches(s, aea)
            && (PrevMatches(s, aea) ==> Base(n.lastSnapshot) + PrevAt(n, p) + 1 == MergeStart(s, aea))
  {
    PurgeIs(n, log, voters, aea);
    FindIsSubtraction(n.logs, Base(n.lastSnapshot), Purge(n, aea).prevLogIndex);
  }

  // ---- the handler ----

  predicate ArrayFull(n: Node, aea: AppendEntriesArgs) {
    PrevAt(n, Purge(n, aea)) + 1 + |Purge(n, aea).entries| >= CAPACITY
  }

  lemma MergeFits(digest: Digest, n: Node, log: seq<RaftLog>, pos: nat, entries: seq<RaftLog>)
    requires Fits(n, log) && pos <= |n.logs| && pos + |entries| <= CAPACITY
    requires Contiguous(entries, Base(n.lastSnapshot) + pos)
    ensures var n' := MergeLoop(digest, n, pos, entries);
            && Base(n.lastSnapshot) + pos <= |log|
            && Fits(n', Merge(log, Base(n.lastSnapshot) + pos, entries))
            && OnlyLog(n, n')
  {
    LoopRefines(digest, n, pos, entries);
    MergeShape(n.logs, Base(n.lastSnapshot), pos, entries);
    MergeCovering(n.logs, n.lastSnapshot, log, pos, entries);
  }

  /** Following, for any server that looks like the node, with the purged request. */
  lemma FollowFrom(n: Node, s: Server, s2: Server, aea: AppendEntriesArgs, p: AppendEntriesArgs, start: int)
    requires PrevMatches(s, aea) && 0 <= s.base <= |s.log| && s2.log == s.log && s2.base == s.base
    requires s2.commit == n.commitIndex && start == MergeStart(s, aea)
    requires p.entries == MergeRest(s, aea) && p.leaderCommit == aea.leaderCommit
    ensures PrevMatches(s2, aea) && 0 <= start <= |s.log|
    ensures Follow(s2, aea) == s2.(log := Merge(s.log, start, p.entries), commit := FollowerCommit(n.commitIndex, p))
  {
    assert MergeStart(s2, aea) == MergeStart(s, aea) && MergeRest(s2, aea) == MergeRest(s, aea);
  }

  /** What the unbounded log becomes, in the array's terms. */
  lemma PurgedFollow(
      n: Node, log: seq<RaftLog>, voters: set<ServerID>, aea: AppendEntriesArgs, p: AppendEntriesArgs, s2: Server,
      start: int)
    requires Fits(n, log) && aea.prevLogIndex >= -1 && Contiguous(aea.entries, aea.prevLogIndex + 1)
    requires PrevMatches(Abs(n, log, voters), aea) && p == Purge(n, aea)
    requires s2.log == log && s2.base == Base(n.lastSnapshot) && s2.commit == n.commitIndex
    requires start == MergeStart(Abs(n, log, voters), aea)
    ensures Contiguous(p.entries, start) && PrevMatches(s2, aea) && 0 <= start <= |log|
    ensures Follow(s2, aea) == s2.(log := Merge(log, start, p.entries), commit := FollowerCommit(n.commitIndex, p))
  {
    PurgeIs(n, log, voters, aea);
    FollowFrom(n, Abs(n, log, voters), s2, aea, p, start);
  }

  /** What `Cluster` makes of a request delivered to a node. */
  function Received(s: Server, args: AppendEntriesArgs, full: bool): Server {
    if s.term > args.term then s
    else if AcceptsAppend(s, args, full) then Follow(Adopt(s, args.term).(role := Follower), args)
    else Adopt(s, args.term).(role := Follower)
  }

  /** A request that passes the term and consistency checks but meets a full array is refused,
      and the receiver compacts. */
  predicate Compacts(n: Node, s: Server, aea: AppendEntriesArgs) {
    s.term <= aea.term && PrevMatches(s, aea) && ArrayFull(n, aea) && s.base <= s.applied
  }

  ghost predicate GoodRequest(aea: AppendEntriesArgs) {
    aea.prevLogIndex >= -1 && Contiguous(aea.entries, aea.prevLogIndex + 1)
  }

  lemma FollowingRefines(n: Node, log: seq<RaftLog>, voters: set<ServerID>, term: int)
    requires Rep(n, log) && n.currentTerm <= term
    ensures var n1 := Following(n, term);
            Rep(n1, log) && Abs(n1, log, voters) == Adopt(Abs(n, log, voters), term).(role := Follower)
  {
  }

  /** Everything the two forms agree on before the merge. */
  lemma Accepting(n: Node, log: seq<RaftLog>, voters: set<ServerID>, aea: AppendEntriesArgs, p: AppendEntriesArgs, pos: int)
    requires Rep(n, log) && GoodRequest(aea) && PrevMatches(Abs(n, log, voters), aea)
    requires p == Purge(n, aea) && pos == PrevAt(n, p) + 1
    ensures 0 <= pos <= |n.logs| && !PrevRefused(n, p, pos - 1)
    ensures p.term == aea.term && p.leaderID == aea.leaderID
    ensures Contiguous(p.entries, Base(n.lastSnapshot) + pos) && Base(n.lastSnapshot) + pos <= |log|
    ensures var s2 := Adopt(Abs(n, log, voters), aea.term).(role := Follower);
            Follow(s2, aea) == s2.(log := Merge(log, Base(n.lastSnapshot) + pos, p.entries),
                                   commit := FollowerCommit(n.commitIndex, p))
  {
    Refusing(n, log, voters, aea, p, pos);
    PurgedFollow(n, log, voters, aea, p, Adopt(Abs(n, log, voters), aea.term).(role := Follower),
                 Base(n.lastSnapshot) + pos);
  }

  lemma Stored(
      digest: Digest, n2: Node, log: seq<RaftLog>, voters: set<ServerID>, p: AppendEntriesArgs, pos: nat, n': Node)
    requires Rep(n2, log) && pos <= |n2.logs| && pos + |p.entries| < CAPACITY
    requires Contiguous(p.entries, Base(n2.lastSnapshot) + pos) && Base(n2.lastSnapshot) + pos <= |log|
    requires n' == MergeAndCommit(digest, n2, pos, p)
    ensures var log' := Merge(log, Base(n2.lastSnapshot) + pos, p.entries);
            && Fits(n', log') && n'.lastSnapshot == n2.lastSnapshot
            && Abs(n', log', voters) ==
               Abs(n2, log, voters).(log := log', commit := FollowerCommit(n2.commitIndex, p))
  {
    MergeFits(digest, n2, log, pos, p.entries);
  }

  lemma AcceptRefines(
      digest: Digest, n: Node, log: seq<RaftLog>, voters: set<ServerID>, id: ServerID, aea: AppendEntriesArgs,
      gameState: Bytes)
    requires Rep(n, log) && GoodRequest(aea)
    requires n.currentTerm <= aea.term && PrevMatches(Abs(n, log, voters), aea) && !ArrayFull(n, aea)
    ensures var out, s := GuardedAppend(digest, n, id, aea, gameState), Abs(n, log, voters);
            var s' := Follow(Adopt(s, aea.term).(role := Follower), aea);
            && out.1 == AppendEntriesResponse(id, aea.term, true, LastIdx(n))
            && Fits(out.0, s'.log) && out.0.lastSnapshot == n.lastSnapshot && Abs(out.0, s'.log, voters) == s'
  {
    var p := Purge(n, aea);
    var n2, pos := Following(n, aea.term).(currentLeader := aea.leaderID), PrevAt(n, p) + 1;
    Accepting(n, log, voters, aea, p, pos);
    var n' := AcceptState(digest, n, log, voters, aea.term, p, pos, n2);
    HandleAccepts(digest, n, id, p, gameState, n2, pos, n');
  }

  lemma AcceptState(
      digest: Digest, n: Node, log: seq<RaftLog>, voters: set<ServerID>, term: int, p: AppendEntriesArgs, pos: nat,
      n2: Node) returns (n': Node)
    requires Rep(n, log) && n.currentTerm <= term
    requires pos <= |n.logs| && pos + |p.entries| < CAPACITY
    requires Contiguous(p.entries, Base(n.lastSnapshot) + pos) && Base(n.lastSnapshot) + pos <= |log|
    requires n2 == Following(n, term).(currentLeader := p.leaderID)
    ensures n' == MergeAndCommit(digest, n2, pos, p)
    ensures var s2 := Adopt(Abs(n, log, voters), term).(role := Follower);
            var s' := s2.(log := Merge(log, Base(n.lastSnapshot) + pos, p.entries), commit := FollowerCommit(n.commitIndex, p));
            && Fits(n', s'.log) && n'.lastSnapshot == n.lastSnapshot
            && Abs(n', s'.log, voters) == s'
  {
    FollowingRefines(n, log, voters, term);
    n' := MergeAndCommit(digest, n2, pos, p);
    Stored(digest, n2, log, voters, p, pos, n');
  }

  /** The accepting path of the handler. */
  lemma HandleAccepts(
      digest: Digest, n: Node, id: ServerID, p: AppendEntriesArgs, gameState: Bytes, n2: Node, pos: nat, n': Node)
    requires |n.logs| == |n.hashes| && n.currentTerm <= p.term
    requires n2 == Following(n, p.term).(currentLeader := p.leaderID)
    requires -1 <= PrevAt(n, p) < |n.logs| && pos == PrevAt(n, p) + 1
    requires !PrevRefused(n, p, PrevAt(n, p)) && pos + |p.entries| < CAPACITY
    requires n' == MergeAndCommit(digest, n2, pos, p)
    ensures HandleAppendEntries(digest, n, id, p, gameState) ==
            (n', AppendEntriesResponse(id, p.term, true, LastIdx(n)))
  {
  }

  /** The refusing paths of the handler. */
  lemma HandleRefuses(
      digest: Digest, n: Node, id: ServerID, p: AppendEntriesArgs, gameState: Bytes, n1: Node, pos: nat)
    requires |n.logs| == |n.hashes| && n.currentTerm <= p.term && n1 == Following(n, p.term)
    requires -1 <= PrevAt(n, p) < |n.logs| && pos == PrevAt(n, p) + 1
    requires PrevRefused(n, p, pos - 1) || pos + |p.entries| >= CAPACITY
    ensures HandleAppendEntries(digest, n, id, p, gameState) ==
            (if PrevRefused(n, p, pos - 1) then n1 else TakeSnapshot(n1.(currentLeader := p.leaderID), gameState).0,
             AppendEntriesResponse(id, p.term, false, LastIdx(n)))
  {
  }

  lemma RefuseRefines(
      digest: Digest, n: Node, log: seq<RaftLog>, voters: set<ServerID>, id: ServerID, aea: AppendEntriesArgs,
      gameState: Bytes)
    requires Rep(n, log) && GoodRequest(aea)
    requires n.currentTerm <= aea.term && (!PrevMatches(Abs(n, log, voters), aea) || ArrayFull(n, aea))
    ensures var out, s := GuardedAppend(digest, n, id, aea, gameState), Abs(n, log, voters);
            var s' := Adopt(s, aea.term).(role := Follower);
            && out.1 == AppendEntriesResponse(id, aea.term, false, LastIdx(n))
            && Rep(out.0, log) && out.0.config == n.config && (forall e :: e in out.0.logs ==> e in n.logs)
            && Abs(out.0, log, voters) == (if Compacts(n, s, aea) then s'.(base := s.applied + 1) else s')
            && (!Compacts(n, s, aea) ==> out.0.lastSnapshot == n.lastSnapshot)
            && (Compacts(n, s, aea) ==> out.0.lastSnapshot.Some? && out.0.lastSnapshot.value.data == gameState)
  {
    var p := Purge(n, aea);
    var n1, pos := Following(n, aea.term), PrevAt(n, p) + 1;
    Refusing(n, log, voters, aea, p, pos);
    FollowingRefines(n, log, voters, aea.term);
    HandleRefuses(digest, n, id, p, gameState, n1, pos);
    Snapped(n1.(currentLeader := aea.leaderID), log, voters, gameState);
  }

  lemma Refusing(n: Node, log: seq<RaftLog>, voters: set<ServerID>, aea: AppendEntriesArgs, p: AppendEntriesArgs, pos: int)
    requires Rep(n, log) && GoodRequest(aea) && p == Purge(n, aea) && pos == PrevAt(n, p) + 1
    ensures 0 <= pos <= |n.logs| && PrevRefused(n, p, pos - 1) == !PrevMatches(Abs(n, log, voters), aea)
    ensures p.term == aea.term && p.leaderID == aea.leaderID
    ensures PrevMatches(Abs(n, log, voters), aea) ==> Base(n.lastSnapshot) + pos == MergeStart(Abs(n, log, voters), aea)
  {
    PurgeIs(n, log, voters, aea);
    PrevIs(n, log, voters, aea);
  }

  lemma Snapped(n: Node, log: seq<RaftLog>, voters: set<ServerID>, gameState: Bytes)
    requires Rep(n, log)
    ensures var n', s := TakeSnapshot(n, gameState).0, Abs(n, log, voters);
            && Rep(n', log) && n'.config == n.config && (forall e :: e in n'.logs ==> e in n.logs)
            && Abs(n', log, voters) == (if s.base <= s.applied then s.(base := s.applied + 1) else s)
            && (s.base > s.applied ==> n'.lastSnapshot == n.lastSnapshot)
            && (s.base <= s.applied ==> n'.lastSnapshot.Some? && n'.lastSnapshot.value.data == gameState)
  {
    SnapshotRefines(n, log, gameState);
  }

  // ---- without membership changes ----

  predicate NoConfig(entries: seq<RaftLog>) {
    forall e :: e in entries ==> e.kind != LogConfiguration
  }

  /** No membership change is pending that a conflict could revert. */
  predicate Settled(n: Node) {
    n.config.serverConfig == n.config.oldServerConfig
  }

  lemma {:induction false} MergeNoConfig(logs: seq<RaftLog>, pos: nat, entries: seq<RaftLog>)
    requires pos <= |logs| && NoConfig(logs) && NoConfig(entries)
    ensures NoConfig(Merge(logs, pos, entries))
    decreases |entries|
  {
    if entries != [] && pos < |logs| && SameIdTerm(logs[pos], entries[0]) {
      MergeNoConfig(logs, pos + 1, entries[1..]);
    }
  }

  lemma PurgeNoConfig(n: Node, aea: AppendEntriesArgs)
    requires NoConfig(aea.entries)
    ensures NoConfig(Purge(n, aea).entries)
  {
  }

  lemma {:induction false} LoopKeepsConfig(digest: Digest, n: Node, pos: nat, entries: seq<RaftLog>)
    requires pos <= |n.logs| == |n.hashes| && NoConfig(entries) && Settled(n)
    ensures MergeLoop(digest, n, pos, entries).config == n.config
    decreases |entries|
  {
    if entries != [] {
      LoopKeepsConfig(digest, MergeOne(digest, n, pos, entries[0]), pos + 1, entries[1..]);
    }
  }

  /** A request without membership changes leaves a settled configuration as it is. */
  lemma AcceptKeepsConfig(
      digest: Digest, n: Node, log: seq<RaftLog>, voters: set<ServerID>, id: ServerID, aea: AppendEntriesArgs,
      gameState: Bytes)
    requires Rep(n, log) && GoodRequest(aea) && NoConfig(aea.entries) && NoConfig(n.logs) && Settled(n)
    requires n.currentTerm <= aea.term && PrevMatches(Abs(n, log, voters), aea) && !ArrayFull(n, aea)
    ensures var n' := GuardedAppend(digest, n, id, aea, gameState).0; n'.config == n.config && NoConfig(n'.logs)
  {
    var p := Purge(n, aea);
    var n2, pos := Following(n, aea.term).(currentLeader := aea.leaderID), PrevAt(n, p) + 1;
    PurgeNoConfig(n, aea);
    Refusing(n, log, voters, aea, p, pos);
    LoopKeepsConfig(digest, n2, pos, p.entries);
    LoopRefines(digest, n2, pos, p.entries);
    MergeNoConfig(n.logs, pos, p.entries);
    HandleAccepts(digest, n, id, p, gameState, n2, pos, MergeAndCommit(digest, n2, pos, p));
  }
}
