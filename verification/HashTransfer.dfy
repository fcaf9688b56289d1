/** The hash chain across nodes: what compaction cuts off, a snapshot carries on, and equal hashes mean
    equal histories between any two followers that grew from nothing. */
module HashTransfer {
  import opened Types
  import opened Agreement
  import opened Replica
  import opened Guards
  import opened Refinement
  import opened MergeRefinement
  import opened HandlerRefinement
  import opened HashChain

  // ---- a snapshot carries the chain on ----

  /** Two chains over the same entries from the same seed are the same. */
  lemma {:induction false} SameChain(digest: Digest, n: Node, m: Node, k: nat)
    requires Linked(digest, n) && Linked(digest, m) && n.logs == m.logs && k <= |n.logs|
    requires Seed(n.lastSnapshot) == Seed(m.lastSnapshot)
    ensures forall i :: 0 <= i < k ==> n.hashes[i] == m.hashes[i]
  {
    if k > 0 {
      SameChain(digest, n, m, k - 1);
      assert LinkOf(digest, n, k - 1) && LinkOf(digest, m, k - 1);
    }
  }

  /** The snapshot a leader ships replaces the receiver's, whole: index, term, state, servers, hash. */
  lemma ShippedIsInstalled(s: Node, f: Node, flog: seq<RaftLog>, me: ServerID, id: ServerID)
    requires s.lastSnapshot.Some? && Rep(f, flog) && f.currentTerm <= s.currentTerm
    requires f.lastApplied < s.lastSnapshot.value.lastIncludedIndex && LastIndex(flog) <= s.lastSnapshot.value.lastIncludedIndex
    ensures var out, cut := GuardedInstall(f, id, PrepareInstallSnapshot(s, me)), s.lastSnapshot.value.lastIncludedIndex;
            && out.0.lastSnapshot == s.lastSnapshot && out.0.logs == [] && out.0.hashes == []
            && out.0.currentTerm == s.currentTerm && out.0.commitIndex == out.0.lastApplied == cut
            && out.1 == Some(InstallSnapshotResponse(id, s.currentTerm, true, cut, s.lastSnapshot.value.lastIncludedTerm))
            && out.2 == Some(s.lastSnapshot.value.data)
            && out.0.config == f.config
  {
    LastOfFull(f, flog);
  }

  /** Told so, the leader asks next for what its array still holds. */
  lemma RestIsNext(s: Node, log: seq<RaftLog>, id: ServerID, isr: InstallSnapshotResponse)
    requires Rep(s, log) && s.lastSnapshot.Some? && isr.success && isr.id == id && isr.term == s.currentTerm
    requires isr.lastIncludedIndex == s.lastSnapshot.value.lastIncludedIndex
    ensures var s1 := GuardedInstallReply(s, isr);
            var req := GetAppendEntriesArgs(s1, id).1;
            && s1.nextIndex == s.nextIndex[id := isr.lastIncludedIndex + 1]
            && s1.matchIndex == s.matchIndex[id := isr.lastIncludedIndex]
            && s1.lastSentLogIndex == s.lastSentLogIndex[id := isr.lastIncludedIndex]
            && req.Some? && req.value.term == s.currentTerm && req.value.entries == s.logs
            && req.value.prevLogIndex == isr.lastIncludedIndex
  {
    var s1 := GuardedInstallReply(s, isr);
    assert Rep(s1, log);
    RequestRefines(s1, log, id);
  }

  /** Right after a snapshot nothing is purged, and the snapshot is the entry before. */
  lemma RestFits(f: Node, args: AppendEntriesArgs, pos: int)
    requires f.lastSnapshot.Some? && f.logs == [] && args.prevLogIndex == f.lastSnapshot.value.lastIncludedIndex
    requires Contiguous(args.entries, args.prevLogIndex + 1) && pos == PrevAt(f, args) + 1
    ensures pos == 0 && Purge(f, args) == args && !PrevRefused(f, args, pos - 1)
  {
    CoveredIs(args.entries, args.prevLogIndex + 1, args.prevLogIndex);
  }

  lemma RestIsMerged(digest: Digest, f: Node, id: ServerID, args: AppendEntriesArgs, gameState: Bytes)
    requires f.lastSnapshot.Some? && f.logs == [] && f.hashes == [] && f.currentTerm <= args.term
    requires args.prevLogIndex == f.lastSnapshot.value.lastIncludedIndex
    requires Contiguous(args.entries, args.prevLogIndex + 1) && |args.entries| < CAPACITY
    ensures var out := GuardedAppend(digest, f, id, args, gameState);
            out.1.success && out.0.logs == args.entries && out.0.lastSnapshot == f.lastSnapshot
  {
    var n2 := Following(f, args.term).(currentLeader := args.leaderID);
    var n', pos := MergeAndCommit(digest, n2, 0, args), PrevAt(f, args) + 1;
    RestFits(f, args, pos);
    LoopRefines(digest, n2, 0, args.entries);
    HandleAccepts(digest, f, id, args, gameState, n2, pos, n');
    assert n2.logs[..0] + args.entries == args.entries;
  }

  /** The receiver takes the rest over, hashes and all. */
  lemma RestIsTaken(digest: Digest, s: Node, f: Node, id: ServerID, args: AppendEntriesArgs, gameState: Bytes)
    requires Linked(digest, s) && |s.logs| < CAPACITY && s.lastSnapshot.Some?
    requires f.lastSnapshot == s.lastSnapshot && f.logs == [] && f.hashes == [] && f.lastApplied >= -1
    requires f.currentTerm <= args.term && args.entries == s.logs
    requires args.prevLogIndex == s.lastSnapshot.value.lastIncludedIndex
    ensures var out := GuardedAppend(digest, f, id, args, gameState);
            out.1.success && out.0.logs == s.logs && out.0.hashes == s.hashes
  {
    RestIsMerged(digest, f, id, args, gameState);
    AppendLinks(digest, f, id, args, gameState);
    SameChain(digest, GuardedAppend(digest, f, id, args, gameState).0, s, |s.logs|);
  }

  /** A leader compacts, ships its snapshot to a follower that has nothing past it, hears that it was
      installed, and sends the rest: the follower's seed is the hash that the leader's chain had at the
      cut, and its entries and hashes are the leader's. */
  lemma SnapshotCarriesChain(
      digest: Digest, s: Node, slog: seq<RaftLog>, f: Node, flog: seq<RaftLog>, me: ServerID, id: ServerID,
      mine: Bytes, theirs: Bytes)
    requires Rep(s, slog) && Linked(digest, s) && Base(s.lastSnapshot) <= s.lastApplied
    requires Rep(f, flog) && f.currentTerm <= s.currentTerm
    requires f.lastApplied < s.lastApplied && LastIndex(flog) <= s.lastApplied
    ensures var s1 := TakeSnapshot(s, mine).0;
            && s1.lastSnapshot.Some?
            && var inst := GuardedInstall(f, id, PrepareInstallSnapshot(s1, me));
            && inst.1.Some?
            && Seed(inst.0.lastSnapshot) == s.hashes[s.lastApplied - Base(s.lastSnapshot)]
            && inst.0.lastSnapshot == s1.lastSnapshot && inst.0.logs == [] && inst.0.hashes == []
            && var req := GetAppendEntriesArgs(GuardedInstallReply(s1, inst.1.value), id).1;
            && req.Some?
            && var out := GuardedAppend(digest, inst.0, id, req.value, theirs);
               out.1.success && out.0.logs == s1.logs && out.0.hashes == s1.hashes
  {
    var s1 := TakeSnapshot(s, mine).0;
    SnapshotRecords(s, slog, mine);
    SnapshotRefines(s, slog, mine);
    SnapshotLinks(digest, s, mine);
    var inst := GuardedInstall(f, id, PrepareInstallSnapshot(s1, me));
    ShippedIsInstalled(s1, f, flog, me, id);
    RestIsNext(s1, slog, id, inst.1.value);
    RestIsTaken(digest, s1, inst.0, id, GetAppendEntriesArgs(GuardedInstallReply(s1, inst.1.value), id).1.value, theirs);
  }

  // ---- seeds stay hashes ----

  /** Entries carry the payload of their own type, and a shipped hash is a hash. */
  ghost predicate PlainOp(op: FollowerOp) {
    match op
    case Receive(aea, gameState) => forall i :: 0 <= i < |aea.entries| ==> Plain(aea.entries[i])
    case Install(isa) => |isa.hash| == HASH_SIZE
    case Vote(rva) => true
    case Apply => true
  }

  ghost predicate AllPlain(logs: seq<RaftLog>) {
    forall i :: 0 <= i < |logs| ==> Plain(logs[i])
  }

  lemma {:induction false} MergePlain(logs: seq<RaftLog>, pos: nat, entries: seq<RaftLog>)
    requires pos <= |logs| && AllPlain(logs) && AllPlain(entries)
    ensures AllPlain(Merge(logs, pos, entries))
    decreases |entries|
  {
    if entries != [] && pos < |logs| && SameIdTerm(logs[pos], entries[0]) {
      MergePlain(logs, pos + 1, entries[1..]);
    }
  }

  /** What compaction leaves as seed is the hash of an entry. */
  lemma SnapshotAnchored(H: Hash, n: Node, gameState: Bytes)
    requires FixedSize(H) && Linked(ChainDigest(H), n) && Anchored(n) && n.lastApplied >= -1
    ensures var n' := TakeSnapshot(n, gameState).0; Linked(ChainDigest(H), n') && Anchored(n')
  {
    SnapshotLinks(ChainDigest(H), n, gameState);
    var i := Find(n.logs, n.lastApplied);
    if i >= 0 {
      HashSized(H, n, i);
      assert Base(TakeSnapshot(n, gameState).0.lastSnapshot) == n.logs[i].index + 1;
    }
  }

  lemma HashSized(H: Hash, n: Node, i: nat)
    requires FixedSize(H) && Linked(ChainDigest(H), n) && i < |n.logs|
    ensures |n.hashes[i]| == HASH_SIZE
  {
    assert LinkOf(ChainDigest(H), n, i);
    var input := EntryBytes(n.logs[i]) + HashBefore(n.hashes, Seed(n.lastSnapshot), i);
    assert n.hashes[i] == H(input);
    assert |H(input)| == HASH_SIZE;
  }

  lemma AppendAnchored(H: Hash, n: Node, id: ServerID, aea: AppendEntriesArgs, gameState: Bytes)
    requires FixedSize(H) && Linked(ChainDigest(H), n) && Anchored(n) && n.lastApplied >= -1
    requires GoodEntries(aea) && AllPlain(aea.entries)
    ensures Anchored(GuardedAppend(ChainDigest(H), n, id, aea, gameState).0)
  {
    var digest, p := ChainDigest(H), Purge(n, aea);
    var pos := PrevAt(n, p) + 1;
    assert AllPlain(p.entries);
    if aea.term >= n.currentTerm {
      var n1 := Following(n, p.term);
      var n2 := n1.(currentLeader := p.leaderID);
      if !PrevRefused(n, p, pos - 1) && pos + |p.entries| < CAPACITY {
        LoopRefines(digest, n2, pos, p.entries);
        MergePlain(n.logs, pos, p.entries);
        HandleAccepts(digest, n, id, p, gameState, n2, pos, MergeAndCommit(digest, n2, pos, p));
      } else {
        HandleRefuses(digest, n, id, p, gameState, n1, pos);
        SameLinks(digest, n, n2);
        SnapshotAnchored(H, n2, gameState);
      }
    }
  }

  lemma PerformAnchored(H: Hash, n: Node, id: ServerID, op: FollowerOp)
    requires FixedSize(H) && Linked(ChainDigest(H), n) && Anchored(n) && n.lastApplied >= -1 && GoodOp(op) && PlainOp(op)
    ensures Anchored(Perform(ChainDigest(H), n, id, op))
  {
    match op
    case Receive(aea, gameState) => AppendAnchored(H, n, id, aea, gameState);
    case Install(isa) => InstallAnchored(n, id, isa);
    case Vote(rva) =>
    case Apply =>
  }

  lemma InstallAnchored(n: Node, id: ServerID, isa: InstallSnapshotArgs)
    requires Anchored(n) && isa.lastIncludedIndex >= 0 && |isa.hash| == HASH_SIZE
    ensures Anchored(GuardedInstall(n, id, isa).0)
  {
    var n' := GuardedInstall(n, id, isa).0;
    assert n'.logs == [] || n'.logs == n.logs;
  }

  /** Through any sequence of merges, compactions, votes and installs of hash-sized seeds, each stored
      hash covers its entry and the hash before it, and the seed is a hash. */
  lemma {:induction false} AnchoredHolds(H: Hash, n: Node, id: ServerID, ops: seq<FollowerOp>)
    requires FixedSize(H) && Linked(ChainDigest(H), n) && Anchored(n) && n.lastApplied >= -1
    requires forall op :: op in ops ==> GoodOp(op) && PlainOp(op)
    ensures var n' := PerformAll(ChainDigest(H), n, id, ops); Linked(ChainDigest(H), n') && Anchored(n')
    decreases |ops|
  {
    if ops != [] {
      PerformLinks(ChainDigest(H), n, id, ops[0]);
      PerformAnchored(H, n, id, ops[0]);
      AnchoredHolds(H, Perform(ChainDigest(H), n, id, ops[0]), id, ops[1..]);
    }
  }

  /** And it ships nothing but hashes. */
  lemma ShipsHashes(H: Hash, n: Node, gameState: Bytes, me: ServerID)
    requires FixedSize(H) && Linked(ChainDigest(H), n) && Anchored(n) && n.lastApplied >= -1
    ensures var n' := TakeSnapshot(n, gameState).0;
            n'.lastSnapshot.Some? && n'.lastSnapshot.value.lastIncludedIndex >= 0
            ==> PlainOp(Install(PrepareInstallSnapshot(n', me)))
  {
    SnapshotAnchored(H, n, gameState);
  }

  /** Two followers that grew from nothing, whatever each has received, installed and compacted: an
      equal hash anywhere means equal entries there and before, as far back as both arrays go, or a
      collision of the hash function is at hand. */
  lemma FollowersAgree(
      H: Hash, a: ServerID, others: set<ServerID>, ops: seq<FollowerOp>, i: nat,
      b: ServerID, rest: set<ServerID>, ops': seq<FollowerOp>, j: nat) returns (x: Bytes, y: Bytes)
    requires FixedSize(H)
    requires forall op :: op in ops || op in ops' ==> GoodOp(op) && PlainOp(op)
    ensures var n, m := PerformAll(ChainDigest(H), NewNode(a, others), a, ops), PerformAll(ChainDigest(H), NewNode(b, rest), b, ops');
            && |n.logs| == |n.hashes| && |m.logs| == |m.hashes|
            && (i < |n.logs| && j < |m.logs| && n.hashes[i] == m.hashes[j] ==>
                  || Collision(H, x, y)
                  || (n.logs[i].index == m.logs[j].index
                      && forall k, l :: 0 <= k <= i && 0 <= l <= j && n.logs[k].index == m.logs[l].index
                                        ==> SameContent(n.logs[k], m.logs[l])))
  {
    var n := PerformAll(ChainDigest(H), NewNode(a, others), a, ops);
    var m := PerformAll(ChainDigest(H), NewNode(b, rest), b, ops');
    x, y := [], [];
    AnchoredHolds(H, NewNode(a, others), a, ops);
    AnchoredHolds(H, NewNode(b, rest), b, ops');
    if i < |n.logs| && j < |m.logs| && n.hashes[i] == m.hashes[j] {
      x, y := EqualHashesEqualHistories(H, n, i, m, j);
    }
  }
}
