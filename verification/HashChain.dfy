/** The hash chain on the follower's path: each stored hash covers the entry's bytes and the hash before
    it, so equal hashes mean equal histories, or a collision of the hash function is at hand. */
module HashChain {
  import opened Types
  import opened Replica
  import opened Guards
  import opened Refinement
  import opened MergeRefinement

  // ---- the bytes of an entry ----

  function LowByte(x: int): byte {
    (x % 256) as byte
  }

  /** An integer as eight bytes, least significant first, in two's complement. */
  function Int64(x: int): (b: Bytes)
    ensures |b| == 8
  {
    var q1 := x / 256;
    var q2 := q1 / 256;
    var q3 := q2 / 256;
    var q4 := q3 / 256;
    var q5 := q4 / 256;
    var q6 := q5 / 256;
    var q7 := q6 / 256;
    [LowByte(x), LowByte(q1), LowByte(q2), LowByte(q3), LowByte(q4), LowByte(q5), LowByte(q6), LowByte(q7)]
  }

  function KindCode(kind: LogType): int {
    match kind
    case LogCommand => 0
    case LogConfiguration => 1
    case LogNoop => 2
  }

  function Header(e: RaftLog): (b: Bytes)
    ensures |b| == 24
  {
    Int64(e.index) + Int64(e.term) + Int64(KindCode(e.kind))
  }

  function Body(e: RaftLog): Bytes {
    e.data + [if e.config.add then 1 else 0] + e.config.server.addr
  }

  function EntryBytes(e: RaftLog): Bytes {
    Header(e) + Body(e)
  }

  const HALF := 0x80_0000_0000_0000

  /** The range of int64. */
  predicate Fits64(x: int) {
    -256 * HALF <= x < 256 * HALF
  }

  /** Bytes read as a number, least significant first, */
  function Unsigned(b: Bytes): int {
    if b == [] then 0 else b[0] as int + 256 * Unsigned(b[1..])
  }

  /** and as eight bytes in two's complement. */
  function Signed(b: Bytes): int {
    if Unsigned(b) < 256 * HALF then Unsigned(b) else Unsigned(b) - 512 * HALF
  }

  lemma UnsignedStep(b: Bytes)
    requires b != []
    ensures Unsigned(b) == b[0] as int + 256 * Unsigned(b[1..])
  {
  }

  lemma UnsignedFour(b: Bytes)
    requires |b| >= 4
    ensures Unsigned(b) == b[0] as int + 256 * (b[1] as int + 256 * (b[2] as int + 256 * (b[3] as int + 256 * Unsigned(b[4..]))))
  {
    UnsignedStep(b);
    UnsignedStep(b[1..]);
    assert b[1..][1..] == b[2..];
    UnsignedStep(b[2..]);
    assert b[2..][1..] == b[3..];
    UnsignedStep(b[3..]);
    assert b[3..][1..] == b[4..];
  }

  /** Quotients and remainders by 256, put together again. */
  lemma Assembled(x: int, q: seq<int>, b: Bytes)
    requires |q| == 8 && |b| == 8 && q[0] == x
    requires forall i :: 0 <= i < 7 ==> q[i] == 256 * q[i + 1] + b[i] as int
    ensures x == b[0] as int + 256 * (b[1] as int + 256 * (b[2] as int + 256 * (b[3] as int + 256 *
                (b[4] as int + 256 * (b[5] as int + 256 * (b[6] as int + 256 * q[7]))))))
  {
  }

  lemma UnsignedEight(b: Bytes)
    requires |b| == 8
    ensures Unsigned(b) == b[0] as int + 256 * (b[1] as int + 256 * (b[2] as int + 256 * (b[3] as int + 256 *
                             (b[4] as int + 256 * (b[5] as int + 256 * (b[6] as int + 256 * (b[7] as int)))))))
  {
    UnsignedFour(b);
    UnsignedFour(b[4..]);
    assert b[4..][4..] == [];
  }

  function Quotients(x: int): (q: seq<int>)
    ensures |q| == 8
  {
    var q1 := x / 256;
    var q2 := q1 / 256;
    var q3 := q2 / 256;
    var q4 := q3 / 256;
    var q5 := q4 / 256;
    var q6 := q5 / 256;
    [x, q1, q2, q3, q4, q5, q6, q6 / 256]
  }

  lemma QuotientsFit(x: int, q: seq<int>, b: Bytes)
    requires Fits64(x) && q == Quotients(x) && b == Int64(x)
    ensures forall i :: 0 <= i < 7 ==> q[i] == 256 * q[i + 1] + b[i] as int
    ensures -128 <= q[7] < 128 && b[7] as int == if q[7] >= 0 then q[7] else q[7] + 256
  {
  }

  lemma Int64Decodes(x: int)
    requires Fits64(x)
    ensures Signed(Int64(x)) == x
  {
    var q, b := Quotients(x), Int64(x);
    QuotientsFit(x, q, b);
    Assembled(x, q, b);
    UnsignedEight(b);
  }

  // ---- what the bytes determine ----

  /** An entry that carries the payload of its own type only. */
  predicate Plain(e: RaftLog) {
    && (e.kind != LogCommand ==> e.data == [])
    && (e.kind != LogConfiguration ==> e.config == NO_CHANGE)
    && Fits64(e.index) && Fits64(e.term)
  }

  /** Equal up to the client's id and sequence number, which the hash does not cover. */
  predicate SameContent(a: RaftLog, b: RaftLog) {
    a.index == b.index && a.term == b.term && a.kind == b.kind && a.data == b.data && a.config == b.config
  }

  lemma SplitAt(a: Bytes, b: Bytes, c: Bytes, d: Bytes)
    requires a + b == c + d && |a| == |c|
    ensures a == c && b == d
  {
    assert a == (a + b)[..|a|] && c == (c + d)[..|a|];
    assert b == (a + b)[|a|..] && d == (c + d)[|a|..];
  }

  lemma HeaderInjective(a: RaftLog, b: RaftLog)
    requires Plain(a) && Plain(b) && Header(a) == Header(b)
    ensures a.index == b.index && a.term == b.term && a.kind == b.kind
  {
    HeaderDecodes(a, []);
    HeaderDecodes(b, []);
  }

  lemma HeaderDecodes(e: RaftLog, rest: Bytes)
    requires Plain(e)
    ensures var b := Header(e) + rest;
            Signed(b[..8]) == e.index && Signed(b[8..16]) == e.term && Signed(b[16..24]) == KindCode(e.kind) && b[24..] == rest
  {
    var b := Header(e) + rest;
    assert b[..8] == Int64(e.index) && b[8..16] == Int64(e.term) && b[16..24] == Int64(KindCode(e.kind));
    Int64Decodes(e.index);
    Int64Decodes(e.term);
    Int64Decodes(KindCode(e.kind));
  }

  /** The bytes of an entry read back: index, term and type as three numbers, then the payload. */
  function Decoded(b: Bytes): RaftLog
    requires |b| >= 25
  {
    var index, term, code, body := Signed(b[..8]), Signed(b[8..16]), Signed(b[16..24]), b[24..];
    if code == 0 then RaftLog(index, term, LogCommand, body[..|body| - 1], NO_CHANGE, [], 0)
    else if code == 1 then RaftLog(index, term, LogConfiguration, [], ConfigChange(body[0] == 1, ServerID(body[1..])), [], 0)
    else RaftLog(index, term, LogNoop, [], NO_CHANGE, [], 0)
  }

  /** Reading back what was written gives the entry, up to what the hash does not cover. */
  lemma EntryRoundTrip(e: RaftLog)
    requires Plain(e)
    ensures SameContent(Decoded(EntryBytes(e)), e)
  {
    HeaderDecodes(e, Body(e));
    if e.kind == LogCommand {
      assert Body(e) == e.data + [0];
    }
  }

  lemma EntryBytesInjective(a: RaftLog, b: RaftLog)
    requires Plain(a) && Plain(b) && EntryBytes(a) == EntryBytes(b)
    ensures SameContent(a, b)
  {
    EntryRoundTrip(a);
    EntryRoundTrip(b);
  }

  /** Without that, one byte can move between the two payloads. */
  lemma MixedPayloadsCollide(index: int, term: int)
    ensures var a := RaftLog(index, term, LogCommand, [0], NO_CHANGE, [], 0);
            var b := RaftLog(index, term, LogCommand, [], ConfigChange(false, ServerID([0])), [], 0);
            EntryBytes(a) == EntryBytes(b) && !SameContent(a, b)
  {
    var a := RaftLog(index, term, LogCommand, [0], NO_CHANGE, [], 0);
    var b := RaftLog(index, term, LogCommand, [], ConfigChange(false, ServerID([0])), [], 0);
    assert Body(a) == [0, 0] && Body(b) == [0, 0];
  }

  // ---- the chain ----

  const HASH_SIZE := 32

  type Hash = Bytes -> Bytes

  ghost predicate FixedSize(H: Hash) {
    forall b :: |H(b)| == HASH_SIZE
  }

  /** The node's digest: the hash of the entry's bytes and the hash before them. */
  function ChainDigest(H: Hash): Digest {
    (e, prev) => H(EntryBytes(e) + prev)
  }

  function Seed(snap: Option<Snapshot>): Bytes {
    if snap.Some? then snap.value.hash else []
  }

  function HashBefore(hashes: seq<Bytes>, seed: Bytes, i: nat): Bytes
    requires i <= |hashes|
  {
    if i == 0 then seed else hashes[i - 1]
  }

  ghost predicate Chained(digest: Digest, logs: seq<RaftLog>, hashes: seq<Bytes>, seed: Bytes) {
    && |logs| == |hashes|
    && forall i :: 0 <= i < |logs| ==> LinkAt(digest, logs, hashes, seed, i)
  }

  ghost predicate LinkAt(digest: Digest, logs: seq<RaftLog>, hashes: seq<Bytes>, seed: Bytes, i: nat)
    requires |logs| == |hashes| && i < |logs|
  {
    hashes[i] == digest(logs[i], HashBefore(hashes, seed, i))
  }

  ghost predicate LinkOf(digest: Digest, n: Node, i: nat)
    requires |n.logs| == |n.hashes| && i < |n.logs|
  {
    LinkAt(digest, n.logs, n.hashes, Seed(n.lastSnapshot), i)
  }

  ghost predicate Linked(digest: Digest, n: Node) {
    && Shaped(n.logs, n.hashes, Base(n.lastSnapshot))
    && Base(n.lastSnapshot) >= 0
    && Chained(digest, n.logs, n.hashes, Seed(n.lastSnapshot))
  }

  /** Storing an entry at its place links it, whatever it overwrites. */
  lemma PlaceLinks(digest: Digest, n: Node, pos: nat, entry: RaftLog)
    requires Linked(digest, n) && pos <= |n.logs| && pos < CAPACITY && entry.index == Base(n.lastSnapshot) + pos
    ensures Linked(digest, Place(digest, n, pos, entry))
  {
    var n', seed := Place(digest, n, pos, entry), Seed(n.lastSnapshot);
    FindIsSubtraction(n'.logs, Base(n.lastSnapshot), entry.index);
    forall i | 0 <= i < |n'.logs| ensures LinkAt(digest, n'.logs, n'.hashes, seed, i) {
      if i < pos {
        assert LinkOf(digest, n, i);
      }
    }
  }

  lemma {:induction false} MergeLinks(digest: Digest, n: Node, pos: nat, entries: seq<RaftLog>)
    requires Linked(digest, n) && pos <= |n.logs| && pos + |entries| <= CAPACITY
    requires Contiguous(entries, Base(n.lastSnapshot) + pos)
    ensures var n' := MergeLoop(digest, n, pos, entries);
            Linked(digest, n') && n'.lastSnapshot == n.lastSnapshot
    decreases |entries|
  {
    if entries != [] {
      var n1 := MergeOne(digest, n, pos, entries[0]);
      OneLinks(digest, n, pos, entries[0]);
      MergeLinks(digest, n1, pos + 1, entries[1..]);
    }
  }

  lemma OneLinks(digest: Digest, n: Node, pos: nat, entry: RaftLog)
    requires Linked(digest, n) && pos <= |n.logs| && pos < CAPACITY && entry.index == Base(n.lastSnapshot) + pos
    ensures var n' := MergeOne(digest, n, pos, entry); Linked(digest, n') && n'.lastSnapshot == n.lastSnapshot
  {
    PlaceLinks(digest, n, pos, entry);
    PlaceLinks(digest, n.(config := n.config.(serverConfig := n.config.oldServerConfig)), pos, entry);
  }

  /** Compaction keeps the hash it cuts at as the new seed. */
  lemma SnapshotLinks(digest: Digest, n: Node, gameState: Bytes)
    requires Linked(digest, n) && n.lastApplied >= -1
    ensures Linked(digest, TakeSnapshot(n, gameState).0)
  {
    FindIsSubtraction(n.logs, Base(n.lastSnapshot), n.lastApplied);
    var n', ok := TakeSnapshot(n, gameState).0, TakeSnapshot(n, gameState).1;
    if ok {
      var cut := n.lastApplied - Base(n.lastSnapshot) + 1;
      forall i | 0 <= i < |n'.logs| ensures LinkAt(digest, n'.logs, n'.hashes, Seed(n'.lastSnapshot), i) {
        assert LinkOf(digest, n, cut + i);
      }
    }
  }

  ghost predicate GoodEntries(aea: AppendEntriesArgs) {
    aea.prevLogIndex >= -1 && Contiguous(aea.entries, aea.prevLogIndex + 1)
  }

  /** Where an accepted request starts, its first entry belongs. */
  lemma StartBelongs(n: Node, aea: AppendEntriesArgs)
    requires Shaped(n.logs, n.hashes, Base(n.lastSnapshot)) && Base(n.lastSnapshot) >= 0 && GoodEntries(aea)
    ensures var p := Purge(n, aea);
            && -1 <= PrevAt(n, p) < |n.logs| && p.term == aea.term
            && (!PrevRefused(n, p, PrevAt(n, p)) ==> Contiguous(p.entries, Base(n.lastSnapshot) + PrevAt(n, p) + 1))
  {
    if n.lastSnapshot.Some? {
      CoveredIs(aea.entries, aea.prevLogIndex + 1, n.lastSnapshot.value.lastIncludedIndex);
    }
    FindIsSubtraction(n.logs, Base(n.lastSnapshot), Purge(n, aea).prevLogIndex);
  }

  /** An append request, accepted or refused, keeps the chain. */
  lemma AppendLinks(digest: Digest, n: Node, id: ServerID, aea: AppendEntriesArgs, gameState: Bytes)
    requires Linked(digest, n) && n.lastApplied >= -1 && GoodEntries(aea)
    ensures var n' := GuardedAppend(digest, n, id, aea, gameState).0; Linked(digest, n') && n'.lastApplied == n.lastApplied
  {
    var p := Purge(n, aea);
    var pos := PrevAt(n, p) + 1;
    StartBelongs(n, aea);
    if aea.term >= n.currentTerm {
      if !PrevRefused(n, p, pos - 1) && pos + |p.entries| < CAPACITY {
        AcceptLinks(digest, n, id, p, gameState, pos);
      } else {
        RefuseLinks(digest, n, id, p, gameState, pos);
      }
    }
  }

  lemma AcceptLinks(digest: Digest, n: Node, id: ServerID, p: AppendEntriesArgs, gameState: Bytes, pos: nat)
    requires Linked(digest, n) && n.currentTerm <= p.term
    requires -1 <= PrevAt(n, p) < |n.logs| && pos == PrevAt(n, p) + 1
    requires !PrevRefused(n, p, PrevAt(n, p)) && pos + |p.entries| < CAPACITY
    requires Contiguous(p.entries, Base(n.lastSnapshot) + pos)
    ensures var n' := HandleAppendEntries(digest, n, id, p, gameState).0; Linked(digest, n') && n'.lastApplied == n.lastApplied
  {
    var n2 := Following(n, p.term).(currentLeader := p.leaderID);
    MergeLinks(digest, n2, pos, p.entries);
    MergeKeepsApplied(digest, n2, pos, p.entries);
    HandleAccepts(digest, n, id, p, gameState, n2, pos, MergeAndCommit(digest, n2, pos, p));
  }

  lemma RefuseLinks(digest: Digest, n: Node, id: ServerID, p: AppendEntriesArgs, gameState: Bytes, pos: nat)
    requires Linked(digest, n) && n.currentTerm <= p.term && n.lastApplied >= -1
    requires -1 <= PrevAt(n, p) < |n.logs| && pos == PrevAt(n, p) + 1
    requires PrevRefused(n, p, PrevAt(n, p)) || pos + |p.entries| >= CAPACITY
    ensures var n' := HandleAppendEntries(digest, n, id, p, gameState).0; Linked(digest, n') && n'.lastApplied == n.lastApplied
  {
    var n1 := Following(n, p.term);
    HandleRefuses(digest, n, id, p, gameState, n1, pos);
    SnapshotLinks(digest, n1.(currentLeader := p.leaderID), gameState);
  }

  lemma {:induction false} MergeKeepsApplied(digest: Digest, n: Node, pos: nat, entries: seq<RaftLog>)
    requires pos <= |n.logs| == |n.hashes|
    ensures MergeLoop(digest, n, pos, entries).lastApplied == n.lastApplied
    decreases |entries|
  {
    if entries != [] {
      MergeKeepsApplied(digest, MergeOne(digest, n, pos, entries[0]), pos + 1, entries[1..]);
    }
  }

  // ---- a follower's life ----

  datatype FollowerOp =
    | Receive(aea: AppendEntriesArgs, gameState: Bytes)
    | Install(isa: InstallSnapshotArgs)
    | Vote(rva: RequestVoteArgs)
    | Apply

  function Perform(digest: Digest, n: Node, id: ServerID, op: FollowerOp): Node
    requires |n.logs| == |n.hashes|
  {
    match op
    case Receive(aea, gameState) => GuardedAppend(digest, n, id, aea, gameState).0
    case Install(isa) => GuardedInstall(n, id, isa).0
    case Vote(rva) => GuardedVote(n, id, rva).0
    case Apply => UpdateLastApplied(n).0
  }

  ghost predicate GoodOp(op: FollowerOp) {
    match op
    case Receive(aea, gameState) => GoodEntries(aea)
    case Install(isa) => isa.lastIncludedIndex >= 0
    case Vote(rva) => true
    case Apply => true
  }

  function PerformAll(digest: Digest, n: Node, id: ServerID, ops: seq<FollowerOp>): Node
    requires |n.logs| == |n.hashes|
    decreases |ops|
  {
    if ops == [] then n
    else
      var n1 := Perform(digest, n, id, ops[0]);
      if |n1.logs| == |n1.hashes| then PerformAll(digest, n1, id, ops[1..]) else n1
  }

  lemma PerformLinks(digest: Digest, n: Node, id: ServerID, op: FollowerOp)
    requires Linked(digest, n) && n.lastApplied >= -1 && GoodOp(op)
    ensures var n' := Perform(digest, n, id, op); Linked(digest, n') && n'.lastApplied >= -1
  {
    match op
    case Receive(aea, gameState) => AppendLinks(digest, n, id, aea, gameState);
    case Install(isa) => InstallLinks(digest, n, id, isa);
    case Vote(rva) => VoteLinks(digest, n, id, rva);
    case Apply => SameLinks(digest, n, UpdateLastApplied(n).0);
  }

  lemma VoteLinks(digest: Digest, n: Node, id: ServerID, rva: RequestVoteArgs)
    requires Linked(digest, n)
    ensures var n' := GuardedVote(n, id, rva).0; Linked(digest, n') && n'.lastApplied == n.lastApplied
  {
    SameLinks(digest, n, GuardedVote(n, id, rva).0);
  }

  lemma InstallLinks(digest: Digest, n: Node, id: ServerID, isa: InstallSnapshotArgs)
    requires Linked(digest, n) && n.lastApplied >= -1 && isa.lastIncludedIndex >= 0
    ensures var n' := GuardedInstall(n, id, isa).0; Linked(digest, n') && n'.lastApplied >= -1
  {
    var n' := GuardedInstall(n, id, isa).0;
    if n'.lastSnapshot == n.lastSnapshot && n'.logs == n.logs {
      SameLinks(digest, n, n');
    }
  }

  lemma SameLinks(digest: Digest, n: Node, n': Node)
    requires Linked(digest, n) && n'.logs == n.logs && n'.hashes == n.hashes && n'.lastSnapshot == n.lastSnapshot
    ensures Linked(digest, n')
  {
  }

  /** Through any sequence of merges, truncations, compactions, installs and votes the chain holds. */
  lemma {:induction false} ChainHolds(digest: Digest, n: Node, id: ServerID, ops: seq<FollowerOp>)
    requires Linked(digest, n) && n.lastApplied >= -1 && forall op :: op in ops ==> GoodOp(op)
    ensures Linked(digest, PerformAll(digest, n, id, ops))
    decreases |ops|
  {
    if ops != [] {
      PerformLinks(digest, n, id, ops[0]);
      ChainHolds(digest, Perform(digest, n, id, ops[0]), id, ops[1..]);
    }
  }

  /** A leader's own append keeps the chain exactly when the array was empty, or the hash function
      does not tell the skipped link from the seed: guard G9. */
  lemma LeaderLinksIff(digest: Digest, n: Node, id: ServerID, entry: RaftLog)
    requires Linked(digest, n) && |n.logs| < CAPACITY && entry.index == Base(n.lastSnapshot) + |n.logs|
    ensures Linked(digest, Append(digest, n, id, entry))
            <==> n.logs == []
                 || digest(entry, n.hashes[|n.logs| - 1]) == digest(entry, Seed(n.lastSnapshot))
  {
    var n', seed, last := Append(digest, n, id, entry), Seed(n.lastSnapshot), |n.logs|;
    FindIsSubtraction(n.logs, Base(n.lastSnapshot), entry.index);
    assert n'.hashes[last] == digest(entry, seed);
    forall i | 0 <= i < last ensures LinkAt(digest, n'.logs, n'.hashes, seed, i) {
      assert LinkOf(digest, n, i);
    }
    assert Linked(digest, n') <==> LinkAt(digest, n'.logs, n'.hashes, seed, last);
  }

  /** Recovery leaves every hash blank: the chain holds exactly when blank is the hash of every entry
      over the blank hash before it, or over the seed. */
  lemma RecoveryLinksIff(digest: Digest, id: ServerID, peers: set<ServerID>, ps: PersistentState, snap: Option<Snapshot>)
    requires var n := Recover(id, peers, ps, snap); Shaped(n.logs, n.hashes, Base(snap)) && Base(snap) >= 0
    ensures var n := Recover(id, peers, ps, snap);
            Linked(digest, n)
            <==> forall i :: 0 <= i < |n.logs| ==> digest(n.logs[i], if i == 0 then Seed(snap) else BLANK) == BLANK
  {
    var n := Recover(id, peers, ps, snap);
    forall i | 0 <= i < |n.logs|
      ensures LinkOf(digest, n, i) <==> digest(n.logs[i], if i == 0 then Seed(snap) else BLANK) == BLANK
    {
      assert n.hashes[i] == BLANK && HashBefore(n.hashes, Seed(snap), i) == if i == 0 then Seed(snap) else BLANK;
    }
    if Linked(digest, n) {
      forall i | 0 <= i < |n.logs| ensures digest(n.logs[i], if i == 0 then Seed(snap) else BLANK) == BLANK {
        assert LinkOf(digest, n, i);
      }
    }
    if forall i :: 0 <= i < |n.logs| ==> digest(n.logs[i], if i == 0 then Seed(snap) else BLANK) == BLANK {
      forall i | 0 <= i < |n.logs| ensures LinkAt(digest, n.logs, n.hashes, Seed(snap), i) {
        assert LinkOf(digest, n, i);
      }
    }
  }

  // ---- equal hashes, equal histories ----

  ghost predicate Collision(H: Hash, x: Bytes, y: Bytes) {
    x != y && H(x) == H(y)
  }

  /** A chain whose seed has the size of a hash, unless there is nothing before the first entry. */
  ghost predicate Anchored(n: Node) {
    && |Seed(n.lastSnapshot)| == (if Base(n.lastSnapshot) == 0 then 0 else HASH_SIZE)
    && forall i :: 0 <= i < |n.logs| ==> Plain(n.logs[i])
  }

  lemma SizeBefore(H: Hash, n: Node, i: nat)
    requires FixedSize(H) && Linked(ChainDigest(H), n) && Anchored(n) && i < |n.logs|
    ensures |HashBefore(n.hashes, Seed(n.lastSnapshot), i)| == if n.logs[i].index == 0 then 0 else HASH_SIZE
  {
    if i > 0 {
      assert LinkOf(ChainDigest(H), n, i - 1);
      var input := EntryBytes(n.logs[i - 1]) + HashBefore(n.hashes, Seed(n.lastSnapshot), i - 1);
      assert n.hashes[i - 1] == H(input);
      assert |H(input)| == HASH_SIZE;
    }
  }

  /** One link: equal hashes mean equal contents and equal hashes before. */
  lemma LinkInjective(H: Hash, n: Node, i: nat, m: Node, j: nat) returns (x: Bytes, y: Bytes)
    requires FixedSize(H) && Linked(ChainDigest(H), n) && Linked(ChainDigest(H), m) && Anchored(n) && Anchored(m)
    requires i < |n.logs| && j < |m.logs| && n.hashes[i] == m.hashes[j]
    ensures Collision(H, x, y)
            || (SameContent(n.logs[i], m.logs[j])
                && HashBefore(n.hashes, Seed(n.lastSnapshot), i) == HashBefore(m.hashes, Seed(m.lastSnapshot), j))
  {
    var p, q := HashBefore(n.hashes, Seed(n.lastSnapshot), i), HashBefore(m.hashes, Seed(m.lastSnapshot), j);
    x, y := EntryBytes(n.logs[i]) + p, EntryBytes(m.logs[j]) + q;
    assert LinkOf(ChainDigest(H), n, i) && LinkOf(ChainDigest(H), m, j);
    if x == y {
      SizeBefore(H, n, i);
      SizeBefore(H, m, j);
      SameInputs(n.logs[i], p, m.logs[j], q);
    }
  }

  lemma SameInputs(a: RaftLog, p: Bytes, b: RaftLog, q: Bytes)
    requires Plain(a) && Plain(b) && EntryBytes(a) + p == EntryBytes(b) + q
    requires |p| == (if a.index == 0 then 0 else HASH_SIZE) && |q| == (if b.index == 0 then 0 else HASH_SIZE)
    ensures SameContent(a, b) && p == q
  {
    assert Header(a) + (Body(a) + p) == EntryBytes(a) + p && Header(b) + (Body(b) + q) == EntryBytes(b) + q;
    SplitAt(Header(a), Body(a) + p, Header(b), Body(b) + q);
    HeaderInjective(a, b);
    assert |EntryBytes(a) + p| == |EntryBytes(a)| + |p| && |EntryBytes(b) + q| == |EntryBytes(b)| + |q|;
    SplitAt(EntryBytes(a), p, EntryBytes(b), q);
    EntryBytesInjective(a, b);
  }

  /** Equal hashes anywhere in two chains: the entries there and all that both arrays hold before
      them are the same, or the walk back runs into a collision. */
  lemma {:induction false} EqualHashesEqualHistories(H: Hash, n: Node, i: nat, m: Node, j: nat) returns (x: Bytes, y: Bytes)
    requires FixedSize(H) && Linked(ChainDigest(H), n) && Linked(ChainDigest(H), m) && Anchored(n) && Anchored(m)
    requires i < |n.logs| && j < |m.logs| && n.hashes[i] == m.hashes[j]
    ensures Collision(H, x, y)
            || (n.logs[i].index == m.logs[j].index
                && forall k, l :: 0 <= k <= i && 0 <= l <= j && n.logs[k].index == m.logs[l].index
                                  ==> SameContent(n.logs[k], m.logs[l]))
    decreases i
  {
    x, y := LinkInjective(H, n, i, m, j);
    if !Collision(H, x, y) && i > 0 && j > 0 {
      x, y := EqualHashesEqualHistories(H, n, i - 1, m, j - 1);
    }
  }
}
