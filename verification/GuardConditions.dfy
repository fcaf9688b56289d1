/** For the guards that change what a handler does (G1 to G6, G10 and G11), exactly when the code as it
    stands already does what the guard asks, and what goes wrong when it does not. For G9 this is in
    `HashChain`; that queued changes start only while the node leads (G8) is in `ConfigChanges`. */
module GuardConditions {
  import opened Types
  import opened Agreement
  import opened Replica
  import opened Guards
  import opened Refinement
  import opened MergeRefinement
  import opened HandlerRefinement
  import C = Cluster
  import AC = ArrayCluster

  // ---- G1: stepping down ----

  /** A vote handler leaves the role of a newer term's non-follower as it was exactly when it
      refuses the candidate for its log. */
  lemma VoteStepsDownIff(n: Node, id: ServerID, rva: RequestVoteArgs)
    ensures HandleRequestToVote(n, id, rva) == GuardedVote(n, id, rva)
            <==> !(rva.term > n.currentTerm && n.role != Follower && !LogOK(n, rva))
  {
    assert LogOK(UpdateTerm(n, rva.term), rva) == LogOK(n, rva);
  }

  /** Then a leader finds itself leading a term it was not elected in. */
  lemma LeaderUnelected(n: Node, id: ServerID, rva: RequestVoteArgs)
    requires n.role == Leader && rva.term > n.currentTerm
    ensures var n' := HandleRequestToVote(n, id, rva).0;
            n'.currentTerm == rva.term && (n'.role == Leader <==> !LogOK(n, rva))
  {
    assert LogOK(UpdateTerm(n, rva.term), rva) == LogOK(n, rva);
  }

  /** An install that guard G6 lets through does what G1 asks unless it brings a newer term to a
      node that is no follower. */
  lemma InstallStepsDownIff(n: Node, id: ServerID, isa: InstallSnapshotArgs)
    requires !(isa.term >= n.currentTerm && HoldsPast(n, isa))
    ensures HandleInstallSnapshotRequest(n, id, isa).0 == GuardedInstall(n, id, isa).0
            <==> !(isa.term > n.currentTerm && n.role != Follower)
  {
  }

  // ---- G2: a fresh tenure ----

  lemma TenureIsFreshIff(digest: Digest, n: Node, id: ServerID)
    requires |n.logs| == |n.hashes|
    ensures WinElection(digest, n, id) == GuardedWin(digest, n, id)
            <==> (forall p :: p in n.matchIndex && p != id ==> n.matchIndex[p] == -1)
                 && (forall p :: p in n.lastSentLogIndex && p != id ==> n.lastSentLogIndex[p] == -1)
  {
    var won := WinElection(digest, n, id);
    forall p | p != id
      ensures p in won.matchIndex <==> p in n.matchIndex
      ensures p in n.matchIndex ==> won.matchIndex[p] == n.matchIndex[p]
      ensures p in won.lastSentLogIndex <==> p in n.lastSentLogIndex
      ensures p in n.lastSentLogIndex ==> won.lastSentLogIndex[p] == n.lastSentLogIndex[p]
    {
    }
    SameKeysSame(won.matchIndex, id);
    SameKeysSame(won.lastSentLogIndex, id);
  }

  lemma SameKeysSame(m: map<ServerID, int>, id: ServerID)
    ensures (map p | p in m :: if p == id then m[p] else -1) == m
            <==> forall p :: p in m && p != id ==> m[p] == -1
  {
    var blank := map p | p in m :: if p == id then m[p] else -1;
    if forall p :: p in m && p != id ==> m[p] == -1 {
      assert forall p :: p in m ==> blank[p] == m[p];
    }
    if blank == m {
      forall p | p in m && p != id ensures m[p] == -1 {
        assert blank[p] == -1;
      }
    }
  }

  /** With what earlier tenures left behind, a new leader commits its no-op before any reply exactly
      when enough stale match indices reach past the end of its log. */
  lemma StaleTenureCommits(digest: Digest, n: Node, log: seq<RaftLog>, id: ServerID)
    requires Rep(n, log) && |n.logs| < CAPACITY
    ensures var won := WinElection(digest, n, id);
            CheckCommits(won).commitIndex == |log|
            <==> |HoldersOf(n.matchIndex[id := |log|], |log|)| > |n.config.serverConfig| / 2
  {
    LastOfFull(n, log);
    var won := WinElection(digest, n, id);
    assert won.logs == n.logs + [RaftLog(|log|, n.currentTerm, LogNoop, [], NO_CHANGE, [], 0)];
    assert won.matchIndex == n.matchIndex[id := |log|];
    assert CommitScan(won, |won.logs|) == |log|
           <==> |HoldersOf(won.matchIndex, |log|)| > |n.config.serverConfig| / 2 by {
      if |HoldersOf(won.matchIndex, |log|)| <= |n.config.serverConfig| / 2 {
        ScanBelow(won, |won.logs| - 1, |log|);
      }
    }
  }

  lemma {:induction false} ScanBelow(n: Node, count: nat, bound: int)
    requires count <= |n.logs| && n.commitIndex < bound && forall i :: 0 <= i < count ==> n.logs[i].index < bound
    ensures CommitScan(n, count) < bound
    decreases count
  {
    if count > 0 {
      ScanBelow(n, count - 1, bound);
    }
  }

  /** With a fresh tenure it never does, unless it is the only server. */
  lemma FreshTenureWaits(digest: Digest, n: Node, log: seq<RaftLog>, id: ServerID)
    requires Rep(n, log) && |n.config.serverConfig| >= 2
    ensures CheckCommits(GuardedWin(digest, n, id)).commitIndex == n.commitIndex
  {
    var won := GuardedWin(digest, n, id);
    OnlyItself(digest, n, id);
    NoMajority(won, |won.logs|, id);
  }

  lemma OnlyItself(digest: Digest, n: Node, id: ServerID)
    requires |n.logs| == |n.hashes|
    ensures var won := GuardedWin(digest, n, id);
            && won.config == n.config && won.commitIndex == n.commitIndex
            && forall p :: p in won.matchIndex && p != id ==> won.matchIndex[p] == -1
  {
  }

  lemma {:induction false} NoMajority(n: Node, count: nat, id: ServerID)
    requires count <= |n.logs| && n.commitIndex >= -1 && |n.config.serverConfig| >= 2
    requires forall p :: p in n.matchIndex && p != id ==> n.matchIndex[p] == -1
    ensures CommitScan(n, count) == n.commitIndex
    decreases count
  {
    if count > 0 && n.logs[count - 1].index > n.commitIndex {
      var held := HoldersOf(n.matchIndex, n.logs[count - 1].index);
      assert held <= {id};
      AtMostOne(held, id);
      NoMajority(n, count - 1, id);
    }
  }

  lemma AtMostOne(s: set<ServerID>, id: ServerID)
    requires s <= {id}
    ensures |s| <= 1
  {
    if s != {} {
      assert s == {id};
    }
  }

  // ---- G3: pairing acknowledgements with requests ----

  /** A success is credited as G3 asks exactly when, in its own term, what was last sent is what its
      request covered, and, from another term, when the credit changes nothing. */
  lemma CreditIff(n: Node, aer: AppendEntriesResponse, covered: int)
    requires aer.success
    ensures HandleAppendEntriesResponse(n, aer).0.matchIndex == GuardedAppendReply(n, aer, covered).matchIndex
            <==> if aer.term == n.currentTerm then Get(n.lastSentLogIndex, aer.id) == covered
                 else aer.id in n.matchIndex && n.matchIndex[aer.id] == Get(n.lastSentLogIndex, aer.id)
  {
    var sent := Get(n.lastSentLogIndex, aer.id);
    if aer.term == n.currentTerm {
      assert n.matchIndex[aer.id := sent][aer.id] == sent && n.matchIndex[aer.id := covered][aer.id] == covered;
    } else {
      assert n.matchIndex[aer.id := sent][aer.id] == sent;
    }
  }

  /** What a leader may do between a request and its answer: take commands, build requests, hear
      answers to any of them, old or new, commit and apply. */
  datatype Move =
    | Grow(clientID: Bytes, seqNum: int, data: Bytes, gameState: Bytes)
    | Build(peer: ServerID)
    | Hear(aer: AppendEntriesResponse)
    | HearSnapshot(isr: InstallSnapshotResponse)
    | Settle
    | ApplyNext

  function Made(digest: Digest, n: Node, id: ServerID, move: Move): Node
    requires |n.logs| == |n.hashes|
  {
    match move
    case Grow(clientID, seqNum, data, gameState) =>
      AddCommandLog(digest, n, id, clientID, seqNum, data, gameState).0
    case Build(peer) => GetAppendEntriesArgs(n, peer).0
    case Hear(aer) => HandleAppendEntriesResponse(n, aer).0
    case HearSnapshot(isr) => HandleInstallSnapshotResponse(n, isr).0
    case Settle => CheckCommits(n)
    case ApplyNext => UpdateLastApplied(n).0
  }

  /** An answer that does not depose the leader. */
  predicate Bearable(term: int, move: Move) {
    && (move.Hear? ==> move.aer.success || move.aer.term <= term)
    && (move.HearSnapshot? ==> move.isr.success || move.isr.term < term)
  }

  function MadeAll(digest: Digest, n: Node, id: ServerID, moves: seq<Move>): Node
    decreases |moves|
  {
    if moves == [] || |n.logs| != |n.hashes| then n
    else MadeAll(digest, Made(digest, n, id, moves[0]), id, moves[1..])
  }

  /** What is noted for a peer as last sent: a request, with what it covers and the next index it was
      built from, or the snapshot the peer has acknowledged. */
  datatype Mark = Sent(covered: int, next: int) | Shipped(index: int)

  function Marked(n: Node, move: Move, to: ServerID): seq<Mark> {
    if move == Build(to) && GetAppendEntriesArgs(n, to).1.Some? then
      [Sent(C.Covers(GetAppendEntriesArgs(n, to).1.value), Get(n.nextIndex, to))]
    else if move.HearSnapshot? && move.isr.success && move.isr.id == to then [Shipped(move.isr.lastIncludedIndex)]
    else []
  }

  function Marks(digest: Digest, n: Node, id: ServerID, moves: seq<Move>, to: ServerID): seq<Mark>
    decreases |moves|
  {
    if moves == [] || |n.logs| != |n.hashes| then []
    else Marked(n, moves[0], to) + Marks(digest, Made(digest, n, id, moves[0]), id, moves[1..], to)
  }

  /** What the code notes: for a request built from past the end of the log, more than it covers. */
  function Noted(mark: Mark): int {
    match mark
    case Sent(covered, next) => if next <= covered + 1 then covered else next - 1
    case Shipped(index) => index
  }

  function LastNoted(before: int, marks: seq<Mark>): int {
    if marks == [] then before else Noted(marks[|marks| - 1])
  }

  /** The mark notes exactly this index. */
  predicate Notes(mark: Mark, index: int) {
    match mark
    case Sent(covered, next) => covered == index && next <= covered + 1
    case Shipped(i) => i == index
  }

  lemma BuildNotes(n: Node, log: seq<RaftLog>, peer: ServerID, to: ServerID)
    requires Rep(n, log)
    ensures var out := GetAppendEntriesArgs(n, peer);
            && Rep(out.0, log) && out.0 == n.(lastSentLogIndex := out.0.lastSentLogIndex)
            && (out.1.Some? ==> C.Covers(out.1.value) == |log| - 1)
            && Get(out.0.lastSentLogIndex, to) == LastNoted(Get(n.lastSentLogIndex, to), Marked(n, Build(peer), to))
  {
    RequestRefines(n, log, peer);
    if peer == to && GetAppendEntriesArgs(n, to).1.Some? {
      SentIs(n, log, to);
    }
  }

  lemma SentIs(n: Node, log: seq<RaftLog>, to: ServerID)
    requires Rep(n, log) && GetAppendEntriesArgs(n, to).1.Some?
    ensures Get(GetAppendEntriesArgs(n, to).0.lastSentLogIndex, to) ==
            if Get(n.nextIndex, to) <= |log| then |log| - 1 else Get(n.nextIndex, to) - 1
  {
    LastOfFull(n, log);
    FindIn(n, log, Get(n.nextIndex, to));
    RequestRefines(n, log, to);
    CreditedIsCovered(n, log, to);
  }

  lemma MoveNotes(digest: Digest, n: Node, log: seq<RaftLog>, id: ServerID, move: Move, to: ServerID)
      returns (log': seq<RaftLog>)
    requires Rep(n, log) && to != id && Bearable(n.currentTerm, move)
    ensures var n' := Made(digest, n, id, move);
            && Rep(n', log') && |log| <= |log'| && n'.currentTerm == n.currentTerm
            && Get(n'.lastSentLogIndex, to) == LastNoted(Get(n.lastSentLogIndex, to), Marked(n, move, to))
  {
    log' := log;
    match move
    case Grow(clientID, seqNum, data, gameState) => log' := GrowNotes(digest, n, log, id, move, to);
    case Build(peer) => BuildNotes(n, log, peer, to);
    case Hear(aer) =>
    case HearSnapshot(isr) =>
    case Settle => CommitIsOptimal(n, log);
    case ApplyNext => ApplyRefines(n, log);
  }

  lemma GrowNotes(digest: Digest, n: Node, log: seq<RaftLog>, id: ServerID, move: Move, to: ServerID)
      returns (log': seq<RaftLog>)
    requires Rep(n, log) && move.Grow? && to != id
    ensures var n' := Made(digest, n, id, move);
            && Rep(n', log') && |log| <= |log'| && n'.currentTerm == n.currentTerm
            && Get(n'.lastSentLogIndex, to) == Get(n.lastSentLogIndex, to)
  {
    SubmitRefines(digest, n, log, {}, id, move.clientID, move.seqNum, move.data, move.gameState);
    SnapshotRefines(n, log, move.gameState);
    log' := if Stuck(n) then log else log + [CommandEntry(n, move.clientID, move.seqNum, move.data)];
  }

  lemma {:induction false} LastSentIs(
      digest: Digest, n: Node, log: seq<RaftLog>, id: ServerID, to: ServerID, moves: seq<Move>)
    requires Rep(n, log) && to != id && forall m :: m in moves ==> Bearable(n.currentTerm, m)
    ensures Get(MadeAll(digest, n, id, moves).lastSentLogIndex, to) ==
            LastNoted(Get(n.lastSentLogIndex, to), Marks(digest, n, id, moves, to))
    ensures forall mark :: mark in Marks(digest, n, id, moves, to) && mark.Sent? ==> mark.covered >= |log| - 1
    decreases |moves|
  {
    if moves != [] {
      var n1, first := Made(digest, n, id, moves[0]), Marked(n, moves[0], to);
      var log' := MoveNotes(digest, n, log, id, moves[0], to);
      LastSentIs(digest, n1, log', id, to, moves[1..]);
      if moves[0] == Build(to) {
        BuildNotes(n, log, to, to);
      }
      var rest := Marks(digest, n1, id, moves[1..], to);
      assert Marks(digest, n, id, moves, to) == first + rest;
      assert rest == [] ==> first + rest == first;
    }
  }

  /** Over anything a leader in office may do between a request and its answer, the answer is credited
      with what its own request covered exactly when the last thing noted for that peer notes just
      that: a request that covers no more and was not built from past the end of the log, or a
      snapshot that ends there. */
  lemma CreditIsOwnIff(
      digest: Digest, n: Node, log: seq<RaftLog>, id: ServerID, to: ServerID, moves: seq<Move>, aer: AppendEntriesResponse)
    requires Rep(n, log) && to != id && GetAppendEntriesArgs(n, to).1.Some?
    requires forall m :: m in moves ==> Bearable(n.currentTerm, m)
    requires aer.success && aer.id == to
    ensures var first := GetAppendEntriesArgs(n, to);
            var covered, n' := C.Covers(first.1.value), MadeAll(digest, first.0, id, moves);
            var marks := [Sent(covered, Get(n.nextIndex, to))] + Marks(digest, first.0, id, moves, to);
            && (HandleAppendEntriesResponse(n', aer).1 == covered <==> Notes(marks[|marks| - 1], covered))
            && forall mark :: mark in marks && mark.Sent? ==> mark.covered >= covered
  {
    var first := GetAppendEntriesArgs(n, to);
    BuildNotes(n, log, to, to);
    SentIs(n, log, to);
    LastSentIs(digest, first.0, log, id, to, moves);
    var rest := Marks(digest, first.0, id, moves, to);
    var marks := [Sent(C.Covers(first.1.value), Get(n.nextIndex, to))] + rest;
    assert rest != [] ==> marks[|marks| - 1] == rest[|rest| - 1];
    assert rest != [] ==> rest[|rest| - 1] in rest;
  }

  /** So, while every request is built from within the log and no snapshot is shipped, exactly when no
      later request covered more. */
  lemma CreditWithinIff(
      digest: Digest, n: Node, log: seq<RaftLog>, id: ServerID, to: ServerID, moves: seq<Move>, aer: AppendEntriesResponse)
    requires Rep(n, log) && to != id && GetAppendEntriesArgs(n, to).1.Some? && Get(n.nextIndex, to) <= |log|
    requires forall m :: m in moves ==> Bearable(n.currentTerm, m)
    requires aer.success && aer.id == to
    requires forall mark :: mark in Marks(digest, GetAppendEntriesArgs(n, to).0, id, moves, to) ==>
               mark.Sent? && mark.next <= mark.covered + 1
    ensures var first := GetAppendEntriesArgs(n, to);
            var marks := Marks(digest, first.0, id, moves, to);
            HandleAppendEntriesResponse(MadeAll(digest, first.0, id, moves), aer).1 == C.Covers(first.1.value)
            <==> forall mark :: mark in marks && mark.Sent? ==> mark.covered <= C.Covers(first.1.value)
  {
    var first := GetAppendEntriesArgs(n, to);
    var marks, covered := Marks(digest, first.0, id, moves, to), C.Covers(first.1.value);
    BuildNotes(n, log, to, to);
    CreditIsOwnIff(digest, n, log, id, to, moves, aer);
    NeverLess(digest, first.0, log, id, to, moves);
    var all := [Sent(covered, Get(n.nextIndex, to))] + marks;
    if marks != [] {
      assert all[|all| - 1] == marks[|marks| - 1] && marks[|marks| - 1] in marks;
      forall mark | mark in marks ensures mark.covered <= marks[|marks| - 1].covered {
        var i :| 0 <= i < |marks| && marks[i] == mark;
      }
    }
  }

  ghost predicate Ordered(marks: seq<Mark>) {
    forall i, j :: 0 <= i <= j < |marks| && marks[i].Sent? && marks[j].Sent? ==> marks[i].covered <= marks[j].covered
  }

  lemma OrderedJoin(first: seq<Mark>, rest: seq<Mark>, floor: int)
    requires |first| <= 1 && Ordered(rest) && forall mark :: mark in rest && mark.Sent? ==> mark.covered >= floor
    requires forall mark :: mark in first && mark.Sent? ==> mark.covered <= floor
    ensures Ordered(first + rest)
  {
    var all: seq<Mark> := first + rest;
    forall i, j | 0 <= i <= j < |all| && all[i].Sent? && all[j].Sent? ensures all[i].covered <= all[j].covered {
      if i >= |first| {
        assert all[i] == rest[i - |first|] && all[j] == rest[j - |first|];
      } else if j >= |first| {
        assert all[j] == rest[j - |first|] && rest[j - |first|] in rest && all[i] in first;
      }
    }
  }

  /** Logs only grow, so later requests cover no less. */
  lemma {:induction false} NeverLess(
      digest: Digest, n: Node, log: seq<RaftLog>, id: ServerID, to: ServerID, moves: seq<Move>)
    requires Rep(n, log) && to != id && forall m :: m in moves ==> Bearable(n.currentTerm, m)
    ensures Ordered(Marks(digest, n, id, moves, to))
    decreases |moves|
  {
    if moves != [] {
      var n1, first := Made(digest, n, id, moves[0]), Marked(n, moves[0], to);
      var log' := MoveNotes(digest, n, log, id, moves[0], to);
      NeverLess(digest, n1, log', id, to, moves[1..]);
      LastSentIs(digest, n1, log', id, to, moves[1..]);
      if moves[0] == Build(to) {
        BuildNotes(n, log, to, to);
      }
      OrderedJoin(first, Marks(digest, n1, id, moves[1..], to), |log| - 1);
    }
  }

  /** An old refusal between two requests takes the next index past the end of the log; the answer to
      the first request is then credited past it too, although neither request covered more than
      the log, and a leader of three commits its next entry on its own append. With G3 the credit
      is the log's last index. */
  lemma RefusalOvercommits(
      digest: Digest, n: Node, log: seq<RaftLog>, id: ServerID, to: ServerID, refusal: AppendEntriesResponse,
      aer: AppendEntriesResponse, data: Bytes)
    requires Rep(n, log) && |n.logs| < CAPACITY && to != id && |n.config.serverConfig| == 3
    requires Base(n.lastSnapshot) <= Get(n.nextIndex, to) <= |log|
    requires !refusal.success && refusal.id == to && refusal.term <= n.currentTerm && refusal.lastIndex > |log|
    requires aer.success && aer.id == to && aer.term == n.currentTerm
    ensures var first := GetAppendEntriesArgs(n, to);
            var second := GetAppendEntriesArgs(HandleAppendEntriesResponse(first.0, refusal).0, to);
            var credited := HandleAppendEntriesResponse(second.0, aer);
            var n' := AddCommandLog(digest, credited.0, id, [], 0, data, []).0;
            && first.1.Some? && second.1.Some?
            && C.Covers(first.1.value) == C.Covers(second.1.value) == |log| - 1
            && credited.1 == refusal.lastIndex - 1 > |log| - 1
            && CheckCommits(n').commitIndex == |log|
            && GuardedAppendReply(second.0, aer, C.Covers(first.1.value)).matchIndex[to] == |log| - 1
  {
    var first := GetAppendEntriesArgs(n, to);
    RequestRefines(n, log, to);
    BuildNotes(n, log, to, to);
    var n1 := HandleAppendEntriesResponse(first.0, refusal).0;
    RequestRefines(n1, log, to);
    BuildNotes(n1, log, to, to);
    SentIs(n1, log, to);
    var credited := HandleAppendEntriesResponse(GetAppendEntriesArgs(n1, to).0, aer).0;
    OwnAppendCommits(digest, credited, log, id, to, data);
  }

  lemma OwnAppendCommits(digest: Digest, n: Node, log: seq<RaftLog>, id: ServerID, to: ServerID, data: Bytes)
    requires Rep(n, log) && |n.logs| < CAPACITY && to != id && |n.config.serverConfig| == 3
    requires to in n.matchIndex && n.matchIndex[to] >= |log|
    ensures CheckCommits(AddCommandLog(digest, n, id, [], 0, data, []).0).commitIndex == |log|
  {
    var n' := AddCommandLog(digest, n, id, [], 0, data, []).0;
    var log' := log + [CommandEntry(n, [], 0, data)];
    SubmitRefines(digest, n, log, {}, id, [], 0, data, []);
    assert Abs(n', log', {}).matchIndex == n.matchIndex[id := |log|];
    TwoHolders(n'.matchIndex, |log|, id, to);
    CommitIsOptimal(n', log');
    assert Committable(n', log', |log|);
  }

  /** A success from an earlier term, after a new election and the first request of the tenure: the
      code credits the peer with the new no-op, and a leader of two or three commits it on that;
      with G3 nothing happens. */
  lemma StaleSuccess(digest: Digest, n: Node, log: seq<RaftLog>, id: ServerID, to: ServerID, aer: AppendEntriesResponse)
    requires Rep(n, log) && |n.logs| < CAPACITY && to != id && to in n.nextIndex
    requires aer.success && aer.id == to && aer.term < n.currentTerm
    requires n.config.serverConfig == {id, to} || |n.config.serverConfig| == 3
    ensures var won := GetAppendEntriesArgs(GuardedWin(digest, n, id), to).0;
            var credited := HandleAppendEntriesResponse(won, aer);
            && credited.1 == |log| && CheckCommits(credited.0).commitIndex == |log|
            && GuardedAppendReply(won, aer, |log|) == won && CheckCommits(won).commitIndex == n.commitIndex
  {
    var won := GuardedWin(digest, n, id);
    var s := C.Crown(id, Abs(n, log, {}), true);
    LastOfFull(n, log);
    WinRefines(digest, n, log, {}, id);
    RequestRefines(won, s.log, to);
    CreditedIsCovered(won, s.log, to);
    assert |n.config.serverConfig| in {2, 3} by {
      assert n.config.serverConfig == {id, to} ==> |n.config.serverConfig| == 2;
    }
    StaleCommit(digest, n, log, id, to, aer, won);
  }

  lemma StaleCommit(
      digest: Digest, n: Node, log: seq<RaftLog>, id: ServerID, to: ServerID, aer: AppendEntriesResponse, won: Node)
    requires Rep(n, log) && |n.logs| < CAPACITY && to != id && won == GuardedWin(digest, n, id)
    requires Rep(won, log + [RaftLog(|log|, n.currentTerm, LogNoop, [], NO_CHANGE, [], 0)])
    requires won.matchIndex == (map p | p in n.matchIndex :: -1)[id := |log|]
    requires Get(GetAppendEntriesArgs(won, to).0.lastSentLogIndex, to) == |log|
    requires aer.success && aer.id == to && aer.term < n.currentTerm && |n.config.serverConfig| in {2, 3}
    ensures var sent := GetAppendEntriesArgs(won, to).0;
            && CheckCommits(HandleAppendEntriesResponse(sent, aer).0).commitIndex == |log|
            && CheckCommits(sent).commitIndex == n.commitIndex
  {
    var sent := GetAppendEntriesArgs(won, to).0;
    var log' := log + [RaftLog(|log|, n.currentTerm, LogNoop, [], NO_CHANGE, [], 0)];
    var credited := HandleAppendEntriesResponse(sent, aer).0;
    RequestRefines(won, log', to);
    OnlyItself(digest, n, id);
    CommitIsOptimal(credited, log');
    TwoHolders(credited.matchIndex, |log|, id, to);
    assert Committable(credited, log', |log|);
    NoMajority(sent, |sent.logs|, id);
  }

  lemma TwoHolders(m: map<ServerID, int>, index: int, a: ServerID, b: ServerID)
    requires a != b && a in m && b in m && m[a] >= index && m[b] >= index
    ensures |HoldersOf(m, index)| >= 2
  {
    assert HoldersOf(m, index) == {a, b} + (HoldersOf(m, index) - {a, b});
  }

  /** Two requests built one after the other, with one more entry between them: the answer to the
      first is credited with what only the second covered. */
  lemma OverwrittenCredit(
      digest: Digest, n: Node, log: seq<RaftLog>, id: ServerID, to: ServerID, entry: RaftLog, aer: AppendEntriesResponse)
    requires Rep(n, log) && |n.logs| < CAPACITY && entry.index == |log| && to != id
    requires Base(n.lastSnapshot) <= Get(n.nextIndex, to) <= |log|
    requires aer.success && aer.id == to
    ensures var first := GetAppendEntriesArgs(n, to);
            var second := GetAppendEntriesArgs(Append(digest, first.0, id, entry), to);
            && first.1.Some? && second.1.Some?
            && HandleAppendEntriesResponse(second.0, aer).1 == C.Covers(first.1.value) + 1
            && GuardedAppendReply(second.0.(currentTerm := aer.term), aer, C.Covers(first.1.value)).matchIndex[to]
               == C.Covers(first.1.value)
  {
    var first := GetAppendEntriesArgs(n, to);
    RequestRefines(n, log, to);
    var n1 := Append(digest, first.0, id, entry);
    AppendFits(digest, first.0, log, id, entry);
    RequestRefines(n1, log + [entry], to);
    CreditedIsCovered(n1, log + [entry], to);
  }

  // ---- G4: a failure within the same term ----

  /** A failed install of the leader's own term takes its vote back, and it votes again, for a candidate
      of the term whose log is as good as its own. In a run such a candidate's log ends in an
      earlier term, so the leader must have won without room for its no-op. */
  lemma VotesTwice(n: Node, isr: InstallSnapshotResponse, id: ServerID, rva: RequestVoteArgs)
    requires n.role == Leader && !isr.success && isr.term == n.currentTerm == rva.term && LogOK(n, rva)
    requires n.votedFor.Some? && n.votedFor != Some(rva.candidateID)
    ensures HandleRequestToVote(HandleInstallSnapshotResponse(n, isr).0, id, rva).1.voteGranted
    ensures !HandleRequestToVote(GuardedInstallReply(n, isr), id, rva).1.voteGranted
  {
    var n' := HandleInstallSnapshotResponse(n, isr).0;
    assert LogOK(n', rva) == LogOK(n, rva);
  }

  /** A failed install keeps the vote of the term exactly when it is not of the same term. */
  lemma KeepsVoteIff(n: Node, isr: InstallSnapshotResponse)
    requires !isr.success && n.votedFor.Some?
    ensures var n' := HandleInstallSnapshotResponse(n, isr).0;
            (n'.currentTerm == n.currentTerm ==> n'.votedFor == n.votedFor) <==> isr.term != n.currentTerm
  {
  }

  /** The reply to a snapshot is handled as G3 and G4 ask exactly when it is a success of its own term
      or one that says nothing new, or a failure from another term or to a follower it changes
      nothing for. */
  lemma InstallReplyIff(n: Node, isr: InstallSnapshotResponse)
    ensures HandleInstallSnapshotResponse(n, isr).0 == GuardedInstallReply(n, isr)
            <==> if isr.success then isr.term == n.currentTerm || Books(n, isr.id, isr.lastIncludedIndex)
                 else isr.term != n.currentTerm
                      || (n.role == Follower && n.votedFor == None && n.currentLeader == Some(isr.id))
  {
    var n' := HandleInstallSnapshotResponse(n, isr).0;
    if isr.success {
      var idx := isr.lastIncludedIndex;
      assert n.lastSentLogIndex[isr.id := idx][isr.id] == idx && n.matchIndex[isr.id := idx][isr.id] == idx
             && n.nextIndex[isr.id := idx + 1][isr.id] == idx + 1;
      if Books(n, isr.id, idx) {
        assert n.lastSentLogIndex[isr.id := idx] == n.lastSentLogIndex && n.matchIndex[isr.id := idx] == n.matchIndex
               && n.nextIndex[isr.id := idx + 1] == n.nextIndex;
      }
    }
  }

  /** The leader's books already have a peer at an index. */
  predicate Books(n: Node, id: ServerID, idx: int) {
    && id in n.lastSentLogIndex && n.lastSentLogIndex[id] == idx
    && id in n.matchIndex && n.matchIndex[id] == idx
    && id in n.nextIndex && n.nextIndex[id] == idx + 1
  }

  // ---- G5: purging what the snapshot covers ----

  /** An accepted request leaves the array in order exactly when none of its entries is inside the
      receiver's snapshot; then there is nothing to purge. */
  lemma StaysInOrderIff(digest: Digest, n: Node, log: seq<RaftLog>, id: ServerID, aea: AppendEntriesArgs, gameState: Bytes)
    requires Rep(n, log) && GoodRequest(aea)
    requires n.currentTerm <= aea.term
    requires HandleAppendEntries(digest, n, id, aea, gameState).1.success
    ensures var n' := HandleAppendEntries(digest, n, id, aea, gameState).0;
            Shaped(n'.logs, n'.hashes, Base(n.lastSnapshot))
            <==> CoveredCount(aea.entries, Base(n.lastSnapshot) - 1) == 0
  {
    var base, pos := Base(n.lastSnapshot), PrevAt(n, aea) + 1;
    AcceptedMerges(digest, n, log, id, aea, gameState, pos);
    CoveredIs(aea.entries, aea.prevLogIndex + 1, base - 1);
    FindIsSubtraction(n.logs, base, aea.prevLogIndex);
    if CoveredCount(aea.entries, base - 1) == 0 {
      if aea.entries != [] {
        MergeShape(n.logs, base, pos, aea.entries);
      }
    } else {
      OutOfOrder(n.logs, aea.entries, base);
    }
  }

  /** What an accepted request does to the array, without the purge. */
  lemma AcceptedMerges(
      digest: Digest, n: Node, log: seq<RaftLog>, id: ServerID, aea: AppendEntriesArgs, gameState: Bytes, pos: int)
    requires Rep(n, log) && pos == PrevAt(n, aea) + 1
    requires n.currentTerm <= aea.term && HandleAppendEntries(digest, n, id, aea, gameState).1.success
    ensures var n' := HandleAppendEntries(digest, n, id, aea, gameState).0;
            && 0 <= pos <= |n.logs| && pos + |aea.entries| < CAPACITY && !PrevRefused(n, aea, pos - 1)
            && n'.logs == Merge(n.logs, pos, aea.entries) && |n'.logs| == |n'.hashes|
  {
    var n2 := Following(n, aea.term).(currentLeader := aea.leaderID);
    assert !PrevRefused(n, aea, PrevAt(n, aea)) && pos + |aea.entries| < CAPACITY;
    LoopRefines(digest, n2, pos, aea.entries);
    HandleAccepts(digest, n, id, aea, gameState, n2, pos, MergeAndCommit(digest, n2, pos, aea));
  }

  lemma OutOfOrder(logs: seq<RaftLog>, entries: seq<RaftLog>, base: int)
    requires entries != [] && entries[0].index < base
    requires forall i :: 0 <= i < |logs| ==> logs[i].index == base + i
    ensures var merged := Merge(logs, 0, entries); merged != [] && merged[0].index != base
  {
  }

  // ---- G6: installing over a longer log ----

  /** An installed snapshot drops entries exactly when the node holds some past it. */
  lemma DropsEntriesIff(n: Node, log: seq<RaftLog>, id: ServerID, isa: InstallSnapshotArgs)
    requires Rep(n, log) && isa.term >= n.currentTerm
    ensures var n' := HandleInstallSnapshotRequest(n, id, isa).0;
            && (LastIdx(n') < LastIdx(n) <==> HoldsPast(n, isa))
            && (n'.commitIndex < n.commitIndex <==> n.lastApplied < isa.lastIncludedIndex < n.commitIndex)
            && (n'.commitIndex < n.commitIndex ==> HoldsPast(n, isa))
  {
    LastOfFull(n, log);
  }

  // ---- G10: the first snapshot ----

  /** A node saves for the first time, crashes and recovers: with zero for nothing saved it stands for
      the log it had exactly when its snapshot is not of index 0. That one is left out, and if
      entries remained after it, the array comes back out of order. With -1 nothing is lost. */
  lemma RecoveryKeepsLogIff<S>(p: AC.Peer<S>, log: seq<RaftLog>, id: ServerID, servers: set<ServerID>)
    requires Rep(p.node, log) && Restorable(p.node) && p.disk.snap == None && id in servers
    ensures var zero, none := AC.Save(p.(lastSaved := 0)).disk, AC.Save(p.(lastSaved := AC.NOTHING_SAVED)).disk;
            var n, n' := Recover(id, servers - {id}, zero.state, zero.snap), Recover(id, servers - {id}, none.state, none.snap);
            && (Rep(n, log) <==> Base(p.node.lastSnapshot) != 1)
            && (Base(p.node.lastSnapshot) == 1 ==>
                  zero.snap == None && (Shaped(n.logs, n.hashes, Base(n.lastSnapshot)) <==> p.node.logs == []))
            && Rep(n', log)
  {
    RecoverRefines(p.node, log, {}, id, servers);
    var zero := AC.Save(p.(lastSaved := 0)).disk;
    var n := Recover(id, servers - {id}, zero.state, zero.snap);
    if Base(p.node.lastSnapshot) == 1 {
      assert n.logs == p.node.logs && n.lastSnapshot == None;
      assert n.logs != [] ==> n.logs[0].index == 1;
    }
  }

  // ---- G11: committing only as leader ----

  /** One of the entries sent is of the sender's term, past the commit index, and as far as match
      indices of the node's own tenure reach at a majority. */
  ghost predicate StaleMajority(n: Node, aea: AppendEntriesArgs, commit: int, servers: set<ServerID>) {
    exists j :: 0 <= j < |aea.entries| && StaleEntry(n, aea.entries[j], aea.term, commit, servers)
  }

  predicate StaleEntry(n: Node, e: RaftLog, term: int, commit: int, servers: set<ServerID>) {
    e.term == term && e.index > commit && |HoldersOf(n.matchIndex, e.index)| > |servers| / 2
  }

  /** After a node was deposed by an append request, the commit scan moves the commit index exactly
      when the request was accepted and stale match indices of a majority reach one of its entries
      of the new term. */
  lemma DeposedScanIff(digest: Digest, n: Node, log: seq<RaftLog>, id: ServerID, aea: AppendEntriesArgs, gameState: Bytes)
    requires Rep(n, log) && GoodRequest(aea) && n.currentTerm < aea.term
    requires forall i :: 0 <= i < |log| ==> log[i].term <= n.currentTerm
    ensures var n' := GuardedAppend(digest, n, id, aea, gameState).0;
            && n'.role == Follower
            && (CheckCommits(n') != n' <==>
                  && C.AcceptsAppend(Abs(n, log, {}), aea, ArrayFull(n, aea))
                  && StaleMajority(n, aea, FollowerCommit(n.commitIndex, Purge(n, aea)), n'.config.serverConfig))
  {
    var n' := GuardedAppend(digest, n, id, aea, gameState).0;
    if C.PrevMatches(Abs(n, log, {}), aea) && !ArrayFull(n, aea) {
      var log', start, rest, skip := DeposedAccept(digest, n, log, id, aea, gameState);
      CommitIsOptimal(n', log');
      ScanMeets(n, log, aea, n', log', start, rest, skip);
    } else {
      RefuseRefines(digest, n, log, {}, id, aea, gameState);
      QuietScan(n', log);
    }
  }

  /** For a request without membership changes all of that can be read off before the call. */
  lemma DeposedScanStaticIff(
      digest: Digest, n: Node, log: seq<RaftLog>, id: ServerID, aea: AppendEntriesArgs, gameState: Bytes)
    requires Rep(n, log) && GoodRequest(aea) && n.currentTerm < aea.term
    requires forall i :: 0 <= i < |log| ==> log[i].term <= n.currentTerm
    requires NoConfig(aea.entries) && NoConfig(n.logs) && Settled(n)
    ensures var n' := GuardedAppend(digest, n, id, aea, gameState).0;
            CheckCommits(n') != n' <==>
              && C.AcceptsAppend(Abs(n, log, {}), aea, ArrayFull(n, aea))
              && StaleMajority(n, aea, FollowerCommit(n.commitIndex, Purge(n, aea)), n.config.serverConfig)
  {
    DeposedScanIff(digest, n, log, id, aea, gameState);
    if C.PrevMatches(Abs(n, log, {}), aea) && !ArrayFull(n, aea) {
      AcceptKeepsConfig(digest, n, log, {}, id, aea, gameState);
    }
  }

  /** What is merged of a request, entry by entry: all but what lies inside the snapshot. */
  ghost predicate RestOf(aea: AppendEntriesArgs, base: int, start: nat, rest: seq<RaftLog>, skip: nat) {
    && |rest| == (if skip <= |aea.entries| then |aea.entries| - skip else 0)
    && (forall k {:trigger rest[k]} :: 0 <= k < |rest| ==> rest[k] == aea.entries[k + skip] && rest[k].index == start + k)
    && (forall j :: 0 <= j < |aea.entries| && aea.entries[j].index >= base ==> j >= skip)
  }

  lemma RestIs(s: C.Server, aea: AppendEntriesArgs) returns (start: nat, rest: seq<RaftLog>, skip: nat)
    requires GoodRequest(aea)
    ensures start == C.MergeStart(s, aea) && rest == C.MergeRest(s, aea) && RestOf(aea, s.base, start, rest, skip)
  {
    start, rest := C.MergeStart(s, aea), C.MergeRest(s, aea);
    skip := start - aea.prevLogIndex - 1;
    RestFrom(aea, s.base, start, rest, skip);
  }

  lemma RestFrom(aea: AppendEntriesArgs, base: int, start: nat, rest: seq<RaftLog>, skip: nat)
    requires GoodRequest(aea) && start == aea.prevLogIndex + 1 + skip && (skip > 0 ==> start == base) && base <= start
    requires rest == if skip == 0 then aea.entries else if skip <= |aea.entries| then From(aea.entries, skip) else []
    ensures RestOf(aea, base, start, rest, skip)
  {
  }

  /** The node after it has accepted the request. */
  lemma DeposedAccept(digest: Digest, n: Node, log: seq<RaftLog>, id: ServerID, aea: AppendEntriesArgs, gameState: Bytes)
      returns (log': seq<RaftLog>, start: nat, rest: seq<RaftLog>, skip: nat)
    requires Rep(n, log) && GoodRequest(aea) && n.currentTerm < aea.term
    requires C.PrevMatches(Abs(n, log, {}), aea) && !ArrayFull(n, aea)
    ensures start <= |log| && log' == Merge(log, start, rest) && RestOf(aea, Base(n.lastSnapshot), start, rest, skip)
    ensures var n' := GuardedAppend(digest, n, id, aea, gameState).0;
            && Fits(n', log') && n'.role == Follower && n'.currentTerm == aea.term && n'.matchIndex == n.matchIndex
            && n'.commitIndex == FollowerCommit(n.commitIndex, Purge(n, aea))
            && Base(n'.lastSnapshot) == Base(n.lastSnapshot) <= n'.commitIndex + 1
  {
    AcceptRefines(digest, n, log, {}, id, aea, gameState);
    start, rest, skip := RestIs(Abs(n, log, {}), aea);
    log' := DeposedFollow(n, log, aea, start, rest);
  }

  lemma DeposedFollow(n: Node, log: seq<RaftLog>, aea: AppendEntriesArgs, start: nat, rest: seq<RaftLog>)
      returns (log': seq<RaftLog>)
    requires Rep(n, log) && GoodRequest(aea) && C.PrevMatches(Abs(n, log, {}), aea)
    requires start == C.MergeStart(Abs(n, log, {}), aea) && rest == C.MergeRest(Abs(n, log, {}), aea)
    ensures start <= |log| && log' == Merge(log, start, rest)
    ensures var s' := C.Follow(C.Adopt(Abs(n, log, {}), aea.term).(role := Follower), aea);
            && s'.log == log' && s'.commit == FollowerCommit(n.commitIndex, Purge(n, aea))
            && Base(n.lastSnapshot) <= s'.commit + 1
  {
    var p, s2 := Purge(n, aea), C.Adopt(Abs(n, log, {}), aea.term).(role := Follower);
    PurgeIs(n, log, {}, aea);
    PurgedFollow(n, log, {}, aea, p, s2, start);
    log' := C.Follow(s2, aea).log;
    assert p.entries != [] ==> p.entries[|p.entries| - 1].index >= Base(n.lastSnapshot);
  }

  /** The merged log's entries of the new term past the commit index are the request's. */
  lemma ScanMeets(
      n: Node, log: seq<RaftLog>, aea: AppendEntriesArgs, n': Node, log': seq<RaftLog>, start: nat, rest: seq<RaftLog>,
      skip: nat)
    requires forall i :: 0 <= i < |log| ==> log[i].term < aea.term
    requires start <= |log| && log' == Merge(log, start, rest) && RestOf(aea, Base(n.lastSnapshot), start, rest, skip)
    requires n'.currentTerm == aea.term && n'.matchIndex == n.matchIndex && Base(n.lastSnapshot) <= n'.commitIndex + 1
    ensures (exists i :: Committable(n', log', i)) <==> StaleMajority(n, aea, n'.commitIndex, n'.config.serverConfig)
  {
    MergeNewTerm(log, start, rest, aea.term, log');
    EntriesMeet(n, aea, n', log', Base(n.lastSnapshot), start, rest, skip);
  }

  lemma EntriesMeet(
      n: Node, aea: AppendEntriesArgs, n': Node, log': seq<RaftLog>, base: int, start: nat, rest: seq<RaftLog>, skip: nat)
    requires n'.currentTerm == aea.term && n'.matchIndex == n.matchIndex && base <= n'.commitIndex + 1
    requires RestOf(aea, base, start, rest, skip)
    requires forall i :: 0 <= i < |log'| && log'[i].term == aea.term ==>
               start <= i < start + |rest| && rest[i - start].term == aea.term
    requires forall j :: 0 <= j < |rest| && rest[j].term == aea.term ==>
               start + j < |log'| && log'[start + j].term == aea.term
    ensures (exists i :: Committable(n', log', i)) <==> StaleMajority(n, aea, n'.commitIndex, n'.config.serverConfig)
  {
    if i :| Committable(n', log', i) {
      var k := i - start;
      assert rest[k] == aea.entries[k + skip];
      assert StaleEntry(n, aea.entries[k + skip], aea.term, n'.commitIndex, n'.config.serverConfig);
    }
    if StaleMajority(n, aea, n'.commitIndex, n'.config.serverConfig) {
      var j :| 0 <= j < |aea.entries| && StaleEntry(n, aea.entries[j], aea.term, n'.commitIndex, n'.config.serverConfig);
      var k := j - skip;
      assert rest[k] == aea.entries[k + skip];
      assert Committable(n', log', start + k);
    }
  }

  lemma MergeNewTerm(log: seq<RaftLog>, start: nat, rest: seq<RaftLog>, term: int, merged: seq<RaftLog>)
    requires start <= |log| && forall i :: 0 <= i < |log| ==> log[i].term < term
    requires merged == Merge(log, start, rest)
    ensures forall i :: 0 <= i < |merged| && merged[i].term == term ==>
              start <= i < start + |rest| && rest[i - start].term == term
    ensures forall j :: 0 <= j < |rest| && rest[j].term == term ==>
              start + j < |merged| && merged[start + j].term == term
  {
    var k := MergeMeaning(log, start, rest);
  }

  lemma QuietScan(n: Node, log: seq<RaftLog>)
    requires Fits(n, log) && Base(n.lastSnapshot) <= n.commitIndex + 1
    requires forall i :: 0 <= i < |log| ==> log[i].term < n.currentTerm
    ensures CheckCommits(n) == n
  {
    CommitIsOptimal(n, log);
  }

  /** After a node was deposed by a vote request or by a snapshot the scan never moves anything. */
  lemma OtherScansQuiet(n: Node, log: seq<RaftLog>, id: ServerID, rva: RequestVoteArgs, isa: InstallSnapshotArgs)
    requires Rep(n, log) && forall i :: 0 <= i < |log| ==> log[i].term <= n.currentTerm
    ensures rva.term > n.currentTerm ==>
              var n' := GuardedVote(n, id, rva).0; n'.role == Follower && CheckCommits(n') == n'
    ensures isa.term > n.currentTerm ==>
              var n' := GuardedInstall(n, id, isa).0; n'.role == Follower && CheckCommits(n') == n'
  {
    if rva.term > n.currentTerm {
      VoteRefines(n, log, {}, id, rva);
      QuietScan(GuardedVote(n, id, rva).0, log);
    }
    if isa.term > n.currentTerm {
      var n' := GuardedInstall(n, id, isa).0;
      if n'.logs != [] {
        assert Fits(n', log);
        QuietScan(n', log);
      }
    }
  }
}
