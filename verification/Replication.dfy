/** One exchange between a leader and a follower: request, answer and reply as the code computes them,
    without guards. When it brings the follower level, and when it never does. */
module Replication {
  import opened Types
  import opened Agreement
  import opened Replica
  import opened Refinement
  import opened MergeRefinement
  import C = Cluster

  /** A leader, a follower, and whether the last request was accepted. */
  datatype Pair = Pair(leader: Node, follower: Node, accepted: bool)

  /** Request, answer, reply; nothing when the follower needs a snapshot. */
  function Round(digest: Digest, p: Pair, id: ServerID, gameState: Bytes): Pair
    requires |p.follower.logs| == |p.follower.hashes|
  {
    var req := GetAppendEntriesArgs(p.leader, id);
    if req.1 == None then p
    else
      var out := HandleAppendEntries(digest, p.follower, id, req.1.value, gameState);
      Pair(HandleAppendEntriesResponse(req.0, out.1).0, out.0, out.1.success)
  }

  /** A leader of no older a term than the follower, which has compacted nothing. */
  ghost predicate Facing(p: Pair, log: seq<RaftLog>, flog: seq<RaftLog>) {
    && Rep(p.leader, log) && Rep(p.follower, flog)
    && p.follower.lastSnapshot == None
    && p.follower.currentTerm <= p.leader.currentTerm
    && |log| < CAPACITY && |flog| < CAPACITY
    && (forall i :: 0 <= i < |log| ==> log[i].index == i)
  }

  function Next(p: Pair, id: ServerID): int {
    Get(p.leader.nextIndex, id)
  }

  lemma WholeLog(n: Node, log: seq<RaftLog>)
    requires Rep(n, log) && n.lastSnapshot == None
    ensures n.logs == log
  {
  }

  lemma SliceIs(entries: seq<RaftLog>, log: seq<RaftLog>, next: nat)
    requires IsSlice(entries, log, next) && forall i :: 0 <= i < |log| ==> log[i].index == i
    ensures Contiguous(entries, next)
  {
  }

  /** What a success is credited with: the leader's last index, or, when nothing was sent, one less
      than the next index, which may lie past the end of the leader's log. */
  function Credit(p: Pair, id: ServerID, log: seq<RaftLog>, next: int): int {
    if next < |log| then |log| - 1 else Next(p, id) - 1
  }

  /** What the follower decides. */
  predicate Fitting(log: seq<RaftLog>, flog: seq<RaftLog>, next: int) {
    next <= |flog| && (1 <= next <= |log| && next <= |flog| ==> flog[next - 1].term == log[next - 1].term)
  }

  /** One round: accepted exactly when the follower reaches the entry before the request and has it
      of the same term; refused, the next index falls back to the follower's last index. */
  lemma RoundIs(digest: Digest, p: Pair, id: ServerID, log: seq<RaftLog>, flog: seq<RaftLog>, gameState: Bytes, next: int)
    requires Facing(p, log, flog) && Base(p.leader.lastSnapshot) <= Next(p, id)
    requires next == if Next(p, id) <= |log| then Next(p, id) else |log|
    ensures var q := Round(digest, p, id, gameState);
            && q.accepted == Fitting(log, flog, next)
            && q.leader.lastSnapshot == p.leader.lastSnapshot
            && (q.accepted ==> q.follower.logs == Merge(flog, next, log[next..]))
            && (q.accepted ==>
                  && q.leader.matchIndex == p.leader.matchIndex[id := Credit(p, id, log, next)]
                  && q.leader.nextIndex == p.leader.nextIndex[id := Credit(p, id, log, next) + 1]
                  && Rep(q.leader, log) && q.leader.logs == p.leader.logs)
            && (!q.accepted ==>
                  && Next(q, id) == (if flog == [] then 0 else |flog| - 1)
                  && Facing(q, log, flog) && q.follower.logs == flog)
  {
    if Fitting(log, flog, next) {
      RoundAccepts(digest, p, id, log, flog, gameState, next);
    } else {
      RoundRefuses(digest, p, id, log, flog, gameState, next);
    }
  }

  lemma RoundAccepts(digest: Digest, p: Pair, id: ServerID, log: seq<RaftLog>, flog: seq<RaftLog>, gameState: Bytes, next: int)
    requires Facing(p, log, flog) && Base(p.leader.lastSnapshot) <= Next(p, id)
    requires next == (if Next(p, id) <= |log| then Next(p, id) else |log|) && Fitting(log, flog, next)
    ensures 0 <= next <= |log| && next <= |flog|
    ensures var q := Round(digest, p, id, gameState);
            && q.accepted && q.leader.lastSnapshot == p.leader.lastSnapshot
            && q.follower.logs == Merge(flog, next, log[next..])
            && q.leader.matchIndex == p.leader.matchIndex[id := Credit(p, id, log, next)]
            && q.leader.nextIndex == p.leader.nextIndex[id := Credit(p, id, log, next) + 1]
            && Rep(q.leader, log) && q.leader.logs == p.leader.logs
  {
    var args := RequestForm(p, id, log, flog, next);
    Accepted(digest, p.follower, flog, id, args, gameState, next);
    Credited(p, id, log, next, HandleAppendEntries(digest, p.follower, id, args, gameState).1);
  }

  /** The leader after a success. */
  lemma Credited(p: Pair, id: ServerID, log: seq<RaftLog>, next: int, aer: AppendEntriesResponse)
    requires Rep(p.leader, log) && Base(p.leader.lastSnapshot) <= Next(p, id)
    requires next == (if Next(p, id) <= |log| then Next(p, id) else |log|) && aer.success && aer.id == id
    ensures var leader := HandleAppendEntriesResponse(GetAppendEntriesArgs(p.leader, id).0, aer).0;
            && leader.lastSnapshot == p.leader.lastSnapshot
            && leader.matchIndex == p.leader.matchIndex[id := Credit(p, id, log, next)]
            && leader.nextIndex == p.leader.nextIndex[id := Credit(p, id, log, next) + 1]
            && Rep(leader, log) && leader.logs == p.leader.logs
  {
    RequestRefines(p.leader, log, id);
    if next < |log| {
      CreditedLast(p.leader, log, id, next);
    } else {
      CreditedNext(p.leader, log, id);
    }
    Booked(p.leader, log, GetAppendEntriesArgs(p.leader, id).0, aer, Credit(p, id, log, next));
  }

  /** A success, booked by a leader that has noted what it sent. */
  lemma Booked(n: Node, log: seq<RaftLog>, n1: Node, aer: AppendEntriesResponse, sent: int)
    requires Rep(n, log) && n1 == n.(lastSentLogIndex := n1.lastSentLogIndex)
    requires aer.success && Get(n1.lastSentLogIndex, aer.id) == sent
    ensures var leader := HandleAppendEntriesResponse(n1, aer).0;
            && leader.lastSnapshot == n.lastSnapshot && leader.logs == n.logs && Rep(leader, log)
            && leader.matchIndex == n.matchIndex[aer.id := sent]
            && leader.nextIndex == n.nextIndex[aer.id := sent + 1]
  {
  }

  lemma RoundRefuses(digest: Digest, p: Pair, id: ServerID, log: seq<RaftLog>, flog: seq<RaftLog>, gameState: Bytes, next: int)
    requires Facing(p, log, flog) && Base(p.leader.lastSnapshot) <= Next(p, id)
    requires next == (if Next(p, id) <= |log| then Next(p, id) else |log|) && !Fitting(log, flog, next)
    ensures var q := Round(digest, p, id, gameState);
            && !q.accepted && q.leader.lastSnapshot == p.leader.lastSnapshot
            && Next(q, id) == (if flog == [] then 0 else |flog| - 1)
            && Facing(q, log, flog) && q.follower.logs == flog
  {
    var args := RequestForm(p, id, log, flog, next);
    var out := HandleAppendEntries(digest, p.follower, id, args, gameState);
    Refused(digest, p.follower, flog, id, args, gameState);
    RolledBack(p, id, log, flog, out);
  }

  lemma RequestForm(p: Pair, id: ServerID, log: seq<RaftLog>, flog: seq<RaftLog>, next: int) returns (args: AppendEntriesArgs)
    requires Facing(p, log, flog) && Base(p.leader.lastSnapshot) <= Next(p, id)
    requires next == if Next(p, id) <= |log| then Next(p, id) else |log|
    ensures 0 <= next <= |log| && GetAppendEntriesArgs(p.leader, id).1 == Some(args)
    ensures args.term == p.leader.currentTerm && args.prevLogIndex == next - 1
    ensures next > 0 ==> args.prevLogTerm == log[next - 1].term
    ensures args.entries == log[next..]
    ensures p.follower.logs == flog
  {
    RequestRefines(p.leader, log, id);
    args := GetAppendEntriesArgs(p.leader, id).1.value;
    SliceIs(args.entries, log, next);
    WholeLog(p.follower, flog);
  }

  /** The leader after a refusal, and the two still facing each other. */
  lemma RolledBack(
      p: Pair, id: ServerID, log: seq<RaftLog>, flog: seq<RaftLog>, out: (Node, AppendEntriesResponse))
    requires Facing(p, log, flog) && out.0 == Following(p.follower, p.leader.currentTerm)
    requires out.1 == AppendEntriesResponse(id, p.leader.currentTerm, false, |flog| - 1)
    requires p.follower.logs == flog
    ensures var q := Pair(HandleAppendEntriesResponse(GetAppendEntriesArgs(p.leader, id).0, out.1).0, out.0, false);
            && Next(q, id) == (if flog == [] then 0 else |flog| - 1)
            && Facing(q, log, flog) && q.follower.logs == flog
            && q.leader.lastSnapshot == p.leader.lastSnapshot
  {
    RequestRefines(p.leader, log, id);
  }

  lemma CreditedLast(n: Node, log: seq<RaftLog>, id: ServerID, next: int)
    requires Rep(n, log) && Base(n.lastSnapshot) <= Get(n.nextIndex, id) == next < |log|
    ensures Get(GetAppendEntriesArgs(n, id).0.lastSentLogIndex, id) == |log| - 1
  {
    RequestRefines(n, log, id);
    CreditedIsCovered(n, log, id);
  }

  lemma CreditedNext(n: Node, log: seq<RaftLog>, id: ServerID)
    requires Rep(n, log) && Get(n.nextIndex, id) >= |log|
    ensures Get(GetAppendEntriesArgs(n, id).0.lastSentLogIndex, id) == Get(n.nextIndex, id) - 1
  {
    LastOfFull(n, log);
    FindIn(n, log, Get(n.nextIndex, id));
  }

  lemma Accepted(
      digest: Digest, f: Node, flog: seq<RaftLog>, id: ServerID, args: AppendEntriesArgs, gameState: Bytes, next: nat)
    requires Rep(f, flog) && f.lastSnapshot == None && f.logs == flog
    requires f.currentTerm <= args.term && args.prevLogIndex == next - 1 && next <= |flog|
    requires next > 0 ==> flog[next - 1].term == args.prevLogTerm
    requires next + |args.entries| < CAPACITY
    ensures var out := HandleAppendEntries(digest, f, id, args, gameState);
            out.0.logs == Merge(flog, next, args.entries) && out.1.success && out.1.id == id
  {
    var n2 := Following(f, args.term).(currentLeader := args.leaderID);
    FindIn(f, flog, args.prevLogIndex);
    LoopRefines(digest, n2, next, args.entries);
    HandleAccepts(digest, f, id, args, gameState, n2, next, MergeAndCommit(digest, n2, next, args));
  }

  lemma Refused(digest: Digest, f: Node, flog: seq<RaftLog>, id: ServerID, args: AppendEntriesArgs, gameState: Bytes)
    requires Rep(f, flog) && f.lastSnapshot == None && f.logs == flog
    requires f.currentTerm <= args.term && args.prevLogIndex >= 0
    requires args.prevLogIndex >= |flog| || flog[args.prevLogIndex].term != args.prevLogTerm
    ensures var out := HandleAppendEntries(digest, f, id, args, gameState);
            && out.1 == AppendEntriesResponse(id, args.term, false, |flog| - 1)
            && out.0 == Following(f, args.term)
  {
    var i := MisfitAt(f, flog, args);
    HandleRefuses(digest, f, id, args, gameState, Following(f, args.term), i + 1);
  }

  lemma MisfitAt(f: Node, flog: seq<RaftLog>, args: AppendEntriesArgs) returns (i: int)
    requires Rep(f, flog) && f.lastSnapshot == None && f.logs == flog && args.prevLogIndex >= 0
    requires args.prevLogIndex >= |flog| || flog[args.prevLogIndex].term != args.prevLogTerm
    ensures i == PrevAt(f, args) && -1 <= i < |f.logs| && PrevRefused(f, args, i) && LastIdx(f) == |flog| - 1
  {
    i := PrevAt(f, args);
    FindIsSubtraction(f.logs, 0, args.prevLogIndex);
  }

  // ---- catching up ----

  lemma {:induction false} MergePrefix(flog: seq<RaftLog>, log: seq<RaftLog>, next: nat)
    requires next <= |flog| <= |log| && Agree(flog, log, |flog|)
    ensures Merge(flog, next, log[next..]) == log
    decreases |flog| - next
  {
    if next < |flog| {
      assert log[next..][1..] == log[next + 1..];
      MergePrefix(flog, log, next + 1);
    } else {
      assert flog + log[next..] == log;
      assert flog[..next] == flog;
    }
  }

  /** The follower holds the leader's log, and the leader knows it and will send what comes next. */
  ghost predicate Level(p: Pair, id: ServerID, log: seq<RaftLog>) {
    && p.accepted && p.follower.logs == log && Rep(p.leader, log)
    && id in p.leader.matchIndex && p.leader.matchIndex[id] == |log| - 1
    && id in p.leader.nextIndex && p.leader.nextIndex[id] == |log|
  }

  /** A follower whose log is any proper prefix of the leader's, and reaches past the leader's
      snapshot, is level after one round, or after one refusal and one success. */
  lemma TwoRounds(digest: Digest, p: Pair, id: ServerID, log: seq<RaftLog>, flog: seq<RaftLog>, gameState: Bytes)
    requires Facing(p, log, flog) && Base(p.leader.lastSnapshot) <= Next(p, id)
    requires |flog| < |log| && Agree(flog, log, |flog|)
    requires |flog| > Base(p.leader.lastSnapshot) || flog == []
    requires flog == [] ==> p.leader.lastSnapshot == None
    ensures var q := Round(digest, p, id, gameState);
            if Next(p, id) <= |flog| then Level(q, id, log)
            else
              && !q.accepted && |q.follower.logs| == |q.follower.hashes|
              && Level(Round(digest, q, id, gameState), id, log)
  {
    var next := if Next(p, id) <= |log| then Next(p, id) else |log|;
    RoundIs(digest, p, id, log, flog, gameState, next);
    if next <= |flog| {
      MergePrefix(flog, log, next);
    } else {
      var q, back := Round(digest, p, id, gameState), if flog == [] then 0 else |flog| - 1;
      RoundIs(digest, q, id, log, flog, gameState, back);
      MergePrefix(flog, log, back);
    }
  }

  /** To a follower that is level the next request is an empty one, right after the last entry, and
      once the leader has stored one more entry it is that entry alone. */
  lemma NothingIsResent(digest: Digest, p: Pair, id: ServerID, log: seq<RaftLog>, me: ServerID, entry: RaftLog)
    requires Level(p, id, log) && |p.leader.logs| < CAPACITY && me != id && entry.index == |log|
    ensures var req := GetAppendEntriesArgs(p.leader, id).1;
            && req.Some? && req.value.entries == [] && req.value.prevLogIndex == |log| - 1
            && (log != [] ==> req.value.prevLogTerm == LastTerm(log))
    ensures var req := GetAppendEntriesArgs(Append(digest, p.leader, me, entry), id).1;
            && req.Some? && req.value.entries == [entry] && req.value.prevLogIndex == |log| - 1
            && (log != [] ==> req.value.prevLogTerm == LastTerm(log))
  {
    RequestRefines(p.leader, log, id);
    AppendFits(digest, p.leader, log, me, entry);
    OneToSend(Append(digest, p.leader, me, entry), log, entry, id);
  }

  // ---- from anywhere ----

  function Rounds(digest: Digest, p: Pair, id: ServerID, gameState: Bytes, k: nat): Pair {
    if k == 0 then p
    else
      var q := Rounds(digest, p, id, gameState, k - 1);
      if |q.follower.logs| == |q.follower.hashes| then Round(digest, q, id, gameState) else q
  }

  /** A request for the next index starts there, or at the end of the leader's log. */
  function Clip(next: int, log: seq<RaftLog>): int {
    if next <= |log| then next else |log|
  }

  /** The follower's last index, to which a refusal takes the next index. */
  function Fallback(flog: seq<RaftLog>): int {
    if flog == [] then 0 else |flog| - 1
  }

  /** After one refusal the leader can still build a request, and the follower takes it. */
  predicate SecondFits(base: int, log: seq<RaftLog>, flog: seq<RaftLog>) {
    Fallback(flog) >= base && Fitting(log, flog, Clip(Fallback(flog), log))
  }

  /** Two logs that share an index and a term there share everything before. */
  ghost predicate LogsMatch(flog: seq<RaftLog>, log: seq<RaftLog>) {
    forall i :: 0 <= i < |flog| && i < |log| && flog[i].term == log[i].term ==> Agree(flog, log, i + 1)
  }

  /** The follower's log after a success: the leader's, unless it holds all of that and more. */
  function Caught(log: seq<RaftLog>, flog: seq<RaftLog>): seq<RaftLog> {
    if Agree(flog, log, |log|) then flog else log
  }

  lemma {:induction false} MergeCatches(flog: seq<RaftLog>, log: seq<RaftLog>, next: nat)
    requires next <= |flog| && next <= |log| && Agree(flog, log, next) && LogsMatch(flog, log)
    requires forall i :: 0 <= i < |flog| ==> flog[i].index == i
    requires forall i :: 0 <= i < |log| ==> log[i].index == i
    ensures Merge(flog, next, log[next..]) == Caught(log, flog)
    decreases |log| - next
  {
    if next < |log| {
      assert log[next..][1..] == log[next + 1..] && log[next..][0] == log[next];
      if next < |flog| && SameIdTerm(flog[next], log[next]) {
        MergeCatches(flog, log, next + 1);
      } else {
        assert flog[..next] + log[next..] == log;
      }
    }
  }

  /** The exchange over all lengths and from any next index the leader can serve. It ever succeeds
      exactly when the first request fits the follower's log, or the one for the follower's last
      index does and is not compacted away. It then succeeds in the first or second round; under log
      matching the follower's log becomes the leader's, unless it held all of it already. Otherwise
      no number of rounds changes the follower's log: the next index jumps to the follower's last
      index and no further back. */
  lemma RollbackConvergesIff(
      digest: Digest, p: Pair, id: ServerID, log: seq<RaftLog>, flog: seq<RaftLog>, gameState: Bytes, k: nat)
    requires Facing(p, log, flog) && Base(p.leader.lastSnapshot) <= Next(p, id)
    ensures var first, second := Fitting(log, flog, Clip(Next(p, id), log)), SecondFits(Base(p.leader.lastSnapshot), log, flog);
            var one, two := Rounds(digest, p, id, gameState, 1), Rounds(digest, p, id, gameState, 2);
            && one.accepted == first
            && (!first ==> two.accepted == second)
            && (!first && !second && k > 0 ==>
                  !Rounds(digest, p, id, gameState, k).accepted && Rounds(digest, p, id, gameState, k).follower.logs == flog)
            && (LogsMatch(flog, log) ==>
                  && (first ==> one.follower.logs == Caught(log, flog))
                  && (!first && second ==> two.follower.logs == Caught(log, flog)))
  {
    var next := Clip(Next(p, id), log);
    var q := Round(digest, p, id, gameState);
    assert Rounds(digest, p, id, gameState, 0) == p;
    assert Rounds(digest, p, id, gameState, 1) == q;
    RoundIs(digest, p, id, log, flog, gameState, next);
    if Fitting(log, flog, next) {
      Lands(p, log, flog, next);
    } else {
      assert Rounds(digest, p, id, gameState, 2) == Round(digest, q, id, gameState);
      if SecondFits(Base(p.leader.lastSnapshot), log, flog) {
        RoundIs(digest, q, id, log, flog, gameState, Clip(Fallback(flog), log));
        Lands(q, log, flog, Clip(Fallback(flog), log));
      } else {
        StuckForever(digest, p, id, log, flog, gameState, 2);
        if k > 0 {
          StuckForever(digest, p, id, log, flog, gameState, k);
        }
      }
    }
  }

  /** A next index inside the leader's snapshot never moves: the follower needs the snapshot. */
  lemma {:induction false} NeedsSnapshot(
      digest: Digest, p: Pair, id: ServerID, log: seq<RaftLog>, gameState: Bytes, k: nat)
    requires Rep(p.leader, log) && Next(p, id) < Base(p.leader.lastSnapshot)
    ensures Rounds(digest, p, id, gameState, k) == p
    decreases k
  {
    RequestRefines(p.leader, log, id);
    if k > 0 {
      NeedsSnapshot(digest, p, id, log, gameState, k - 1);
    }
  }

  /** After a refusal the leader falls back to the index it was told, or to the start, and calls for a
      snapshot exactly when it could not build a request from there. */
  lemma CallsForSnapshotIff(n: Node, log: seq<RaftLog>, aer: AppendEntriesResponse)
    requires Rep(n, log) && !aer.success && aer.term <= n.currentTerm
    ensures var out := HandleAppendEntriesResponse(n, aer);
            && out.0 == n.(nextIndex := n.nextIndex[aer.id := if aer.lastIndex >= 0 then aer.lastIndex else 0])
            && out.1 < 0
            && (out.2 <==> GetAppendEntriesArgs(out.0, aer.id).1 == None)
  {
    var n' := HandleAppendEntriesResponse(n, aer).0;
    assert Rep(n', log);
    RequestRefines(n', log, aer.id);
  }

  /** A success reports what it was credited with, a deposition nothing, and neither calls for one. */
  lemma ReplyReports(n: Node, aer: AppendEntriesResponse)
    requires aer.success || aer.term > n.currentTerm
    ensures var out := HandleAppendEntriesResponse(n, aer);
            && !out.2
            && (if aer.success then aer.id in out.0.matchIndex && out.1 == out.0.matchIndex[aer.id] else out.1 < 0)
  {
  }

  lemma Lands(p: Pair, log: seq<RaftLog>, flog: seq<RaftLog>, next: int)
    requires Facing(p, log, flog) && 0 <= next <= |log| && Fitting(log, flog, next)
    ensures LogsMatch(flog, log) ==> Merge(flog, next, log[next..]) == Caught(log, flog)
  {
    WholeLog(p.follower, flog);
    if LogsMatch(flog, log) {
      MergeCatches(flog, log, next);
    }
  }

  /** A refused pair whose second request does not fit, or cannot be built, stays as it is. */
  lemma StaysStuck(digest: Digest, q: Pair, id: ServerID, log: seq<RaftLog>, flog: seq<RaftLog>, gameState: Bytes)
    requires Facing(q, log, flog) && !q.accepted && Next(q, id) == Fallback(flog)
    requires !SecondFits(Base(q.leader.lastSnapshot), log, flog)
    ensures |q.follower.logs| == |q.follower.hashes|
    ensures var r := Round(digest, q, id, gameState);
            && Facing(r, log, flog) && !r.accepted && r.follower.logs == flog && Next(r, id) == Fallback(flog)
            && r.leader.lastSnapshot == q.leader.lastSnapshot
  {
    if Base(q.leader.lastSnapshot) <= Fallback(flog) {
      RoundIs(digest, q, id, log, flog, gameState, Clip(Fallback(flog), log));
    } else {
      RequestRefines(q.leader, log, id);
      WholeLog(q.follower, flog);
    }
  }

  lemma {:induction false} StuckForever(
      digest: Digest, p: Pair, id: ServerID, log: seq<RaftLog>, flog: seq<RaftLog>, gameState: Bytes, k: nat)
    requires Facing(p, log, flog) && Base(p.leader.lastSnapshot) <= Next(p, id) && k > 0
    requires !Fitting(log, flog, Clip(Next(p, id), log)) && !SecondFits(Base(p.leader.lastSnapshot), log, flog)
    ensures var q := Rounds(digest, p, id, gameState, k);
            && Facing(q, log, flog) && !q.accepted && q.follower.logs == flog && Next(q, id) == Fallback(flog)
            && q.leader.lastSnapshot == p.leader.lastSnapshot
    decreases k
  {
    if k == 1 {
      assert Rounds(digest, p, id, gameState, 0) == p;
      RoundRefuses(digest, p, id, log, flog, gameState, Clip(Next(p, id), log));
    } else {
      var q := Rounds(digest, p, id, gameState, k - 1);
      StuckForever(digest, p, id, log, flog, gameState, k - 1);
      StaysStuck(digest, q, id, log, flog, gameState);
    }
  }

  // ---- the first request of a tenure ----

  /** What a new leader sends to each peer first: its no-op entry, right after its old last entry. */
  lemma FirstRequest(digest: Digest, n: Node, log: seq<RaftLog>, id: ServerID, to: ServerID)
    requires Rep(n, log) && |n.logs| < CAPACITY && to in n.nextIndex && to != id
    ensures var noop := RaftLog(|log|, n.currentTerm, LogNoop, [], NO_CHANGE, [], 0);
            var req := GetAppendEntriesArgs(WinElection(digest, n, id), to).1;
            req.Some?
            && req.value == AppendEntriesArgs(n.currentTerm, Some(id), |log| - 1, req.value.prevLogTerm, [noop], n.commitIndex)
            && (log != [] ==> req.value.prevLogTerm == LastTerm(log))
  {
    var noop := RaftLog(|log|, n.currentTerm, LogNoop, [], NO_CHANGE, [], 0);
    var n1 := TakeOffice(n, id);
    LastOfFull(n, log);
    AppendFits(digest, n1, log, id, noop);
    assert WinElection(digest, n, id) == Append(digest, n1, id, noop);
    OneToSend(Append(digest, n1, id, noop), log, noop, to);
  }

  /** A peer the leader keeps no book on is sent the log from its start, or needs the snapshot; a success
      from a peer it has sent nothing to is credited with the first entry. */
  lemma UnknownPeer(n: Node, log: seq<RaftLog>, id: ServerID, aer: AppendEntriesResponse)
    requires Rep(n, log) && id !in n.nextIndex && id !in n.lastSentLogIndex && aer.id == id && aer.success
    ensures var req := GetAppendEntriesArgs(n, id).1;
            if n.lastSnapshot == None then req.Some? && req.value.prevLogIndex == -1 && req.value.entries == log
            else req == None
    ensures HandleAppendEntriesResponse(n, aer).0.matchIndex == n.matchIndex[id := 0]
  {
    RequestRefines(n, log, id);
    if n.lastSnapshot == None {
      SliceWhole(GetAppendEntriesArgs(n, id).1.value.entries, log);
    }
  }

  lemma SliceWhole(entries: seq<RaftLog>, log: seq<RaftLog>)
    requires IsSlice(entries, log, 0) && |entries| == |log|
    ensures entries == log
  {
  }

  lemma OneToSend(n: Node, log: seq<RaftLog>, e: RaftLog, to: ServerID)
    requires Rep(n, log + [e]) && Base(n.lastSnapshot) <= Get(n.nextIndex, to) == |log|
    ensures var req := GetAppendEntriesArgs(n, to).1;
            req.Some?
            && req.value == AppendEntriesArgs(n.currentTerm, n.currentLeader, |log| - 1, req.value.prevLogTerm, [e], n.commitIndex)
            && (log != [] ==> req.value.prevLogTerm == LastTerm(log))
  {
    RequestRefines(n, log + [e], to);
    OneEntry(GetAppendEntriesArgs(n, to).1.value.entries, log, log + [e], e);
  }

  lemma OneEntry(entries: seq<RaftLog>, log: seq<RaftLog>, more: seq<RaftLog>, e: RaftLog)
    requires more == log + [e] && IsSlice(entries, more, |log|) && |entries| == 1
    ensures entries == [e]
    ensures log != [] ==> more[|log| - 1].term == LastTerm(log)
  {
    assert entries[0] == more[|log|];
  }

  // ---- the follower's commit index ----

  /** For any request a leader can build, an accepting follower's commit index becomes the larger of
      its own and the leader's, never falls, and never passes what the request has matched. */
  lemma FollowerCommitIsSound(n: Node, log: seq<RaftLog>, id: ServerID, commit: int)
    requires Rep(n, log) && GetAppendEntriesArgs(n, id).1.Some?
    requires forall i :: 0 <= i < |log| ==> log[i].index == i
    ensures var args := GetAppendEntriesArgs(n, id).1.value;
            var c := FollowerCommit(commit, args);
            && C.Covers(args) == |log| - 1
            && c == (if n.commitIndex > commit then n.commitIndex else commit)
            && (c > commit ==> c <= C.Covers(args))
  {
    RequestRefines(n, log, id);
    var args := GetAppendEntriesArgs(n, id).1.value;
    if args.entries != [] {
      assert args.entries[|args.entries| - 1] == log[|log| - 1];
    }
  }
}
