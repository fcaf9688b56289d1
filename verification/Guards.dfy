/** The repairs that change what a handler does, under which the cluster theorems hold, each as a small
    function around the code's own handler. `GuardConditions` says when the code needs them. */
module Guards {
  import opened Types
  import opened Replica

  /** G1: a node that adopts a newer term becomes a follower. */
  function StepDown(before: Node, after: Node): Node {
    if after.currentTerm > before.currentTerm then after.(role := Follower) else after
  }

  /** G2: a new leader forgets what peers acknowledged to it in an earlier term. */
  function FreshTenure(n: Node, id: ServerID): Node {
    n.(matchIndex := map p | p in n.matchIndex :: if p == id then n.matchIndex[p] else -1,
       lastSentLogIndex := map p | p in n.lastSentLogIndex :: if p == id then n.lastSentLogIndex[p] else -1)
  }

  /** G3: an acknowledgement is credited with the index its own request covered, */
  function Paired(n: Node, id: ServerID, covered: int): Node {
    n.(lastSentLogIndex := n.lastSentLogIndex[id := covered])
  }

  /** and only in the term it was given in. */
  predicate Stale(n: Node, success: bool, term: int) {
    success && term != n.currentTerm
  }

  /** G4: a failed install deposes a leader only from a newer term. */
  predicate SameTermFailure(n: Node, isr: InstallSnapshotResponse) {
    !isr.success && isr.term <= n.currentTerm
  }

  /** G6: installing would drop entries past the snapshot point. */
  predicate HoldsPast(n: Node, isa: InstallSnapshotArgs) {
    LastIdx(n) > isa.lastIncludedIndex && isa.lastIncludedIndex > n.lastApplied
  }

  // ---- the guarded handlers ----

  function GuardedVote(n: Node, id: ServerID, rva: RequestVoteArgs): (Node, RequestVoteResponse) {
    var out := HandleRequestToVote(n, id, rva);
    (StepDown(n, out.0), out.1)
  }

  function GuardedWin(digest: Digest, n: Node, id: ServerID): Node
    requires |n.logs| == |n.hashes|
  {
    FreshTenure(WinElection(digest, n, id), id)
  }

  /** G5: entries inside the receiver's snapshot are purged first. */
  function GuardedAppend(digest: Digest, n: Node, myID: ServerID, aea: AppendEntriesArgs, gameState: Bytes)
      : (Node, AppendEntriesResponse)
    requires |n.logs| == |n.hashes|
  {
    HandleAppendEntries(digest, n, myID, Purge(n, aea), gameState)
  }

  function GuardedAppendReply(n: Node, aer: AppendEntriesResponse, covered: int): Node {
    if Stale(n, aer.success, aer.term) then n
    else HandleAppendEntriesResponse(if aer.success then Paired(n, aer.id, covered) else n, aer).0
  }

  function GuardedInstall(n: Node, myID: ServerID, isa: InstallSnapshotArgs)
      : (Node, Option<InstallSnapshotResponse>, Option<Bytes>)
  {
    if isa.term >= n.currentTerm && HoldsPast(n, isa) then
      (StepDown(n, if isa.term > n.currentTerm then UpdateTerm(n, isa.term) else n), None, None)
    else
      var out := HandleInstallSnapshotRequest(n, myID, isa);
      (StepDown(n, out.0), Some(out.1), out.2)
  }

  function GuardedInstallReply(n: Node, isr: InstallSnapshotResponse): Node {
    if SameTermFailure(n, isr) || Stale(n, isr.success, isr.term) then n
    else HandleInstallSnapshotResponse(n, isr).0
  }
}
