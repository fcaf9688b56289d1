# Verified model of the Raft core

This project models the Raft library's core (package `raft`: elections, replication, commit, apply,
compaction, snapshot installation, membership changes, persistence and recovery) and proves its safety.
It has three layers.

* **One node.** `NodeState` is the mutable node: a fixed array of 1024 entries, a parallel array of
  hashes, a fill counter, a snapshot and the per-peer maps, changed in place by the same handlers,
  branches and loops as the Go code. Every method is proved to turn the state into what the function of
  the same name in `Replica` makes of it. `RaftNode` adds the application, the storage and the save
  that follows each handler.
* **A cluster of such nodes.** `ArrayCluster` is the step relation: timer, requests, replies, client
  commands, commit, apply, snapshot shipping and installation, crash and restart, with a network that
  loses, delays and reorders messages and may repeat append and install messages. Its steps are the
  handlers of `Replica` inside the guards of `Guards`.
* **The same cluster over unbounded logs.** `Cluster`, with its inductive invariant in `Invariant` and
  the safety properties in `Safety`. `Refinement` to `ArrayInvariant` prove that every action of the array
  cluster is a short sequence of steps over unbounded logs, so that every theorem holds of the arrays,
  and `ArraySafety` states them there.

`Deposition` and `DeposedScan` say when guard G11 below matters in a run, and `DeposedRun` is a run in which it does.

Beside these stand the hash chain on one node, between nodes and in runs (`HashChain`, `HashTransfer`,
`ChainRuns`), the configuration (`ConfigChanges`), the exchange between a leader and a follower
(`Replication`), whom a node names as leader (`LeaderHints`) and compaction (`Compaction`).

`log` and `voters` of a peer, `History` of the cluster over unbounded logs, and `prefix` of an install
message are history variables: no handler reads them.

## Guards

The code falls short of its comments in places. The cluster theorems are about the handlers with these
repairs. `GuardConditions` gives, for G1 to G6, G10 and G11, exactly when the code as it stands already does
what the guard asks; `HashChain` does so for G9 and `ConfigChanges` for the role check of G8. G7 is a choice of
scope, and the rest of G8 is an assumption about interleaving, so there is nothing of the kind to state.

* **G1** a node that adopts a newer term becomes a follower (raft/election.go:52-55, raft/snapshot.go:76-78
  leave the role).
* **G2** a new leader clears the peers' match and last-sent indices (raft/election.go:116-120 keep them).
* **G3** a success is credited with the index its own request covered, and only in its own term
  (raft/log.go:247-248 use the last request built, and check no term).
* **G4** a failed install deposes a leader only from a newer term (raft/snapshot.go:124 uses `>=`).
* **G5** entries inside the receiver's snapshot are purged first (raft/snapshot.go:142-160 has no caller).
* **G6** a node that holds entries past an offered snapshot lets the request pass
  (raft/snapshot.go:98-102 drop them).
* **G7** membership is fixed in the cluster theorems; changes are treated at one node.
* **G8** a handler, the role check before it and the save after it are one step, and queued membership
  changes start only while the node leads (raft/node.go:389 does not check the role).
* **G9** the hash chain is claimed for the follower's path only (raft/log.go:39-40, raft/log.go:64-65 hash
  before the fill counter moves).
* **G10** saving the state and the snapshot is one reliable write, and "nothing saved yet" is -1
  (raft/node.go:368-369 compare with 0, so a snapshot of index 0 is never written).
* **G11** the commit scan runs at leaders only, as its comment at raft/log.go:252-253 asks
  (raft/node.go:584 calls it also after the node has stepped down). In a run this matters only after a
  victory whose no-op was dropped for lack of room (raft/log.go:60-62), and then only while no
  majority holds an entry of the leader's own term.

No guard is needed for terms learned from replies: the code does not save those
(raft/node.go:528-535, raft/log.go:334-353, raft/snapshot.go:184-199), a crash may forget them, and the
theorems hold nevertheless, because such a node has neither voted nor answered in the newer term.

Where code and comments disagree otherwise, the model follows the code: a request that meets a full array is
refused even when the compaction it triggers makes room, because the start position is computed before
(raft/log.go:174-179); a follower records the array position of a membership change, not its index
(raft/log.go:187-188, raft/log.go:202-203); with a full array a membership change takes effect without an
entry (raft/config_change.go:107-110) and blocks every later one, as does a change whose leader loses office
before applying it (raft/log.go:370-381); an installed snapshot leaves the receiver's own configuration as it was
(raft/snapshot.go:91-102).

## Model

| member | source | states |
|---|---|---|
| ArraySafety.OneLeader | raft/election.go:79-123 | Election safety on the arrays: in every run, at any two moments, whoever leads a term is one and the same node |
| ArraySafety.OneVote | raft/election.go:57-70 | After voting in a term a node is never again in an earlier one, and never gives that term's vote to anyone else, across crashes and restarts |
| ArraySafety.CountIsVoters | raft/election.go:21-96 | The integer `electionVotes` of a candidate is the number of its distinct voters, itself among them |
| ArraySafety.MatchingEntries | raft/log.go:154-207 | Log matching on the arrays: entries of equal index and term are equal, and so is everything before them that both arrays still hold, at any two moments |
| ArraySafety.SameApplied | raft/log.go:278-289 | State machine safety on the arrays: entries of one index that two nodes have applied, at any two moments, are equal |
| ArraySafety.OneHistory | raft/log.go:395-403 | The states the applications went through agree index by index: what the nodes applied is one history |
| ArraySafety.SameState | raft/log.go:356-403 | Two applications that have applied as far are in the same state, whether by replay, after a crash or from a snapshot |
| ArraySafety.SnapshotIsState | raft/snapshot.go:32-39 | A snapshot's data is the saved state of any application that has applied exactly what it covers |
| ArraySafety.LeaderKeepsCommitted | raft/log.go:254-274 | Leader completeness on the arrays: a committed entry is at every leader of that term or a later one, in the array as it was or covered by its snapshot |
| ArraySafety.MatchIndexIsTrue | raft/log.go:224-250 | Acknowledgement soundness: a peer not yet in a later term reaches as far as the leader's matchIndex says and holds the leader's entries there |
| ArraySafety.AlwaysWellFormed | raft/state.go:44-85 | At every moment every node satisfies the representation invariant, its application is its initial state fed the data of the applied command entries, in order and once each, its snapshot is the state that those of the covered prefix lead to, and its disk holds log, snapshot, term and vote, but for a newer term that a follower which has not voted learned from a reply |
| ArraySafety.TermsInOrder | raft/log.go:22-29 | Terms never decrease along an array and never exceed the node's own term |
| ArraySafety.RunSimulates | raft/node.go:380-400 | Every run of the array cluster, guards included, is a run of the cluster over unbounded logs |
| ArrayInvariant.StepOk | raft/node.go:380-587 | One action of the array cluster is matched by steps over unbounded logs and keeps the invariant of both |
| ArrayInvariant.BootOk | raft/state.go:89-128 | New nodes satisfy the invariant |
| ArrayInvariant.PeerAfter | raft/log.go:356-403 | A peer that applied nothing keeps its application equal to the fold of the applied prefix, because committed entries are never overwritten |
| ArrayInvariant.SavingStep | raft/node.go:362-375 | An action that ends in a save makes a learned term known first and is then an action of a node whose disk is up to date |
| ArrayInvariant.UnsavedCrash | raft/node.go:167-202 | A crash that forgets a learned term is a restart of a node that never learned it |
| Simulation.DeposedPeer | raft/log.go:228-233 | A node deposed by a reply keeps, on disk, the term and vote it had, which are no longer those in memory, and is a follower without a vote in the newer term |
| ElectionSimulation.ReplyDeposes | raft/election.go:84-91 | A vote reply of a newer term deposes the candidate and leaves its disk behind |
| LogSimulation.AppendReplyDeposes | raft/log.go:228-233 | So does a refusal of a newer term to the leader |
| LogSimulation.AppendReplyMoves | raft/log.go:224-250 | Any other reply leaves the disk up to date |
| ArrayInvariant.TermZeroIsBlank | raft/node.go:173 | In term 0 a node has no entries and no vote, so skipping the restore loses nothing |
| Safety.ElectionSafety | raft/election.go:79-123 | At most one leader per term, over all runs on unbounded logs |
| Safety.VotesNeverChange | raft/election.go:57-70 | One vote per term, kept through crashes, and no return to an earlier term after it |
| Safety.VotesAreVoters | raft/election.go:90-99 | A candidate's count is the size of a set of servers each of which voted for it in this term |
| Safety.LeaderAppendOnly | raft/log.go:18-71 | During a term the leader's log only gets longer |
| Safety.LogMatching | raft/log.go:154-207 | Entries of equal index and term have equal histories, at any two moments |
| Safety.LeaderHoldsCommitted | raft/log.go:254-274 | Whatever any node knows committed is in the log of every leader of that term or a later one |
| Safety.StateMachineSafety | raft/log.go:278-289 | Entries applied at one index by any two nodes at any two moments are equal |
| Safety.AckSoundness | raft/log.go:247-249 | While a peer has not moved to another term it agrees with the leader as far as matchIndex says |
| Safety.TermsInOrder | raft/log.go:22-29 | Terms never decrease along a log |
| Safety.StepInv | raft/node.go:380-587 | Every step keeps the inductive invariant |
| Safety.StepLater | raft/node.go:362-375 | No step forgets a vote, a leader or a commitment, or shortens a leader's log |
| Completeness.MajoritiesMeet | raft/election.go:94-96 | Two majorities of one membership share a member |
| Completeness.LeaderCompleteness | raft/election.go:57-63 | A leader elected after a commitment has the committed entries, by the up-to-date test, the current-term test and majority intersection |
| WinSteps.WinAloneInv | raft/node.go:490-494 | A node without peers wins at once and the invariant holds |
| WinSteps.VoteRepInv | raft/election.go:79-123 | Counting a vote, and winning, keep the invariant |
| WinSteps.ClientAppendInv | raft/log.go:18-50 | A leader's append keeps the invariant |
| VoteSteps.TimeoutInv | raft/election.go:15-23 | Starting an election keeps the invariant |
| VoteSteps.VoteReqInv | raft/election.go:40-75 | Answering a vote request keeps the invariant |
| AppendSteps.AppendInv | raft/log.go:131-220 | Answering an append request, accepted or refused, keeps the invariant |
| AppendSteps.MergeResult | raft/log.go:181-207 | The merged log agrees with the leader's through all that was sent, and keeps all that agreed before |
| AppendSteps.FollowedCommit | raft/log.go:209-217 | The follower's new commit index covers committed entries it holds |
| AppendSteps.InstallInv | raft/snapshot.go:65-115 | Installing a snapshot keeps the invariant |
| AppendSteps.AdvanceCommitInv | raft/log.go:254-274 | Advancing the commit index by a majority on an entry of the current term keeps the invariant |
| QuietSteps.RestartInv | raft/node.go:167-202 | A restart from storage keeps the invariant |
| QuietSteps.SendAppendInv | raft/log.go:75-128 | A request in flight tells the truth about its leader's log |
| QuietSteps.SendInstallInv | raft/snapshot.go:48-62 | A snapshot in flight stands for a committed prefix |
| Agreement.TracedMatch | raft/log.go:164-168 | Logs whose entries come from the leaders of their terms match wherever they share index and term |
| Agreement.MergeAgrees | raft/log.go:181-207 | Merging a slice of a leader's log reaches its end, keeps whatever agreed, and truncates only where the logs part |
| NodeState.NodeState.constructor | raft/state.go:89-128 | A new node has the initial state |
| NodeState.NodeState.GetLastLogIdxTerm | raft/state.go:225-234 | The last index and term, from the array or the snapshot |
| NodeState.NodeState.FindArrayIdxByLogIndex | raft/state.go:238-245 | The backwards scan loop finds the newest position of an index, or none |
| NodeState.NodeState.GetLogHash | raft/state.go:250-260 | The chained hash of an entry |
| NodeState.NodeState.CopyLogsToBeginning | raft/state.go:264-272 | The shift loop moves both arrays down together and overwrites nothing still needed |
| NodeState.NodeState.UpdateCurrentTerm | raft/state.go:276-279 | A new term clears the vote |
| NodeState.NodeState.GetPersistentState | raft/state.go:209-219 | The fields that survive a crash |
| NodeState.NodeState.StartElection | raft/election.go:15-23 | Next term, own vote, one vote counted |
| NodeState.NodeState.PrepareRequestVoteRPC | raft/election.go:26-36 | The candidate's request |
| NodeState.NodeState.HandleRequestToVote | raft/election.go:40-75 | The whole new state and the answer to a vote request |
| NodeState.NodeState.UpdateElection | raft/election.go:79-101 | The new count and whether the election is won |
| NodeState.NodeState.WinElection | raft/election.go:106-123 | The leader's new state and its no-op entry |
| NodeState.NodeState.AddNoopLogLocked | raft/log.go:53-71 | A no-op entry is added unless the array is full |
| NodeState.NodeState.AddCommandLog | raft/log.go:18-50 | A command is stored with the next index, compacting a full array first |
| NodeState.NodeState.GetAppendEntriesArgs | raft/log.go:75-128 | The request for a peer, and the index recorded as last sent |
| NodeState.NodeState.HandleAppendEntries | raft/log.go:131-220 | The whole new state and the answer to an append request |
| NodeState.NodeState.MergeEntries | raft/log.go:181-207 | The in-place merge loop is the recursive merge of all entries |
| NodeState.NodeState.HandleAppendEntriesResponse | raft/log.go:224-250 | The leader's new state, match and next index, and need of a snapshot |
| NodeState.NodeState.CountReplicated | raft/log.go:263-269 | The counting loop over the map counts the peers that hold an index |
| NodeState.NodeState.CheckCommits | raft/log.go:254-274 | The commit scan loop |
| NodeState.NodeState.UpdateLastApplied | raft/log.go:278-289 | The next entry to apply |
| NodeState.NodeState.TakeSnapshot | raft/snapshot.go:18-45 | Snapshot and compaction at the last applied entry |
| NodeState.NodeState.PrepareInstallSnapshotRPC | raft/snapshot.go:48-62 | The snapshot as a request |
| NodeState.NodeState.HandleInstallSnapshotRequest | raft/snapshot.go:65-115 | The whole new state, the answer and what the application restores |
| NodeState.NodeState.HandleInstallSnapshotResponse | raft/snapshot.go:119-137 | The leader's new state on a reply |
| NodeState.NodeState.PurgeEntriesFromSnapshot | raft/snapshot.go:142-160 | The loop removes exactly the leading entries the snapshot covers and moves the previous entry along |
| NodeState.NodeState.ApplyConfigurationLocked | raft/config_change.go:49-58 | The change takes effect and the configuration before it is kept |
| NodeState.NodeState.AddConfigLogUnlocked | raft/config_change.go:99-119 | A leader's own change |
| NodeState.NodeState.HandleNextConfigurationChange | raft/config_change.go:76-96 | The oldest queued change is started unless one is in progress |
| NodeState.NodeState.HandleConfigurationRPC | raft/config_change.go:63-71 | A request is queued, and started at once if none is in progress |
| NodeState.NodeState.UnlockNextConfiguration | raft/config_change.go:123-127 | The next change may start |
| NodeState.NodeState.Restore | raft/node.go:167-202 | Recovery copies term, vote and entries into the array in a loop and takes over the snapshot |
| RaftNode.RaftNode.Start | raft/node.go:167-202 | Recovery of node and application from storage |
| RaftNode.RaftNode.PersistState | raft/node.go:362-375 | State always, snapshot when newer than the last saved |
| RaftNode.RaftNode.CheckLogsToApply | raft/log.go:395-403 | The entries applied are the log from the first unapplied index to the commit index, in order, once each; the application is what their commands, fed one by one, make of its state; each client's book holds the number of its last command among them, or what it held before; and the loop ends |
| RaftNode.TurnInPlace | raft/log.go:278-289 | What applying an entry in place does to the node is the turn of which `ConfigChanges` proves that changes come one at a time |
| RaftNode.RaftNode.ApplyNextLog | raft/log.go:278-289 | One turn applies the next committed entry, its data if it is a command, or finds none |
| RaftNode.RaftNode.ApplyLog | raft/log.go:356-383 | A command, and nothing else, is applied to the application and noted in its client's book, and the lock on membership changes opens exactly for a leader that applies one |
| RaftNode.RaftNode.OnAppendEntries | raft/node.go:467-469 | Handler, then save |
| RaftNode.RaftNode.OnRequestVote | raft/node.go:473-475 | Handler, then save, then answer |
| RaftNode.RaftNode.OnInstallSnapshot | raft/node.go:477-480 | Handler, restore of the application, save |
| RaftNode.RaftNode.OnFollowerTimeout | raft/node.go:485-498 | Election, save, and victory at once without peers |
| RaftNode.RaftNode.OnVoteReply | raft/node.go:528-535 | A candidate counts, and saves if it has won |
| RaftNode.RaftNode.Submit | raft/node.go:419-438 | Only a leader takes a command; it answers at once exactly when the client's book already holds that sequence number or a later one; otherwise the command is stored and saved, or refused for lack of room |
| Refinement.FindIsSubtraction | raft/state.go:238-245 | On contiguous indices the backwards scan is subtraction |
| Refinement.LastOfFull | raft/state.go:225-234 | Last index and term are those of the unbounded log, compacted or not |
| Refinement.VoteRefines | raft/election.go:40-75 | A vote is decided as on the unbounded log |
| Refinement.WinRefines | raft/election.go:106-123 | Winning is the unbounded step, with a fresh tenure |
| Refinement.SnapshotRefines | raft/snapshot.go:18-45 | Compaction succeeds exactly when something new was applied, leaves the unbounded log unchanged and makes room |
| Refinement.SnapshotRecords | raft/snapshot.go:32-43 | A snapshot records the applied index, that entry's term and hash, the application's state and the servers as they are now; what follows stays in the array |
| Refinement.RequestRefines | raft/log.go:75-128 | A request carries the unbounded log from the peer's next index to its end with the entry before it, and there is none exactly when that entry is compacted |
| Refinement.CreditedIsCovered | raft/log.go:112-118 | What is recorded as last sent is what the request covers exactly when the next index is not past the end |
| MergeRefinement.LoopRefines | raft/log.go:181-207 | The loop over the entries, of every kind and under every configuration, is the merge rule, and touches log, hashes and configuration only |
| MergeRefinement.MergeMeaning | raft/log.go:181-207 | The merge keeps everything up to the first missing or conflicting entry and is what was sent from there on; with nothing missing it changes nothing, so a stale short request drops nothing |
| MergeRefinement.MergeCovering | raft/log.go:173-207 | Merging into the array is merging into the unbounded log |
| MergeRefinement.PurgeIs | raft/snapshot.go:142-160 | The purge leaves exactly the entries past the snapshot |
| MergeRefinement.PurgedStillTrue | raft/snapshot.go:155-159 | A purged request still names the sender's entry before those it carries, and covers as much as before |
| MergeRefinement.PrevIs | raft/log.go:154-170 | The consistency check on the array is that on the unbounded log, and merging starts at the right place |
| MergeRefinement.AcceptRefines | raft/log.go:170-219 | An accepted request, membership changes included, is the unbounded step, commit index and all, and no write is out of bounds |
| MergeRefinement.RefuseRefines | raft/log.go:154-179 | A refused request changes term and role only, and compacts when the array is full |
| HandlerRefinement.SubmitRefines | raft/log.go:18-50 | Exactly one entry with the next index, or nothing when a full array cannot be compacted |
| HandlerRefinement.CommitIsOptimal | raft/log.go:254-274 | The scan leaves the largest index above the old one that is of the current term and held by a majority, unchanged exactly if there is none; it never regresses |
| HandlerRefinement.ApplyRefines | raft/log.go:278-289 | The entry applied next is the unbounded log's |
| HandlerRefinement.InstallRefines | raft/snapshot.go:65-115 | Installation is the unbounded step, with guard G6; where the snapshot replaces the log it is the one in the message, servers and hash included |
| HandlerRefinement.AppendReplyRefines | raft/log.go:224-250 | A paired reply credits exactly what its request covered |
| HandlerRefinement.InstallReplyRefines | raft/snapshot.go:119-137 | A reply to a snapshot credits exactly what it covered |
| HandlerRefinement.InstallReplyReports | raft/snapshot.go:119-137 | The index reported is the new match index, or none |
| HandlerRefinement.RecoverRefines | raft/node.go:167-202 | Recovery from what was stored keeps term, vote, unbounded log and snapshot |
| HandlerRefinement.RestoresIff | raft/node.go:173-184 | A node starts with the stored term, vote and entries, as many as fit, exactly when they were stored in a term above 0 or there were none |
| HandlerRefinement.OversizedRestore | raft/node.go:178-184 | Of more entries than the array holds the oldest are restored, all with the zero hash |
| HandlerRefinement.StartsFromNothing | raft/state.go:97-126 | A new node knows its peers, holds nothing and names no leader |
| SnapshotSimulation.CrashMoves | raft/node.go:167-202 | After crash and restart the application is the fold up to the snapshot, and the disk still holds all that was acknowledged |
| SnapshotSimulation.InstalledPeer | raft/snapshot.go:91-105 | The application restored from a snapshot is in the state the covered prefix leads to |
| Simulation.SteadyState | raft/snapshot.go:18-45 | A new snapshot is the state at its index |
| Simulation.Saved | raft/node.go:362-375 | A save brings the disk up to date |
| Application.StateOfAgreeing | raft/log.go:356-367 | Equal prefixes lead to equal states |
| Application.FedFrom | raft/log.go:356-367 | From any point of a log on, the state is what the data of the command entries alone, fed in order, make of the state there |
| Application.StateIsFed | raft/log.go:359-362 | The state after a number of entries is the initial state fed the commands among them |
| Application.RecordsCommands | raft/log.go:359-362 | An application that only writes its commands down has written exactly that list |
| Compaction.SnapshotInvisible | raft/snapshot.go:18-45 | After compaction, last index and term, vote decisions and every request for a next index above the snapshot are what they were |
| Compaction.MergesInvisible | raft/log.go:154-207 | A node that has compacted accepts the same requests, with the same answer and the same resulting log, as one that holds everything |
| Compaction.PurgeInvisible | raft/snapshot.go:142-160 | Merging what the purge leaves is merging everything, when the covered part is in place |
| Replication.RoundIs | raft/log.go:75-250 | One exchange: accepted exactly when the follower has the entry before the request, and then the match index is the index credited and the next index the one after it; refused, the next index falls back to the follower's last index |
| Replication.TwoRounds | raft/log.go:236-249 | A follower whose log is a proper prefix holds exactly the leader's log after one round, or one refusal and one success, and the leader's match and next index say so |
| Replication.NothingIsResent | raft/log.go:247-248 | To a follower that is level the next request is empty, and after one more entry at the leader it is that entry alone |
| Replication.RollbackConvergesIff | raft/log.go:235-241 | Over all lengths and from any next index the leader can serve: the exchange ever succeeds exactly when the first request fits, or the one for the follower's last index does and is not compacted; then in at most two rounds, and under log matching the follower's log becomes the leader's unless it held all of it; otherwise no number of rounds changes anything |
| Replication.NeedsSnapshot | raft/log.go:84-87 | A next index inside the leader's snapshot never moves by requests |
| Replication.CallsForSnapshotIff | raft/log.go:235-243 | After a refusal the leader calls for a snapshot exactly when it can build no request from the index it falls back to |
| Replication.ReplyReports | raft/log.go:228-249 | A success reports the new match index, a deposition none, and neither calls for a snapshot |
| Replication.UnknownPeer | raft/log.go:80-86 | A peer without books is sent the whole log, or needs the snapshot, and its success is credited with the first entry |
| Replication.FirstRequest | raft/election.go:112-122 | The first request of a tenure to each peer carries just the no-op, right after the leader's old last entry |
| Replication.FollowerCommitIsSound | raft/log.go:209-217 | For any request a leader can build the follower's commit index becomes the larger of both, never falls, and never passes what was matched |
| GuardConditions.VoteStepsDownIff | raft/election.go:52-74 | The vote handler does what G1 asks unless a newer term's candidate is refused for its log by a non-follower |
| GuardConditions.LeaderUnelected | raft/election.go:52-55 | Then a leader leads a term it was not elected in |
| GuardConditions.TenureIsFreshIff | raft/election.go:116-120 | Winning does what G2 asks exactly when nothing is left of earlier tenures |
| GuardConditions.StaleTenureCommits | raft/election.go:116-122 | A new leader commits its no-op before any reply exactly when enough stale match indices reach it |
| GuardConditions.FreshTenureWaits | raft/election.go:104-122 | With G2 and a peer it never does |
| GuardConditions.InstallStepsDownIff | raft/snapshot.go:76-78 | An install that G6 lets through does what G1 asks unless it brings a newer term to a non-follower |
| GuardConditions.CreditIff | raft/log.go:247-249 | A success is credited as G3 asks exactly when, in its own term, what was last sent is what its request covered, and, from another term, when the credit changes nothing |
| GuardConditions.CreditIsOwnIff | raft/log.go:112-118 | Over anything a leader in office may do between a request and its answer (commands, requests, old and new answers, snapshots, commit, apply), the credit is right exactly when the last thing noted for that peer is a request that covers no more and was not built from past the end of the log, or a snapshot that ends there |
| GuardConditions.CreditWithinIff | raft/log.go:112-118 | While requests are built from within the log and no snapshot is shipped, that is exactly when no later request covered more |
| GuardConditions.RefusalOvercommits | raft/log.go:234-249 | An old refusal between two requests makes the code credit an answer past the leader's own log, and a leader of three then commits its next entry on its own append; with G3 it does not |
| GuardConditions.StaleSuccess | raft/log.go:247-249 | A success from an earlier term makes a new leader of two or three commit a no-op that nobody else need hold; with G3 nothing happens |
| GuardConditions.OverwrittenCredit | raft/log.go:112-118 | The answer to a first request is credited with what only a second one covered; with G3 it is not |
| GuardConditions.VotesTwice | raft/snapshot.go:123-128 | A failed install of its own term lets a leader vote twice, which takes a leader that won without room for its no-op; with G4 it does not |
| GuardConditions.KeepsVoteIff | raft/snapshot.go:123-128 | A failed install keeps the term's vote exactly when it is of another term |
| GuardConditions.InstallReplyIff | raft/snapshot.go:119-137 | A reply to a snapshot is handled as G3 and G4 ask exactly under these conditions on term, books, role, vote and leader |
| GuardConditions.StaysInOrderIff | raft/log.go:159-207 | An accepted request keeps the array in order exactly when none of its entries is inside the snapshot |
| GuardConditions.DropsEntriesIff | raft/snapshot.go:80-102 | Installation drops entries, and lowers the commit index, exactly under these conditions |
| GuardConditions.RecoveryKeepsLogIff | raft/node.go:362-375 | After a first save, a crash and recovery the node stands for the log it had exactly when its snapshot is not of index 0; otherwise the snapshot is on no medium and the array is out of order unless it was empty; with G10 nothing is lost |
| GuardConditions.DeposedScanIff | raft/node.go:555-584 | After a node was deposed by an append request the commit scan moves the commit index exactly when the request was accepted and stale match indices of a majority reach one of its entries of the new term |
| GuardConditions.DeposedScanStaticIff | raft/node.go:555-584 | The same for requests without membership changes, in terms of the node before the call only |
| DeposedScan.QuietWhenOwnHeld | raft/node.go:555-584 | In every run, the scan of a leader deposed by an append request moves nothing once a majority holds an entry of the leader's own term |
| DeposedScan.QuietWithRoom | raft/node.go:555-584 | Nor does it ever in a run in which no election is won with a full array |
| DeposedScan.DeposedLeaderCommits | raft/node.go:584 | A deposed leader of five whose acknowledged entries are all of an earlier term commits an entry that only it and the new leader hold |
| DeposedScan.DeposedLeaderIsReached | raft/log.go:60-62 | A run over unbounded logs, with one no-op dropped, leads to that leader and that request, while three of the five servers hold none of the new leader's entries |
| Deposition.OwnReachedAgrees | raft/log.go:270-273 | An entry of a leader's own term that a majority holds by its match indices is in the log of every later leader, committed or not |
| Deposition.FirmReachAgrees | raft/log.go:60-66 | If the leader stored its no-op, so is everything a majority holds of its log |
| Deposition.ExecuteFirm | raft/election.go:122 | In runs whose victories store their no-op, every index acknowledged in a term is past the log its leader was elected with, or committed |
| GuardConditions.OtherScansQuiet | raft/node.go:555-584 | After a vote request or a snapshot deposed it, the scan never moves anything |
| HashChain.EntryBytesInjective | raft/state.go:284-293 | The bytes of an entry that carries only its own type's payload determine it, up to client and sequence number |
| HashChain.EntryRoundTrip | raft/state.go:284-293 | Reading back the bytes of such an entry, three little-endian numbers and the payload, gives the entry |
| HashChain.MixedPayloadsCollide | raft/state.go:284-293 | Without that restriction they do not |
| HashChain.ChainHolds | raft/state.go:250-260 | Through any sequence of merges, truncations, compactions, installs and votes each stored hash covers its entry and the hash before it |
| HashChain.AppendLinks | raft/log.go:181-206 | An append request, accepted or refused, keeps the chain |
| HashChain.SnapshotLinks | raft/snapshot.go:33-43 | Compaction keeps the chain, with the hash at the cut as seed |
| HashChain.LeaderLinksIff | raft/log.go:38-41 | A leader's own append keeps the chain exactly when the array was empty or the skipped link makes no difference |
| HashChain.RecoveryLinksIff | raft/node.go:177-183 | After recovery the chain holds exactly when the blank hash is the hash of every entry over the blank hash, or the seed, before it |
| HashChain.EqualHashesEqualHistories | raft/state.go:247-260 | Equal hashes mean equal histories, or the walk back yields a collision of the hash function |
| ChainRuns.ChainInEveryRun | raft/state.go:247-260 | In every run of the cluster a node that has neither stood for election nor crashed has an unbroken chain, whatever it merged, truncated, compacted and installed |
| ChainRuns.ActionPerforms | raft/node.go:467-480 | The actions of such a node in the cluster are the operations of which `HashChain` proves that they keep the chain |
| ChainRuns.LeaderServes | raft/node.go:419-438 | A leader's commands, requests and commits in the cluster are those of the tenure in `ConfigChanges` |
| HashTransfer.SnapshotCarriesChain | raft/snapshot.go:32-102 | A chained sender compacts, ships, hears of the installation and sends the rest: the receiver's seed is the hash the sender's chain had at the cut, and its entries and hashes are the sender's |
| HashTransfer.ShippedIsInstalled | raft/snapshot.go:48-115 | The snapshot a leader ships replaces the receiver's whole, index, term, state, servers and hash; the receiver's own configuration stays |
| HashTransfer.RestIsNext | raft/snapshot.go:133-136 | Told of it, the leader asks next for exactly what its array still holds |
| HashTransfer.AnchoredHolds | raft/state.go:250-260 | Through any sequence of merges, compactions, votes and installs of hash-sized seeds the chain holds and its seed is a hash |
| HashTransfer.ShipsHashes | raft/snapshot.go:38-60 | A node with such a chain ships nothing but hashes |
| HashTransfer.FollowersAgree | raft/state.go:247-260 | Between any two followers that grew from nothing, whatever each received, installed and compacted, an equal hash means equal entries there and before, or a collision |
| LeaderHints.VoteHint | raft/election.go:63-69 | A node names the candidate it votes for, and otherwise whom it named before |
| LeaderHints.CandidateHint | raft/election.go:15-23 | Becoming a candidate, and losing, do not change whom it names |
| LeaderHints.WinHint | raft/election.go:113-114 | A winner names itself |
| LeaderHints.AppendHint | raft/log.go:144-179 | An append request makes the receiver name its sender exactly when the previous entry fits, even if there is no room |
| LeaderHints.ReplyHint | raft/log.go:228-233 | A refusal of a newer term makes the leader name whoever refused |
| LeaderHints.InstallReplyHint | raft/snapshot.go:123-128 | So does a failed install of a newer term, under G4 |
| LeaderHints.InstallHint | raft/snapshot.go:65-115 | An install request does not change whom the receiver names, and is answered with the index and term it offered |
| LeaderHints.LeadersKnowThemselves | raft/node.go:420-424 | In every run a leader names itself, and every node names a server or nobody |
| LeaderHints.RequestsNameTheLeader | raft/log.go:120-123 | In every run an append request in flight names its sender, and nobody else leads its term at any moment |
| ConfigChanges.ConfigFollowsLog | raft/config_change.go:49-58 | While only the newest change may be open, committed entries never conflict, the array has room and nothing is compacted, the configuration is the initial one changed by every change in the log |
| ConfigChanges.NewNodeTracks | raft/state.go:111-126 | A new node starts with the configuration of an empty log |
| ConfigChanges.MergeTracks | raft/log.go:187-204 | The merge loop keeps it so through appends, truncation and rollback, however stale the index of the last change |
| ConfigChanges.TruncateTracks | raft/log.go:193-196 | The rollback undoes exactly the change that is truncated, or nothing |
| ConfigChanges.LeaderChangeTracks | raft/config_change.go:99-119 | A leader's own change keeps it so |
| ConfigChanges.FullArrayTracksIff | raft/config_change.go:106-110 | With a full array it stays so exactly when the change changes nothing |
| ConfigChanges.RollbackIff | raft/log.go:187-204 | A truncated change is undone exactly when nothing has been compacted or it changed nothing |
| ConfigChanges.AcceptTracks | raft/log.go:131-220 | An accepted request as a whole gives the merged log and a configuration that follows it |
| ConfigChanges.StartsWithoutLeadingIff | raft/node.go:389 | A non-leader starts a queued change exactly when one is queued and none in progress, and adds an entry of its current term to its own log |
| ConfigChanges.TwoStartsDivergeIff | raft/config_change.go:76-119 | Two such starts from equal logs in one term give entries of equal index and term, which differ exactly when the queued changes do |
| ConfigChanges.NeighboursMeet | raft/config_change.go:49-58 | Any majority before a change meets any majority after it |
| ConfigChanges.OneChangeAtATime | raft/config_change.go:63-127 | A leader that takes office with no unapplied change never has two, starts what it is asked exactly once, in order, and counts each as held by itself, and only itself and its peers as holders, through commands, requests, answers, commits and applies |
| ConfigChanges.TakesOffice | raft/election.go:106-123 | The winner of an election with room, without unapplied changes and with an empty queue, begins such a tenure |
| ConfigChanges.WinnerSeatedIff | raft/election.go:112-122 | A winner counts its whole log as its own exactly when its no-op found room |
| ConfigChanges.StartedIsOwn | raft/config_change.go:92-118 | With room, a started change sets match, last-sent and next index of the current leader to the new entry, and nobody else's |
| ConfigChanges.UnlocksIff | raft/log.go:370-381 | Applying an entry opens the lock exactly when a leader applies a change |
| ConfigChanges.AppliedLetsNextStart | raft/config_change.go:80-95 | While a change is in progress nothing starts; once the leader has applied it the oldest one waiting does |
| ConfigChanges.AppliedWithoutLeading | raft/log.go:370-381 | A node that has lost its office when it applies its change keeps the lock, with nothing left to apply |
| ConfigChanges.StartLeavesStaleLockIff | raft/config_change.go:84-110 | So does a node that starts a change, exactly when its array is full |
| ConfigChanges.StaleLockBlocks | raft/config_change.go:80-82 | From then on no change ever starts, whatever is asked, committed and applied |
| ConfigChanges.SnapshotServersIff | raft/snapshot.go:37 | The servers in a snapshot are those of the part it covers exactly when the changes past that part come to nothing |

## Left out

- transport: dialling, net/rpc and timeouts are I/O; messages are sets of values in flight.
- timers, stop channels, connection retry, logging and metrics: a timeout may fire at any time; no liveness beyond `TwoRounds` and the end of `CheckLogsToApply`.
- interleavings inside one handler, and the snapshot channel round trip: one handler with its save is one step (G8).
- SHA-256: any function on bytes; `EqualHashesEqualHistories` returns a collision instead of assuming there is none.
- errors of the application and of storage: the code logs them and goes on; here both always succeed.
- RaftNode.RaftNode.ApplyLog: does not signal the channels on which callers wait for a command or a membership change (raft/log.go:368-390); they carry answers to clients and nothing that a handler reads.
- client deduplication across leaders and restarts: `clientLastSeq` is kept and checked by one node, but is not in snapshots and is checked on submission only, so no exactly-once theorem follows.
- membership change together with the cluster theorems, joining servers and their promotion: see G7.
- addConfigLog, removeServer: no callers.
- raft/metrics.go, storage/memory_storage.go, examples: easy members or user interface.
- DeposedScan.DeposedLeaderIsReached: the run is over unbounded logs, where a victory without room is a choice of the run; with arrays it takes a full one.
- integer width: `int` is unbounded; only `HashChain` restricts index and term to 64 bits, where their bytes matter.
- floating point: the minimum at raft/log.go:213 is taken over integers.
- the empty server id as "no vote" and "no leader": an option type, so an empty candidate id is not a vote for nobody.
- ConfigChanges.ConfigFollowsLog: compaction is excluded, because a follower then records the wrong index (see `RollbackIff`).
- HashTransfer.SnapshotCarriesChain: that the sender's array is chained is assumed; a leader's is not past its own appends (see `LeaderLinksIff`).
- HashChain.ChainHolds: the leader's own appends are excluded (see `LeaderLinksIff`).
