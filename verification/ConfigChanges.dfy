/** Membership changes at one node: the configuration follows the log through appends, truncation and
    rollback; changes start one at a time, in order; and neighbouring configurations overlap. */
module ConfigChanges {
  import opened Types
  import opened Agreement
  import opened Replica
  import opened Refinement
  import opened HandlerRefinement
  import C = Cluster
  import Q = Completeness
  import R = MergeRefinement

  function Changed(servers: set<ServerID>, e: RaftLog): set<ServerID> {
    if e.kind != LogConfiguration then servers
    else if e.config.add then servers + {e.config.server} else servers - {e.config.server}
  }

  /** The initial servers, changed by every configuration entry of the log in turn. */
  function Folded(init: set<ServerID>, logs: seq<RaftLog>): set<ServerID> {
    if logs == [] then init else Changed(Folded(init, logs[..|logs| - 1]), logs[|logs| - 1])
  }

  lemma FoldedSnoc(init: set<ServerID>, logs: seq<RaftLog>, e: RaftLog)
    ensures Folded(init, logs + [e]) == Changed(Folded(init, logs), e)
  {
    assert (logs + [e])[..|logs|] == logs;
  }

  predicate IsConfig(logs: seq<RaftLog>, i: int) {
    0 <= i < |logs| && logs[i].kind == LogConfiguration
  }

  lemma {:induction false} FoldedPast(init: set<ServerID>, logs: seq<RaftLog>, k: nat)
    requires k <= |logs| && forall i :: k <= i < |logs| ==> !IsConfig(logs, i)
    ensures Folded(init, logs) == Folded(init, logs[..k])
    decreases |logs| - k
  {
    if k < |logs| {
      FoldedPast(init, logs, k + 1);
      assert !IsConfig(logs, k);
      assert logs[..k + 1] == logs[..k] + [logs[k]];
      FoldedSnoc(init, logs[..k], logs[k]);
    } else {
      assert logs[..k] == logs;
    }
  }

  // ---- the configuration follows the log ----

  predicate Indexed(logs: seq<RaftLog>) {
    forall i :: 0 <= i < |logs| ==> logs[i].index == i
  }

  /** With k entries committed: the configuration is the fold of the log, and a rollback would undo
      exactly the one change that may still be truncated, or nothing. */
  ghost predicate Tracks(init: set<ServerID>, m: Membership, logs: seq<RaftLog>, k: nat) {
    && k <= |logs| && Indexed(logs)
    && m.serverConfig == Folded(init, logs)
    && (forall i :: k <= i && IsConfig(logs, i) ==>
          i == m.lastConfigLogIndex && m.oldServerConfig == Folded(init, logs[..i]))
    && (m.lastConfigLogIndex >= k ==>
          IsConfig(logs, m.lastConfigLogIndex) || m.oldServerConfig == m.serverConfig)
  }

  ghost predicate NoneOpen(logs: seq<RaftLog>, k: nat, end: int) {
    forall i :: k <= i < end ==> !IsConfig(logs, i)
  }

  /** Storing an entry at the end; a membership change only when no other is open. */
  lemma AppendTracks(init: set<ServerID>, m: Membership, logs: seq<RaftLog>, k: nat, e: RaftLog)
    requires Tracks(init, m, logs, k) && e.index == |logs|
    requires e.kind == LogConfiguration ==> NoneOpen(logs, k, |logs|)
    ensures var m' := if e.kind == LogConfiguration then ApplyConfiguration(m, |logs|, e.config) else m;
            Tracks(init, m', logs + [e], k)
  {
    var logs' := logs + [e];
    FoldedSnoc(init, logs, e);
    forall i | k <= i && IsConfig(logs', i) ensures logs'[..i] == if i < |logs| then logs[..i] else logs {
      assert i < |logs| ==> IsConfig(logs, i);
    }
    if m.lastConfigLogIndex >= k && IsConfig(logs, m.lastConfigLogIndex) {
      assert IsConfig(logs', m.lastConfigLogIndex);
    }
    forall i | k <= i && IsConfig(logs', i) && i < |logs| ensures IsConfig(logs, i) {
    }
  }

  function Reverted(m: Membership, conflict: int): Membership {
    if conflict <= m.lastConfigLogIndex then m.(serverConfig := m.oldServerConfig) else m
  }

  /** Truncating uncommitted entries, with the rollback the code performs. */
  lemma TruncateTracks(init: set<ServerID>, m: Membership, logs: seq<RaftLog>, k: nat, pos: nat)
    requires Tracks(init, m, logs, k) && k <= pos < |logs|
    ensures Tracks(init, Reverted(m, logs[pos].index), logs[..pos], k)
  {
    var c, cut := m.lastConfigLogIndex, logs[..pos];
    forall i | k <= i && IsConfig(cut, i) ensures IsConfig(logs, i) && cut[..i] == logs[..i] {
    }
    if pos <= c && IsConfig(logs, c) {
      forall i | pos <= i < c ensures !IsConfig(logs[..c], i) {
        assert IsConfig(logs[..c], i) ==> IsConfig(logs, i);
      }
      FoldedPast(init, logs[..c], pos);
      assert logs[..c][..pos] == cut;
    } else {
      forall i | pos <= i < |logs| ensures !IsConfig(logs, i) {
        assert IsConfig(logs, i) ==> i == c;
      }
      FoldedPast(init, logs, pos);
    }
    if c >= k && c < pos && IsConfig(logs, c) {
      assert IsConfig(cut, c);
    }
  }

  /** Committing more closes changes. */
  lemma CommitTracks(init: set<ServerID>, m: Membership, logs: seq<RaftLog>, k: nat, k': nat)
    requires Tracks(init, m, logs, k) && k <= k' <= |logs|
    ensures Tracks(init, m, logs, k')
  {
  }

  /** The leader's log has at most one change past the first k entries. */
  ghost predicate OneOpen(src: seq<RaftLog>, k: nat) {
    forall i, j :: k <= i && k <= j && IsConfig(src, i) && IsConfig(src, j) ==> i == j
  }

  /** Log matching between a follower's log and its leader's. */
  ghost predicate Matching(logs: seq<RaftLog>, src: seq<RaftLog>) {
    forall i :: 0 <= i < |logs| && i < |src| && SameIdTerm(logs[i], src[i]) ==> Agree(logs, src, i + 1)
  }

  lemma OneStepTracks(
      init: set<ServerID>, digest: Digest, n: Node, k: nat, src: seq<RaftLog>, pos: nat)
    requires |n.logs| == |n.hashes| && Tracks(init, n.config, n.logs, k)
    requires pos <= |n.logs| && pos < |src| && Indexed(src) && OneOpen(src, k)
    requires Agree(n.logs, src, pos) && Agree(n.logs, src, k) && Matching(n.logs, src)
    ensures var n' := MergeOne(digest, n, pos, src[pos]);
            && Tracks(init, n'.config, n'.logs, k)
            && Agree(n'.logs, src, pos + 1) && Agree(n'.logs, src, k) && Matching(n'.logs, src)
  {
    if pos < |n.logs| && SameIdTerm(n.logs[pos], src[pos]) {
    } else {
      var cut := n.logs[..pos];
      var m := if pos < |n.logs| then Reverted(n.config, n.logs[pos].index) else n.config;
      if pos < |n.logs| {
        TruncateTracks(init, n.config, n.logs, k, pos);
      } else {
        assert cut == n.logs;
      }
      forall i | k <= i < pos && src[pos].kind == LogConfiguration ensures !IsConfig(cut, i) {
        assert IsConfig(src, pos) && (IsConfig(cut, i) ==> IsConfig(src, i));
      }
      AppendTracks(init, m, cut, k, src[pos]);
      PlacedAgrees(n.logs, src, pos);
    }
  }

  lemma PlacedAgrees(logs: seq<RaftLog>, src: seq<RaftLog>, pos: nat)
    requires pos <= |logs| && pos < |src| && Agree(logs, src, pos)
    ensures var logs' := logs[..pos] + [src[pos]]; Agree(logs', src, pos + 1) && Matching(logs', src)
  {
  }

  /** The merge loop keeps the configuration the fold of the log, whatever it truncates and however
      stale the index of the last change is. */
  lemma {:induction false} MergeTracks(
      init: set<ServerID>, digest: Digest, n: Node, k: nat, src: seq<RaftLog>, pos: nat, entries: seq<RaftLog>)
    requires |n.logs| == |n.hashes| && Tracks(init, n.config, n.logs, k)
    requires pos <= |n.logs| && IsSlice(entries, src, pos) && Indexed(src) && OneOpen(src, k)
    requires Agree(n.logs, src, pos) && Agree(n.logs, src, k) && Matching(n.logs, src)
    ensures var n' := MergeLoop(digest, n, pos, entries); Tracks(init, n'.config, n'.logs, k)
    decreases |entries|
  {
    if entries != [] {
      assert entries[0] == src[pos];
      OneStepTracks(init, digest, n, k, src, pos);
      MergeTracks(init, digest, MergeOne(digest, n, pos, entries[0]), k, src, pos + 1, entries[1..]);
    }
  }

  /** An accepted request, handled as a whole by a node that has compacted nothing: the log becomes
      what the merge rule says, and the configuration follows it. */
  lemma AcceptTracks(
      init: set<ServerID>, digest: Digest, n: Node, k: nat, src: seq<RaftLog>, id: ServerID, aea: AppendEntriesArgs,
      gameState: Bytes)
    requires |n.logs| == |n.hashes| && n.lastSnapshot == None && Tracks(init, n.config, n.logs, k)
    requires Indexed(src) && OneOpen(src, k) && Agree(n.logs, src, k) && Matching(n.logs, src)
    requires aea.prevLogIndex >= -1 && IsSlice(aea.entries, src, aea.prevLogIndex + 1)
    requires aea.prevLogIndex >= 0 ==> aea.prevLogTerm == src[aea.prevLogIndex].term
    requires n.currentTerm <= aea.term && HandleAppendEntries(digest, n, id, aea, gameState).1.success
    ensures var n' := HandleAppendEntries(digest, n, id, aea, gameState).0;
            && aea.prevLogIndex + 1 <= |n.logs|
            && n'.logs == Merge(n.logs, aea.prevLogIndex + 1, aea.entries)
            && Tracks(init, n'.config, n'.logs, k)
  {
    var n2, pos := Following(n, aea.term).(currentLeader := aea.leaderID), PrevAt(n, aea) + 1;
    FindIsSubtraction(n.logs, 0, aea.prevLogIndex);
    assert !PrevRefused(n, aea, pos - 1) && pos + |aea.entries| < CAPACITY;
    assert pos == aea.prevLogIndex + 1;
    assert Agree(n.logs, src, pos);
    MergeTracks(init, digest, n2, k, src, pos, aea.entries);
    R.LoopRefines(digest, n2, pos, aea.entries);
    R.HandleAccepts(digest, n, id, aea, gameState, n2, pos, MergeAndCommit(digest, n2, pos, aea));
  }

  /** A leader's own change, with room in the array and none other open. */
  lemma LeaderChangeTracks(init: set<ServerID>, digest: Digest, n: Node, k: nat, id: ServerID, cfg: ConfigChange)
    requires |n.logs| == |n.hashes| && n.lastSnapshot == None && Tracks(init, n.config, n.logs, k)
    requires |n.logs| < CAPACITY && NoneOpen(n.logs, k, |n.logs|)
    ensures var n' := AddConfigLog(digest, n, id, cfg); Tracks(init, n'.config, n'.logs, k)
  {
    AppendTracks(init, n.config, n.logs, k, RaftLog(|n.logs|, n.currentTerm, LogConfiguration, [], cfg, [], 0));
  }

  // ---- a run ----

  /** What changes a log without compaction: a leader's request, the node's own entries while it
      leads, and commits. */
  datatype LogStep =
    | Receive(src: seq<RaftLog>, pos: nat, entries: seq<RaftLog>)
    | Change(cfg: ConfigChange)
    | Add(entry: RaftLog)
    | Close(k: nat)

  /** Only the newest change may be open, committed entries never conflict, and the array has room. */
  ghost predicate Allowed(n: Node, k: nat, step: LogStep) {
    && |n.logs| == |n.hashes| && n.lastSnapshot == None
    && match step
       case Receive(src, pos, entries) =>
         && pos <= |n.logs| && IsSlice(entries, src, pos) && Indexed(src) && OneOpen(src, k)
         && Agree(n.logs, src, pos) && Agree(n.logs, src, k) && Matching(n.logs, src)
       case Change(cfg) => |n.logs| < CAPACITY && NoneOpen(n.logs, k, |n.logs|)
       case Add(entry) => |n.logs| < CAPACITY && entry.kind != LogConfiguration && entry.index == |n.logs|
       case Close(k') => k <= k' <= |n.logs|
  }

  function Stepped(digest: Digest, n: Node, id: ServerID, step: LogStep): Node {
    if |n.logs| != |n.hashes| then n
    else
      match step
      case Receive(src, pos, entries) => if pos <= |n.logs| then MergeLoop(digest, n, pos, entries) else n
      case Change(cfg) => AddConfigLog(digest, n, id, cfg)
      case Add(entry) => Append(digest, n, id, entry)
      case Close(k) => n
  }

  function Closed(k: nat, step: LogStep): nat {
    if step.Close? then step.k else k
  }

  ghost predicate AllAllowed(digest: Digest, n: Node, id: ServerID, k: nat, steps: seq<LogStep>)
    decreases |steps|
  {
    steps == []
    || (Allowed(n, k, steps[0])
        && AllAllowed(digest, Stepped(digest, n, id, steps[0]), id, Closed(k, steps[0]), steps[1..]))
  }

  function RunSteps(digest: Digest, n: Node, id: ServerID, steps: seq<LogStep>): Node
    decreases |steps|
  {
    if steps == [] then n else RunSteps(digest, Stepped(digest, n, id, steps[0]), id, steps[1..])
  }

  lemma StepTracks(init: set<ServerID>, digest: Digest, n: Node, id: ServerID, k: nat, step: LogStep)
    requires Tracks(init, n.config, n.logs, k) && Allowed(n, k, step)
    ensures var n' := Stepped(digest, n, id, step); Tracks(init, n'.config, n'.logs, Closed(k, step))
  {
    match step
    case Receive(src, pos, entries) => MergeTracks(init, digest, n, k, src, pos, entries);
    case Change(cfg) => LeaderChangeTracks(init, digest, n, k, id, cfg);
    case Add(entry) => AppendTracks(init, n.config, n.logs, k, entry);
    case Close(k') => CommitTracks(init, n.config, n.logs, k, k');
  }

  /** From a new node on, the configuration is the initial one changed by every change in the log. */
  lemma {:induction false} ConfigFollowsLog(
      init: set<ServerID>, digest: Digest, n: Node, id: ServerID, k: nat, steps: seq<LogStep>)
    requires Tracks(init, n.config, n.logs, k) && AllAllowed(digest, n, id, k, steps)
    ensures var n' := RunSteps(digest, n, id, steps); n'.config.serverConfig == Folded(init, n'.logs)
    decreases |steps|
  {
    if steps != [] {
      StepTracks(init, digest, n, id, k, steps[0]);
      ConfigFollowsLog(init, digest, Stepped(digest, n, id, steps[0]), id, Closed(k, steps[0]), steps[1..]);
    }
  }

  lemma NewNodeTracks(id: ServerID, peers: set<ServerID>)
    ensures var n := NewNode(id, peers); Tracks({id} + peers, n.config, n.logs, 0)
  {
  }

  // ---- where it stops following ----

  /** With a full array the change takes effect without an entry, unless it changes nothing. */
  lemma FullArrayTracksIff(init: set<ServerID>, digest: Digest, n: Node, k: nat, id: ServerID, cfg: ConfigChange)
    requires |n.logs| == |n.hashes| && Tracks(init, n.config, n.logs, k) && |n.logs| >= CAPACITY
    ensures var n' := AddConfigLog(digest, n, id, cfg);
            n'.logs == n.logs
            && (n'.config.serverConfig == Folded(init, n'.logs)
                <==> (cfg.add <==> cfg.server in n.config.serverConfig))
  {
  }

  /** A follower records the array position of a change, not its index: a later conflict at that
      entry undoes the change exactly when nothing has been compacted, or there was nothing to undo. */
  lemma RollbackIff(digest: Digest, n: Node, log: seq<RaftLog>, change: RaftLog, other: RaftLog)
    requires Rep(n, log) && |n.logs| < CAPACITY
    requires change.kind == LogConfiguration && change.index == |log|
    requires other.kind != LogConfiguration && other.index == |log| && other.term != change.term
    ensures var pos := |n.logs|;
            var n2 := MergeOne(digest, MergeOne(digest, n, pos, change), pos, other);
            n2.config.serverConfig == n.config.serverConfig
            <==> Base(n.lastSnapshot) == 0 || Changed(n.config.serverConfig, change) == n.config.serverConfig
  {
    var n1 := MergeOne(digest, n, |n.logs|, change);
    assert n1.logs == n.logs + [change];
  }

  lemma {:induction false} FoldedConcat(init: set<ServerID>, a: seq<RaftLog>, b: seq<RaftLog>)
    ensures Folded(init, a + b) == Folded(Folded(init, a), b)
    decreases |b|
  {
    if b == [] {
      assert a + b == a;
    } else {
      assert (a + b)[..|a + b| - 1] == a + b[..|b| - 1];
      FoldedConcat(init, a, b[..|b| - 1]);
    }
  }

  /** A snapshot records the servers of the whole log: they are those of the part it covers exactly
      when the changes past that part come to nothing. */
  lemma SnapshotServersIff(init: set<ServerID>, n: Node, log: seq<RaftLog>, k: nat, gameState: Bytes)
    requires Rep(n, log) && n.lastSnapshot == None && n.lastApplied >= 0 && Tracks(init, n.config, n.logs, k)
    ensures var snap := TakeSnapshot(n, gameState).0.lastSnapshot;
            var covered := Folded(init, n.logs[..n.lastApplied + 1]);
            && snap.Some?
            && (snap.value.serverConfig == covered <==> Folded(covered, n.logs[n.lastApplied + 1..]) == covered)
  {
    var cut := n.lastApplied + 1;
    SnapshotRecords(n, log, gameState);
    assert n.logs == n.logs[..cut] + n.logs[cut..];
    FoldedConcat(init, n.logs[..cut], n.logs[cut..]);
  }

  // ---- starting a change without leading: guard G8 ----

  /** A queued change is started whatever the role, exactly when one is queued and none in progress;
      with room in the array the node then adds an entry of its current term to its own log. */
  lemma StartsWithoutLeadingIff(digest: Digest, n: Node, log: seq<RaftLog>)
    requires Rep(n, log) && QueueOk(n.config) && |n.logs| < CAPACITY && n.role != Leader
    ensures var out := HandleNextConfigurationChange(digest, n);
            && (out.1.Some? <==> n.config.configQueue != [] && !n.config.inConfigChange)
            && (out.1.Some? ==>
                  Rep(out.0, log + [RaftLog(|log|, n.currentTerm, LogConfiguration, [], n.config.configQueue[0].msg, [], 0)]))
            && (out.1.None? ==> out.0 == n)
  {
    if n.config.configQueue != [] && !n.config.inConfigChange {
      StartedIsOwn(digest, n, log, Leading(n));
    }
  }

  /** Log matching is lost exactly when it happens at two nodes with different changes queued: from
      equal logs in one term they reach entries of equal index and term that differ. */
  lemma TwoStartsDivergeIff(digest: Digest, n: Node, m: Node, log: seq<RaftLog>)
    requires Rep(n, log) && Rep(m, log) && n.currentTerm == m.currentTerm
    requires QueueOk(n.config) && QueueOk(m.config) && |n.logs| < CAPACITY && |m.logs| < CAPACITY
    requires n.role != Leader && m.role != Leader && !n.config.inConfigChange && !m.config.inConfigChange
    requires n.config.configQueue != [] && m.config.configQueue != []
    ensures var a, b := HandleNextConfigurationChange(digest, n).0, HandleNextConfigurationChange(digest, m).0;
            && a.logs != [] && b.logs != []
            && SameIdTerm(a.logs[|a.logs| - 1], b.logs[|b.logs| - 1])
            && (a.logs[|a.logs| - 1] != b.logs[|b.logs| - 1] <==>
                  n.config.configQueue[0].msg != m.config.configQueue[0].msg)
  {
    StartsWithoutLeadingIff(digest, n, log);
    StartsWithoutLeadingIff(digest, m, log);
    NewestOf(HandleNextConfigurationChange(digest, n).0, log, n);
    NewestOf(HandleNextConfigurationChange(digest, m).0, log, m);
  }

  lemma NewestOf(a: Node, log: seq<RaftLog>, n: Node)
    requires n.config.configQueue != [] && Base(a.lastSnapshot) <= |log|
    requires var e := RaftLog(|log|, n.currentTerm, LogConfiguration, [], n.config.configQueue[0].msg, [], 0);
             Rep(a, log + [e])
    ensures a.logs != []
    ensures a.logs[|a.logs| - 1] == RaftLog(|log|, n.currentTerm, LogConfiguration, [], n.config.configQueue[0].msg, [], 0)
  {
  }

  // ---- neighbouring configurations ----

  /** Any majority before a change meets any majority after it. */
  lemma NeighboursMeet(servers: set<ServerID>, cfg: ConfigChange, a: set<ServerID>, b: set<ServerID>)
    requires C.IsMajority(a, servers)
    requires C.IsMajority(b, if cfg.add then servers + {cfg.server} else servers - {cfg.server})
    ensures a * b != {}
  {
    var all := servers + {cfg.server};
    assert |a + b| + |a * b| == |a| + |b|;
    if cfg.add {
      Q.SubsetSize(a + b, all);
      assert cfg.server in servers ==> all == servers;
    } else {
      Q.SubsetSize(a + b, servers);
      assert cfg.server in servers ==> |servers - {cfg.server}| == |servers| - 1;
      assert cfg.server !in servers ==> servers - {cfg.server} == servers;
    }
    assert |a * b| > 0;
  }

  // ---- what a started change is credited to ----

  /** With room, a started change becomes the leader's newest entry and is counted as held by the
      leader, and by nobody else. */
  lemma StartedIsOwn(digest: Digest, n: Node, log: seq<RaftLog>, id: ServerID)
    requires Rep(n, log) && QueueOk(n.config) && |n.logs| < CAPACITY
    requires n.config.configQueue != [] && !n.config.inConfigChange
    requires n.currentLeader == Some(id) || (n.currentLeader == None && id == ServerID([]))
    ensures var n' := HandleNextConfigurationChange(digest, n).0;
            && n'.matchIndex == n.matchIndex[id := |log|]
            && n'.nextIndex == n.nextIndex[id := |log| + 1]
            && n'.lastSentLogIndex == n.lastSentLogIndex[id := |log|]
            && Rep(n', log + [RaftLog(|log|, n.currentTerm, LogConfiguration, [], n.config.configQueue[0].msg, [], 0)])
            && n'.role == n.role && n'.currentLeader == n.currentLeader && n'.lastApplied == n.lastApplied
            && |n'.logs| == |n.logs| + 1 && n'.logs[..|n.logs|] == n.logs
            && n'.config.inConfigChange && n'.config.configQueue == n.config.configQueue[1..] && QueueOk(n'.config)
  {
    var msg := n.config.configQueue[0].msg;
    var entry := RaftLog(|log|, n.currentTerm, LogConfiguration, [], msg, [], 0);
    var n1 := n.(config := ApplyConfiguration(
      n.config.(inConfigChange := true, configQueue := n.config.configQueue[1..],
                pendingConfigs := n.config.pendingConfigs - 1), |log|, msg));
    LastOfFull(n, log);
    AppendFits(digest, n1, log, id, entry);
    assert HandleNextConfigurationChange(digest, n).0 == Append(digest, n1, id, entry);
  }

  /** Applying an entry releases the lock exactly when a leader applies a change, and does nothing else
      to the configuration. */
  lemma UnlocksIff(n: Node, log: seq<RaftLog>)
    requires Rep(n, log)
    ensures var n' := ApplyTurn(n).0;
            && n'.config == n.config.(inConfigChange := n'.config.inConfigChange)
            && (n'.config.inConfigChange <==>
                  && n.config.inConfigChange
                  && !(n.role == Leader && n.lastApplied < n.commitIndex && log[n.lastApplied + 1].kind == LogConfiguration))
  {
    ApplyRefines(n, log);
  }

  /** While a change is in progress nothing starts; a leader that applies it starts the oldest one
      waiting. */
  lemma AppliedLetsNextStart(digest: Digest, n: Node, log: seq<RaftLog>)
    requires Rep(n, log) && QueueOk(n.config) && n.config.inConfigChange
    requires n.role == Leader && n.lastApplied < n.commitIndex && log[n.lastApplied + 1].kind == LogConfiguration
    ensures HandleNextConfigurationChange(digest, n) == (n, None)
    ensures var n1 := ApplyTurn(n).0;
            && Rep(n1, log) && QueueOk(n1.config)
            && (n.config.configQueue == [] ==> HandleNextConfigurationChange(digest, n1).1 == None)
            && (n.config.configQueue != [] ==>
                  var out := HandleNextConfigurationChange(digest, n1);
                  && out.1 == Some(n.config.configQueue[0])
                  && out.0.config.configQueue == n.config.configQueue[1..] && out.0.config.inConfigChange)
  {
    ApplyRefines(n, log);
  }

  // ---- one change at a time, in order ----

  /** What can happen to a leader between taking office and losing it. */
  datatype LeaderOp =
    | Request(entry: ConfigEntry)
    | Next
    | Command(clientID: Bytes, seqNum: int, data: Bytes, gameState: Bytes)
    | Ask(to: ServerID)
    | Hear(resp: AppendEntriesResponse)
    | CommitMore
    | ApplyNext

  /** The node, what was asked of it and what it has started, in order. */
  datatype Office = Office(node: Node, asked: seq<ConfigEntry>, started: seq<ConfigEntry>)

  function Begun(o: Office, out: (Node, Option<ConfigEntry>)): Office {
    o.(node := out.0, started := if out.1.Some? then o.started + [out.1.value] else o.started)
  }

  predicate Fit(n: Node) {
    |n.logs| == |n.hashes| && QueueOk(n.config)
  }

  /** Only a leader takes commands, asks its peers and listens to them. */
  function Serve(digest: Digest, id: ServerID, o: Office, op: LeaderOp): Office
    requires Fit(o.node)
  {
    match op
    case Request(entry) =>
      var n := o.node.(config := Enqueue(o.node.config, entry));
      Begun(o.(asked := o.asked + [entry]), HandleNextConfigurationChange(digest, n))
    case Next => Begun(o, HandleNextConfigurationChange(digest, o.node))
    case Command(clientID, seqNum, data, gameState) =>
      if o.node.role != Leader then o
      else o.(node := AddCommandLog(digest, o.node, id, clientID, seqNum, data, gameState).0)
    case Ask(to) => if o.node.role != Leader then o else o.(node := GetAppendEntriesArgs(o.node, to).0)
    case Hear(resp) => if o.node.role != Leader then o else o.(node := HandleAppendEntriesResponse(o.node, resp).0)
    case CommitMore => o.(node := CheckCommits(o.node))
    case ApplyNext => o.(node := ApplyTurn(o.node).0)
  }

  /** Requests go to peers and answers come from them. */
  predicate WithPeers(op: LeaderOp, id: ServerID, peers: set<ServerID>) {
    match op
    case Ask(to) => to in peers && to != id
    case Hear(resp) => resp.id in peers && resp.id != id
    case _ => true
  }

  predicate Unapplied(n: Node, i: int) {
    IsConfig(n.logs, i) && n.logs[i].index > n.lastApplied
  }

  ghost predicate InOrder(n: Node) {
    exists log :: Rep(n, log)
  }

  /** At most one change is unapplied, and while one is, no other starts. */
  ghost predicate OneAtATime(n: Node) {
    && (forall i, j :: Unapplied(n, i) && Unapplied(n, j) ==> i == j)
    && (forall i :: Unapplied(n, i) ==> n.config.inConfigChange)
  }

  /** Every request is started once, in the order of asking, or still waits in that order. */
  ghost predicate InTurn(o: Office) {
    o.started + o.node.config.configQueue == o.asked
  }

  /** A leader counts its own entries as its own, and nobody but itself and its peers as holders. */
  predicate Seated(n: Node, id: ServerID, peers: set<ServerID>) {
    && n.currentLeader == Some(id)
    && id in n.matchIndex && n.matchIndex[id] == LastIdx(n)
    && id in n.nextIndex && n.nextIndex[id] == LastIdx(n) + 1
    && id in n.lastSentLogIndex && n.lastSentLogIndex[id] == LastIdx(n)
    && n.matchIndex.Keys <= {id} + peers
  }

  ghost predicate OfficeOk(o: Office, id: ServerID, peers: set<ServerID>) {
    && Fit(o.node) && InOrder(o.node) && OneAtATime(o.node) && InTurn(o)
    && (o.node.role == Leader ==> Seated(o.node, id, peers))
  }

  lemma StartOk(digest: Digest, o: Office, id: ServerID, peers: set<ServerID>)
    requires OfficeOk(o, id, peers)
    ensures OfficeOk(Begun(o, HandleNextConfigurationChange(digest, o.node)), id, peers)
  {
    var n, out := o.node, HandleNextConfigurationChange(digest, o.node);
    if out.1.Some? {
      var log :| Rep(n, log);
      var entry := n.config.configQueue[0];
      ChangeOk(digest, n, log, entry);
      ChangeSeated(digest, n, log, id, peers);
      assert o.started + [entry] + n.config.configQueue[1..] == o.started + n.config.configQueue;
    }
  }

  lemma ChangeSeated(digest: Digest, n: Node, log: seq<RaftLog>, id: ServerID, peers: set<ServerID>)
    requires Rep(n, log) && QueueOk(n.config) && n.config.configQueue != [] && !n.config.inConfigChange
    requires n.role == Leader ==> Seated(n, id, peers)
    ensures var n' := HandleNextConfigurationChange(digest, n).0; n'.role == Leader ==> Seated(n', id, peers)
  {
    if n.role == Leader && |n.logs| < CAPACITY {
      StartedIsOwn(digest, n, log, id);
    }
  }

  lemma ChangeOk(digest: Digest, n: Node, log: seq<RaftLog>, entry: ConfigEntry)
    requires Rep(n, log) && Fit(n) && OneAtATime(n) && !n.config.inConfigChange
    requires n.config.configQueue != [] && entry == n.config.configQueue[0]
    ensures var n' := HandleNextConfigurationChange(digest, n).0;
            && Fit(n') && InOrder(n') && OneAtATime(n') && n'.config.configQueue == n.config.configQueue[1..]
  {
    var e := RaftLog(|log|, n.currentTerm, LogConfiguration, [], entry.msg, [], 0);
    if |n.logs| < CAPACITY {
      StartedIsOwn(digest, n, log, Leading(n));
      OneOpened(n, HandleNextConfigurationChange(digest, n).0, log, log + [e]);
    } else {
      var n1 := n.(config := n.config.(inConfigChange := true, configQueue := n.config.configQueue[1..],
                                       pendingConfigs := n.config.pendingConfigs - 1));
      var n2 := n1.(config := ApplyConfiguration(n1.config, LastIdx(n) + 1, entry.msg));
      assert HandleNextConfigurationChange(digest, n).0 == n2 && Rep(n2, log);
      forall i ensures Unapplied(n2, i) ==> Unapplied(n, i) {
      }
    }
  }

  lemma OneOpened(n: Node, n': Node, log: seq<RaftLog>, log': seq<RaftLog>)
    requires Rep(n, log) && Rep(n', log') && OneAtATime(n) && !n.config.inConfigChange && n'.config.inConfigChange
    requires |n'.logs| == |n.logs| + 1 && n'.logs[..|n.logs|] == n.logs && n'.lastApplied == n.lastApplied
    ensures InOrder(n') && OneAtATime(n')
  {
    forall i | Unapplied(n', i) ensures i == |n.logs| {
      if i < |n.logs| {
        assert n'.logs[..|n.logs|][i] == n.logs[i];
        assert Unapplied(n, i);
      }
    }
  }

  lemma RequestOk(o: Office, id: ServerID, peers: set<ServerID>, entry: ConfigEntry)
    requires OfficeOk(o, id, peers)
    ensures var n := o.node.(config := Enqueue(o.node.config, entry));
            OfficeOk(o.(asked := o.asked + [entry], node := n), id, peers)
  {
    var n := o.node.(config := Enqueue(o.node.config, entry));
    var log :| Rep(o.node, log);
    assert Rep(n, log);
    assert o.started + (o.node.config.configQueue + [entry]) == o.asked + [entry];
    forall i | Unapplied(n, i) ensures Unapplied(o.node, i) {
    }
  }

  /** What is unapplied afterwards was unapplied before, at the same index. */
  ghost predicate NoMoreOpen(n: Node, n': Node) {
    forall i :: Unapplied(n', i) ==>
      exists j :: Unapplied(n, j) && n'.logs[i].index == n.logs[j].index
  }

  lemma StillOne(n: Node, log: seq<RaftLog>, n': Node, log': seq<RaftLog>)
    requires Rep(n, log) && Rep(n', log') && OneAtATime(n) && NoMoreOpen(n, n')
    requires n'.config == n.config
    ensures OneAtATime(n')
  {
    forall i, j | Unapplied(n', i) && Unapplied(n', j) ensures i == j {
      var a :| Unapplied(n, a) && n'.logs[i].index == n.logs[a].index;
      var b :| Unapplied(n, b) && n'.logs[j].index == n.logs[b].index;
      assert a == b;
    }
  }

  lemma CommandOk(
      digest: Digest, id: ServerID, n: Node, log: seq<RaftLog>, clientID: Bytes, seqNum: int, data: Bytes,
      gameState: Bytes)
    requires Fit(n) && Rep(n, log) && OneAtATime(n)
    ensures var n' := AddCommandLog(digest, n, id, clientID, seqNum, data, gameState).0;
            Fit(n') && InOrder(n') && OneAtATime(n') && n'.config == n.config
  {
    var entry := CommandEntry(n, clientID, seqNum, data);
    var n' := AddCommandLog(digest, n, id, clientID, seqNum, data, gameState).0;
    SubmitRefines(digest, n, log, {}, id, clientID, seqNum, data, gameState);
    if !Stuck(n) {
      assert Rep(n', log + [entry]);
      forall i | Unapplied(n', i) ensures exists j :: Unapplied(n, j) && n'.logs[i].index == n.logs[j].index {
        OpenBefore(n, log, n', entry, i);
      }
      StillOne(n, log, n', log + [entry]);
    }
  }

  lemma CommandSeated(
      digest: Digest, id: ServerID, n: Node, log: seq<RaftLog>, peers: set<ServerID>, clientID: Bytes, seqNum: int,
      data: Bytes, gameState: Bytes)
    requires Rep(n, log) && Seated(n, id, peers)
    ensures Seated(AddCommandLog(digest, n, id, clientID, seqNum, data, gameState).0, id, peers)
  {
    var entry := CommandEntry(n, clientID, seqNum, data);
    var n1 := if |n.logs| >= CAPACITY then TakeSnapshot(n, gameState).0 else n;
    SnapshotRefines(n, log, gameState);
    if |n1.logs| < CAPACITY {
      AppendIs(digest, n1, id, entry);
    } else {
      LastOfFull(n, log);
      LastOfFull(n1, log);
    }
  }

  /** Asking and listening touch neither the log nor the configuration. */
  lemma TalkOk(n: Node, log: seq<RaftLog>, n': Node)
    requires Fit(n) && Rep(n, log) && OneAtATime(n)
    requires n'.logs == n.logs && n'.hashes == n.hashes && n'.lastSnapshot == n.lastSnapshot && n'.config == n.config
    requires n'.lastApplied == n.lastApplied && n'.commitIndex == n.commitIndex
    ensures Fit(n') && InOrder(n') && OneAtATime(n')
  {
    assert Rep(n', log);
    forall i | Unapplied(n', i) ensures Unapplied(n, i) {
    }
  }

  lemma AskSeated(n: Node, id: ServerID, peers: set<ServerID>, to: ServerID)
    requires to != id && (n.role == Leader ==> Seated(n, id, peers))
    ensures var n' := GetAppendEntriesArgs(n, to).0; n'.role == Leader ==> Seated(n', id, peers)
  {
  }

  lemma HearSeated(n: Node, id: ServerID, peers: set<ServerID>, resp: AppendEntriesResponse)
    requires resp.id in peers && resp.id != id && (n.role == Leader ==> Seated(n, id, peers))
    ensures var n' := HandleAppendEntriesResponse(n, resp).0; n'.role == Leader ==> Seated(n', id, peers)
  {
  }

  lemma OpenBefore(n: Node, log: seq<RaftLog>, n': Node, entry: RaftLog, i: int)
    requires Rep(n, log) && Rep(n', log + [entry]) && n'.lastApplied == n.lastApplied && Unapplied(n', i)
    requires entry.kind != LogConfiguration
    ensures exists j :: Unapplied(n, j) && n'.logs[i].index == n.logs[j].index
  {
    var idx := n'.logs[i].index;
    assert n'.logs[i] == (log + [entry])[Base(n'.lastSnapshot) + i];
    var j := idx - Base(n.lastSnapshot);
    assert 0 <= j < |n.logs| && n.logs[j] == log[idx];
    assert Unapplied(n, j);
  }

  lemma CommitOk(n: Node, log: seq<RaftLog>)
    requires Fit(n) && Rep(n, log) && OneAtATime(n)
    ensures var n' := CheckCommits(n); Fit(n') && InOrder(n') && OneAtATime(n') && n'.config == n.config
  {
    CommitIsOptimal(n, log);
    var n' := CheckCommits(n);
    assert Rep(n', log);
    forall i | Unapplied(n', i) ensures Unapplied(n, i) {
    }
  }

  lemma ApplyOk(n: Node, log: seq<RaftLog>)
    requires Fit(n) && Rep(n, log) && OneAtATime(n)
    ensures var n' := ApplyTurn(n).0;
            && Fit(n') && InOrder(n') && OneAtATime(n')
            && n' == n.(lastApplied := n'.lastApplied, config := n'.config)
            && n'.config.configQueue == n.config.configQueue
  {
    ApplyRefines(n, log);
    var out, n' := UpdateLastApplied(n), ApplyTurn(n).0;
    if out.1 >= 0 {
      assert Rep(n', log);
      forall i | Unapplied(n', i) ensures Unapplied(n, i) && i != out.1 {
      }
      if n.logs[out.1].kind == LogConfiguration {
        assert Unapplied(n, out.1);
      }
    }
  }

  lemma ServeOk(digest: Digest, id: ServerID, peers: set<ServerID>, o: Office, op: LeaderOp)
    requires OfficeOk(o, id, peers) && WithPeers(op, id, peers)
    ensures OfficeOk(Serve(digest, id, o, op), id, peers)
  {
    match op
    case Request(entry) =>
      RequestOk(o, id, peers, entry);
      StartOk(digest, o.(asked := o.asked + [entry], node := o.node.(config := Enqueue(o.node.config, entry))), id, peers);
    case Next => StartOk(digest, o, id, peers);
    case _ =>
      var log :| Rep(o.node, log);
      NodeServes(digest, id, peers, o, op, log);
  }

  /** What leaves the queue of changes alone. */
  lemma NodeServes(digest: Digest, id: ServerID, peers: set<ServerID>, o: Office, op: LeaderOp, log: seq<RaftLog>)
    requires OfficeOk(o, id, peers) && WithPeers(op, id, peers) && !op.Request? && !op.Next? && Rep(o.node, log)
    ensures OfficeOk(Serve(digest, id, o, op), id, peers)
  {
    match op
    case Command(clientID, seqNum, data, gameState) =>
      if o.node.role == Leader {
        CommandOk(digest, id, o.node, log, clientID, seqNum, data, gameState);
        CommandSeated(digest, id, o.node, log, peers, clientID, seqNum, data, gameState);
      }
    case Ask(to) =>
      RequestRefines(o.node, log, to);
      TalkOk(o.node, log, GetAppendEntriesArgs(o.node, to).0);
      AskSeated(o.node, id, peers, to);
    case Hear(resp) =>
      TalkOk(o.node, log, HandleAppendEntriesResponse(o.node, resp).0);
      HearSeated(o.node, id, peers, resp);
    case CommitMore => CommitOk(o.node, log);
    case ApplyNext => ApplyOk(o.node, log);
  }

  function ServeAll(digest: Digest, id: ServerID, o: Office, ops: seq<LeaderOp>): Office
    requires Fit(o.node)
    decreases |ops|
  {
    if ops == [] then o
    else
      var o1 := Serve(digest, id, o, ops[0]);
      if Fit(o1.node) then ServeAll(digest, id, o1, ops[1..]) else o1
  }

  /** A leader that takes office with no change unapplied never has two, starts what it is asked
      exactly once and in order, and counts every change it starts as its own, however commands,
      requests, answers, commits and applies fall in between. */
  lemma {:induction false} OneChangeAtATime(
      digest: Digest, id: ServerID, peers: set<ServerID>, o: Office, ops: seq<LeaderOp>)
    requires OfficeOk(o, id, peers) && forall op :: op in ops ==> WithPeers(op, id, peers)
    ensures OfficeOk(ServeAll(digest, id, o, ops), id, peers)
    decreases |ops|
  {
    if ops != [] {
      ServeOk(digest, id, peers, o, ops[0]);
      OneChangeAtATime(digest, id, peers, Serve(digest, id, o, ops[0]), ops[1..]);
    }
  }

  // ---- a lock that nothing opens ----

  /** A change is in progress as far as the lock goes, but none is left to apply. */
  ghost predicate StaleLock(n: Node) {
    n.config.inConfigChange && forall i :: !Unapplied(n, i)
  }

  /** A node that is no leader when it applies the change it had started ends up so. */
  lemma AppliedWithoutLeading(n: Node, log: seq<RaftLog>)
    requires Rep(n, log) && OneAtATime(n) && n.role != Leader && n.lastApplied < n.commitIndex
    requires log[n.lastApplied + 1].kind == LogConfiguration
    ensures n.config.inConfigChange && StaleLock(ApplyTurn(n).0)
  {
    ApplyRefines(n, log);
    var at, n' := UpdateLastApplied(n).1, ApplyTurn(n).0;
    assert Unapplied(n, at);
    forall i ensures !Unapplied(n', i) {
      assert Unapplied(n', i) ==> Unapplied(n, i) && i != at;
    }
  }

  /** So does one that starts a change exactly when its array is full. */
  lemma StartLeavesStaleLockIff(digest: Digest, n: Node, log: seq<RaftLog>)
    requires Rep(n, log) && QueueOk(n.config) && n.config.configQueue != [] && !n.config.inConfigChange
    requires forall i :: !Unapplied(n, i)
    ensures StaleLock(HandleNextConfigurationChange(digest, n).0) <==> |n.logs| >= CAPACITY
  {
    var n' := HandleNextConfigurationChange(digest, n).0;
    if |n.logs| < CAPACITY {
      StartedIsOwn(digest, n, log, Leading(n));
      var e := RaftLog(|log|, n.currentTerm, LogConfiguration, [], n.config.configQueue[0].msg, [], 0);
      NewestIs(n', log, e);
      assert Unapplied(n', |n.logs|);
    } else {
      forall i ensures !Unapplied(n', i) {
        assert Unapplied(n', i) ==> Unapplied(n, i);
      }
    }
  }

  lemma NewestIs(n: Node, log: seq<RaftLog>, e: RaftLog)
    requires Rep(n, log + [e]) && Base(n.lastSnapshot) <= |log|
    ensures n.logs != [] && n.logs[|n.logs| - 1] == e
  {
  }

  lemma CommandStaysLocked(
      digest: Digest, id: ServerID, n: Node, log: seq<RaftLog>, clientID: Bytes, seqNum: int, data: Bytes,
      gameState: Bytes)
    requires Rep(n, log) && StaleLock(n)
    ensures StaleLock(AddCommandLog(digest, n, id, clientID, seqNum, data, gameState).0)
  {
    var entry := CommandEntry(n, clientID, seqNum, data);
    var n' := AddCommandLog(digest, n, id, clientID, seqNum, data, gameState).0;
    SubmitRefines(digest, n, log, {}, id, clientID, seqNum, data, gameState);
    if !Stuck(n) {
      forall i ensures !Unapplied(n', i) {
        if Unapplied(n', i) {
          OpenBefore(n, log, n', entry, i);
        }
      }
    }
  }

  /** The same entries, or fewer of them unapplied. */
  lemma StillLocked(n: Node, n': Node)
    requires StaleLock(n) && n'.logs == n.logs && n'.lastApplied >= n.lastApplied && n'.config.inConfigChange
    ensures StaleLock(n')
  {
    forall i ensures !Unapplied(n', i) {
      assert Unapplied(n', i) ==> Unapplied(n, i);
    }
  }

  lemma ApplyStaysLocked(n: Node, log: seq<RaftLog>)
    requires Rep(n, log) && StaleLock(n)
    ensures StaleLock(ApplyTurn(n).0)
  {
    ApplyRefines(n, log);
    UnlocksIff(n, log);
    var at := UpdateLastApplied(n).1;
    if at >= 0 {
      assert !Unapplied(n, at);
    }
    StillLocked(n, ApplyTurn(n).0);
  }

  lemma ServeStaysLocked(digest: Digest, id: ServerID, o: Office, op: LeaderOp)
    requires Fit(o.node) && InOrder(o.node) && StaleLock(o.node)
    ensures StaleLock(Serve(digest, id, o, op).node) && Serve(digest, id, o, op).started == o.started
  {
    var log :| Rep(o.node, log);
    match op
    case Command(clientID, seqNum, data, gameState) =>
      CommandStaysLocked(digest, id, o.node, log, clientID, seqNum, data, gameState);
    case CommitMore =>
      StillLocked(o.node, CheckCommits(o.node));
    case ApplyNext => ApplyStaysLocked(o.node, log);
    case _ => StillLocked(o.node, Serve(digest, id, o, op).node);
  }

  /** From there on no change ever starts, whatever is asked, committed and applied: the queue only grows. */
  lemma {:induction false} StaleLockBlocks(
      digest: Digest, id: ServerID, peers: set<ServerID>, o: Office, ops: seq<LeaderOp>)
    requires OfficeOk(o, id, peers) && StaleLock(o.node) && forall op :: op in ops ==> WithPeers(op, id, peers)
    ensures ServeAll(digest, id, o, ops).started == o.started && StaleLock(ServeAll(digest, id, o, ops).node)
    decreases |ops|
  {
    if ops != [] {
      ServeOk(digest, id, peers, o, ops[0]);
      ServeStaysLocked(digest, id, o, ops[0]);
      StaleLockBlocks(digest, id, peers, Serve(digest, id, o, ops[0]), ops[1..]);
    }
  }

  // ---- taking office ----

  /** Whoever wins an election counts its log as its own exactly when its no-op found room. */
  lemma WinnerSeatedIff(digest: Digest, n: Node, log: seq<RaftLog>, id: ServerID, peers: set<ServerID>)
    requires Rep(n, log) && n.matchIndex.Keys <= {id} + peers
    ensures WinElection(digest, n, id).role == Leader
    ensures Seated(WinElection(digest, n, id), id, peers) <==> |n.logs| < CAPACITY
    ensures |n.logs| >= CAPACITY ==>
              && WinElection(digest, n, id).matchIndex == n.matchIndex[id := -1]
              && WinElection(digest, n, id).lastSentLogIndex == n.lastSentLogIndex[id := -1]
              && WinElection(digest, n, id).logs == n.logs
  {
    var n1 := TakeOffice(n, id);
    var noop := RaftLog(LastIdx(n) + 1, n.currentTerm, LogNoop, [], NO_CHANGE, [], 0);
    LastOfFull(n, log);
    if |n.logs| < CAPACITY {
      AppendIs(digest, n1, id, noop);
    }
  }

  /** A winner with room, without unapplied changes and with an empty queue may begin such a tenure. */
  lemma TakesOffice(digest: Digest, n: Node, log: seq<RaftLog>, id: ServerID, peers: set<ServerID>)
    requires Rep(n, log) && n.matchIndex.Keys <= {id} + peers && |n.logs| < CAPACITY
    requires n.config.configQueue == [] && n.config.pendingConfigs == 0
    requires forall i :: !Unapplied(n, i)
    ensures OfficeOk(Office(WinElection(digest, n, id), [], []), id, peers)
  {
    var n1 := TakeOffice(n, id);
    var noop := RaftLog(|log|, n.currentTerm, LogNoop, [], NO_CHANGE, [], 0);
    var n' := WinElection(digest, n, id);
    WinnerSeatedIff(digest, n, log, id, peers);
    LastOfFull(n, log);
    AppendFits(digest, n1, log, id, noop);
    AppendIs(digest, n1, id, noop);
    NothingOpened(n, n', noop);
    Clear(n', log + [noop]);
  }

  lemma NothingOpened(n: Node, n': Node, e: RaftLog)
    requires n'.logs == n.logs + [e] && n'.lastApplied == n.lastApplied && e.kind != LogConfiguration
    requires forall i :: !Unapplied(n, i)
    ensures forall i :: !Unapplied(n', i)
  {
    forall i ensures !Unapplied(n', i) {
      assert !Unapplied(n, i);
    }
  }

  lemma Clear(n: Node, log: seq<RaftLog>)
    requires Rep(n, log) && forall i :: !Unapplied(n, i)
    ensures InOrder(n) && OneAtATime(n)
  {
  }
}
