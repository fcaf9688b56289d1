/** When guard G11 matters: in a run, the commit scan of a leader that an append request has just
    deposed moves nothing, as long as a majority holds an entry of the leader's own term, and
    always, if every victory found room for its no-op. */
module DeposedScan {
  import opened Types
  import opened Agreement
  import opened Replica
  import opened Guards
  import opened Application
  import opened ArrayCluster
  import opened Refinement
  import opened MergeRefinement
  import opened HandlerRefinement
  import opened Simulation
  import opened LogSimulation
  import opened ArrayInvariant
  import opened ArraySafety
  import D = Deposition
  import R = DeposedRun
  import F = Safety
  import I = Invariant
  import C = Cluster

  /** An append request of a newer term is on its way to a leader. */
  predicate Deposing<S>(w: World<S>, m: C.AppendReq) {
    && m in w.net.appends && m.to in w.peers
    && w.peers[m.to].node.role == Leader && m.args.term > w.peers[m.to].node.currentTerm
  }

  /** By its match indices, or because it was committed and compacted, a majority holds an entry of
      the leader's own term. */
  predicate HoldsOwn(servers: set<ServerID>, n: Node) {
    || (n.lastSnapshot.Some? && n.lastSnapshot.value.lastIncludedTerm == n.currentTerm)
    || exists j :: 0 <= j < |n.logs| && OwnAt(servers, n, j)
  }

  predicate OwnAt(servers: set<ServerID>, n: Node, j: nat)
    requires j < |n.logs|
  {
    n.logs[j].term == n.currentTerm && |HoldersOf(n.matchIndex, n.logs[j].index)| > |servers| / 2
  }

  lemma OwnHeldBelow(s: C.State, n: Node, log: seq<RaftLog>, voters: set<ServerID>)
    requires Rep(n, log) && HoldsOwn(s.servers, n)
    ensures D.OwnInReach(s, Abs(n, log, voters))
  {
    var a := Abs(n, log, voters);
    if n.lastSnapshot.Some? && n.lastSnapshot.value.lastIncludedTerm == n.currentTerm {
      assert D.OwnHeld(s, a, Base(n.lastSnapshot) - 1);
    } else {
      var j :| 0 <= j < |n.logs| && OwnAt(s.servers, n, j);
      EntryIn(n, log, j);
      assert HoldersOf(n.matchIndex, n.logs[j].index) == C.Replicated(a, n.logs[j].index);
      assert D.OwnHeld(s, a, n.logs[j].index);
    }
  }

  /** The leader once the request was handled. */
  lemma OvertakenPeer<S>(env: Setting<S>, servers: set<ServerID>, p: Peer<S>, x: ServerID, args: AppendEntriesArgs)
      returns (log': seq<RaftLog>)
    requires PeerOk(env.app, servers, p) && StaticRequest(args) && args.term > p.node.currentTerm
    ensures log' == D.Overtaken(AbsPeer(p), args, ArrayFull(p.node, args)).log
    ensures var n' := AppendPeer(env, p, x, args).node;
            && Fits(n', log') && n'.currentTerm == args.term && n'.matchIndex == p.node.matchIndex
            && n'.config.serverConfig == servers
  {
    AppendMoves(env, servers, p, x, args);
    log' := D.Overtaken(AbsPeer(p), args, ArrayFull(p.node, args)).log;
    assert AbsPeer(AppendPeer(env, p, x, args)).log == log';
  }

  /** The leader and the request as the invariant has them. */
  lemma DeposingOf<S>(env: Setting<S>, w: World<S>, h: C.History, m: C.AppendReq)
    requires WorldOk(env, w, h) && Deposing(w, m)
    ensures var s, p := AbsState(w, h), w.peers[m.to];
            && I.Inv(s) && D.Leads(s, m.to) && m in s.net.appends && s.servers == w.servers
            && PeerOk(env.app, w.servers, p) && s.nodes[m.to] == AbsPeer(p) && StaticRequest(m.args)
            && m.to in w.servers
  {
    LeaderInSync(env, w, h, m.to);
    ActorReady(env, w, h, m.to);
    CargoReady(env, w, h, AppendRequest(m));
    ImageOf(w, h, m.to);
    SavedImage(w.peers[m.to]);
  }

  lemma LeaderInSync<S>(env: Setting<S>, w: World<S>, h: C.History, x: ServerID)
    requires WorldOk(env, w, h) && x in w.peers && w.peers[x].node.role == Leader
    ensures InSync(w, x)
  {
  }

  lemma StepPeer<S>(env: Setting<S>, w: World<S>, m: C.AppendReq)
    requires Deposing(w, m) && Present(w, m.to)
    ensures var w' := Step(env, w, AppendRequest(m));
            m.to in w'.peers && w'.peers[m.to] == AppendPeer(env, w.peers[m.to], m.to, m.args)
  {
  }

  lemma StepFine<S(!new)>(env: Setting<S>, w: World<S>, h: C.History, a: Action, x: ServerID)
    requires WorldOk(env, w, h) && Faithful(env.app) && x in w.servers
    ensures var w' := Step(env, w, a); x in w'.peers && Rep(w'.peers[x].node, w'.peers[x].log)
  {
    StepOk(env, w, h, a);
    F.ExecuteServers(AbsState(w, h), Lower(env, w, a));
    FineAt(env, Step(env, w, a), C.Execute(AbsState(w, h), Lower(env, w, a)).h, x);
  }

  lemma FineAt<S>(env: Setting<S>, w: World<S>, h: C.History, x: ServerID)
    requires WorldOk(env, w, h) && x in w.servers
    ensures x in w.peers && Rep(w.peers[x].node, w.peers[x].log)
  {
  }

  /** Wherever a majority reached, the leader's log agrees with that of the term. */
  ghost predicate ReachAgrees(s: C.State, n: C.Server, t: int) {
    t in s.h.logs && forall i :: i >= 0 && D.Reached(s, n, i) ==> Agree(n.log, s.h.logs[t], i + 1)
  }

  lemma NothingCommittable(s: C.State, n: Node, log: seq<RaftLog>, voters: set<ServerID>, m: C.AppendReq, full: bool, n': Node)
    requires I.Inv(s) && D.Leads(s, m.to) && m in s.net.appends && s.nodes[m.to] == Abs(n, log, voters)
    requires m.args.term > n.currentTerm && ReachAgrees(s, Abs(n, log, voters), m.args.term)
    requires n'.currentTerm == m.args.term && n'.matchIndex == n.matchIndex && n'.config.serverConfig == s.servers
    ensures forall i :: !Committable(n', D.Overtaken(Abs(n, log, voters), m.args, full).log, i)
  {
    var log' := D.Overtaken(Abs(n, log, voters), m.args, full).log;
    forall i ensures !Committable(n', log', i) {
      if Committable(n', log', i) {
        ReachedBy(s, n, log, voters, n', log', i);
        D.OldEntryStays(s, m.to, m, full, i);
      }
    }
  }

  lemma ReachedBy(s: C.State, n: Node, log: seq<RaftLog>, voters: set<ServerID>, n': Node, log': seq<RaftLog>, i: int)
    requires ReachAgrees(s, Abs(n, log, voters), n'.currentTerm)
    requires n'.matchIndex == n.matchIndex && n'.config.serverConfig == s.servers && Committable(n', log', i)
    ensures Agree(log, s.h.logs[n'.currentTerm], i + 1) && 0 <= i < |log'| && log'[i].term == n'.currentTerm
  {
    assert HoldersOf(n'.matchIndex, i) == C.Replicated(Abs(n, log, voters), i);
    assert D.Reached(s, Abs(n, log, voters), i);
  }

  /** If wherever a majority reached the old log agrees with the new leader's, the scan finds nothing. */
  lemma QuietWhere<S(!new)>(env: Setting<S>, w: World<S>, h: C.History, m: C.AppendReq)
    requires WorldOk(env, w, h) && Deposing(w, m) && Faithful(env.app)
    requires ReachAgrees(AbsState(w, h), AbsPeer(w.peers[m.to]), m.args.term)
    ensures m.to in Step(env, w, AppendRequest(m)).peers
    ensures var n' := Step(env, w, AppendRequest(m)).peers[m.to].node; CheckCommits(n') == n'
  {
    DeposingOf(env, w, h, m);
    StepFine(env, w, h, AppendRequest(m), m.to);
    QuietPeer(env, w, AbsState(w, h), m);
  }

  lemma QuietPeer<S>(env: Setting<S>, w: World<S>, s: C.State, m: C.AppendReq)
    requires Deposing(w, m) && PeerOk(env.app, w.servers, w.peers[m.to]) && StaticRequest(m.args)
    requires I.Inv(s) && D.Leads(s, m.to) && m in s.net.appends && s.nodes[m.to] == AbsPeer(w.peers[m.to])
    requires s.servers == w.servers && ReachAgrees(s, AbsPeer(w.peers[m.to]), m.args.term)
    requires var w' := Step(env, w, AppendRequest(m)); m.to in w'.peers && Rep(w'.peers[m.to].node, w'.peers[m.to].log)
    ensures var n' := Step(env, w, AppendRequest(m)).peers[m.to].node; CheckCommits(n') == n'
  {
    var p := w.peers[m.to];
    var log' := OvertakenPeer(env, w.servers, p, m.to, m.args);
    StepPeer(env, w, m);
    var n' := AppendPeer(env, p, m.to, m.args).node;
    NothingCommittable(s, p.node, p.log, p.voters, m, ArrayFull(p.node, m.args), n');
    CommitIsOptimal(n', log');
  }

  lemma TermOnRecord<S(!new)>(env: Setting<S>, w: World<S>, h: C.History, m: C.AppendReq)
    requires WorldOk(env, w, h) && Deposing(w, m)
    ensures m.args.term in h.logs
  {
    RequestOf(AbsState(w, h), m);
  }

  /** In every run: a leader whose own entries have reached a majority, once deposed by an append
      request, finds nothing to commit, whatever its old match indices say. */
  lemma QuietWhenOwnHeld<S(!new)>(env: Setting<S>, servers: set<ServerID>, actions: seq<Action>, m: C.AppendReq)
    requires Faithful(env.app)
    ensures var w := Run(env, Boot(env, servers), actions);
            Deposing(w, m) && HoldsOwn(servers, w.peers[m.to].node) ==>
              && m.to in Step(env, w, AppendRequest(m)).peers
              && var n' := Step(env, w, AppendRequest(m)).peers[m.to].node; CheckCommits(n') == n'
  {
    var w, _, h, _, _, _ := Moments(env, servers, actions, []);
    if Deposing(w, m) && HoldsOwn(servers, w.peers[m.to].node) {
      var s, p := AbsState(w, h), w.peers[m.to];
      TermOnRecord(env, w, h, m);
      DeposingOf(env, w, h, m);
      OwnHeldBelow(s, p.node, p.log, p.voters);
      forall i | i >= 0 && D.Reached(s, AbsPeer(p), i) ensures Agree(p.log, s.h.logs[m.args.term], i + 1) {
        D.ReachedAgrees(s, m.to, m.args.term, i);
      }
      QuietWhere(env, w, h, m);
    }
  }

  // ---- room for every no-op ----

  /** The action wins an election. */
  predicate Elects<S>(w: World<S>, a: Action) {
    && Enabled(w, a)
    && ((a.Timeout? && Alone(w, a.x)) || (a.VoteReply? && Wins(w.peers[a.vr.to].node, a.vr.resp)))
  }

  /** If it does, the array has room for the no-op. */
  predicate FindsRoom<S>(w: World<S>, a: Action) {
    Elects(w, a) ==> Actor(a) in w.peers && Room(w.peers[Actor(a)].node)
  }

  predicate AllFindRoom<S>(env: Setting<S>, w: World<S>, actions: seq<Action>)
    decreases |actions|
  {
    actions == [] || (FindsRoom(w, actions[0]) && AllFindRoom(env, Step(env, w, actions[0]), actions[1..]))
  }

  lemma LowerRoomy<S>(env: Setting<S>, w: World<S>, a: Action)
    requires FindsRoom(w, a)
    ensures forall e :: e in Lower(env, w, a) ==> D.Roomy(e)
  {
    if Enabled(w, a) {
      InSyncRoomy(env, w, a);
      if Saves(a) && Actor(a) in w.peers && Enabled(Sync(w, Actor(a)), a) {
        InSyncRoomy(env, Sync(w, Actor(a)), a);
      }
    }
  }

  lemma InSyncRoomy<S>(env: Setting<S>, w: World<S>, a: Action)
    requires FindsRoom(w, a)
    ensures forall e :: e in LowerInSync(env, w, a) ==> D.Roomy(e)
  {
  }

  lemma {:induction false} LoweredRoomy<S>(env: Setting<S>, w: World<S>, actions: seq<Action>)
    requires AllFindRoom(env, w, actions)
    ensures forall e :: e in Lowered(env, w, actions) ==> D.Roomy(e)
    decreases |actions|
  {
    if actions != [] {
      LowerRoomy(env, w, actions[0]);
      LoweredRoomy(env, Step(env, w, actions[0]), actions[1..]);
    }
  }

  /** In every run in which no election is won with a full array, the scan of a deposed leader finds
      nothing to commit: guard G11 matters only after a no-op was dropped. */
  lemma QuietWithRoom<S(!new)>(env: Setting<S>, servers: set<ServerID>, actions: seq<Action>, m: C.AppendReq)
    requires Faithful(env.app) && AllFindRoom(env, Boot(env, servers), actions)
    ensures var w := Run(env, Boot(env, servers), actions);
            Deposing(w, m) ==>
              && m.to in Step(env, w, AppendRequest(m)).peers
              && var n' := Step(env, w, AppendRequest(m)).peers[m.to].node; CheckCommits(n') == n'
  {
    var w, h := RoomyRun(env, servers, actions);
    if Deposing(w, m) {
      var s, p := AbsState(w, h), w.peers[m.to];
      TermOnRecord(env, w, h, m);
      DeposingOf(env, w, h, m);
      assert D.NodeFirm(s.h, s.nodes[m.to]);
      forall i | i >= 0 && D.Reached(s, AbsPeer(p), i) ensures Agree(p.log, s.h.logs[m.args.term], i + 1) {
        D.FirmReachAgrees(s, m.to, m.args.term, i);
      }
      QuietWhere(env, w, h, m);
    }
  }

  lemma RoomyRun<S(!new)>(env: Setting<S>, servers: set<ServerID>, actions: seq<Action>)
      returns (w: World<S>, h: C.History)
    requires Faithful(env.app) && AllFindRoom(env, Boot(env, servers), actions)
    ensures w == Run(env, Boot(env, servers), actions) && WorldOk(env, w, h) && D.AllFirm(AbsState(w, h))
  {
    var s0, events := C.Start(servers), Lowered(env, Boot(env, servers), actions);
    BootOk(env, servers);
    RunSimulates(env, Boot(env, servers), s0.h, actions);
    LoweredRoomy(env, Boot(env, servers), actions);
    I.StartInv(servers);
    D.ExecuteFirm(s0, events);
    w, h := Run(env, Boot(env, servers), actions), C.Execute(s0, events).h;
  }

  // ---- and where it does matter ----

  /** The array form of the leader that `DeposedRun` leads to. */
  ghost predicate StandsFor(n: Node, f: R.Five) {
    && Rep(n, R.Deposable(f).log) && n.lastSnapshot == None && NoConfig(n.logs)
    && Abs(n, R.Deposable(f).log, R.Deposable(f).voters) == R.Deposable(f)
    && n.config.serverConfig == n.config.oldServerConfig == R.Members(f)
  }

  /** Acknowledged entries all of an earlier term, an entry of its own term past the majority's reach:
      deposed by a conflicting request the node holds the new leader's entry 1, as the only one
      beside that leader, and the scan commits it. */
  lemma DeposedLeaderCommits(f: R.Five, digest: Digest, n: Node, gameState: Bytes)
    requires R.Distinct(f) && StandsFor(n, f)
    ensures var out := GuardedAppend(digest, n, f.a, R.Overtaking(f).args, gameState);
            && out.1.success && out.0.role == Follower && out.0.commitIndex == -1 && out.0.logs == R.THEIRS
            && CheckCommits(out.0).commitIndex == 1
  {
    var args, log := R.Overtaking(f).args, R.Deposable(f).log;
    var n' := GuardedAppend(digest, n, f.a, args, gameState).0;
    EntriesStored(digest, n, log, f.a, args, gameState);
    ThreeReach(f);
    CommitIsOptimal(n', R.THEIRS);
    assert HoldersOf(n'.matchIndex, 1) == HoldersOf(R.Deposable(f).matchIndex, 1);
    assert Committable(n', R.THEIRS, 1);
  }

  lemma ThreeReach(f: R.Five)
    requires R.Distinct(f)
    ensures |HoldersOf(R.Deposable(f).matchIndex, 1)| > |R.Members(f)| / 2
  {
    R.FiveOf(f);
    assert HoldersOf(R.Deposable(f).matchIndex, 1) == {f.a} + {f.b} + {f.c};
  }

  /** A request for the whole log that conflicts in its first entry replaces everything. */
  lemma EntriesStored(
      digest: Digest, n: Node, log: seq<RaftLog>, id: ServerID, args: AppendEntriesArgs, gameState: Bytes)
    requires Rep(n, log) && GoodRequest(args) && n.lastSnapshot == None && Settled(n) && n.currentTerm < args.term
    requires NoConfig(n.logs) && NoConfig(args.entries)
    requires args.prevLogIndex == -1 && args.leaderCommit <= n.commitIndex && |args.entries| < CAPACITY
    requires log != [] && args.entries != [] && args.entries[0].term != log[0].term
    ensures var out := GuardedAppend(digest, n, id, args, gameState);
            && out.1.success && out.0.logs == args.entries && Fits(out.0, args.entries) && out.0.lastSnapshot == None
            && out.0.role == Follower && out.0.currentTerm == args.term && out.0.commitIndex == n.commitIndex
            && out.0.matchIndex == n.matchIndex && out.0.config == n.config
  {
    AcceptRefines(digest, n, log, {}, id, args, gameState);
    AcceptKeepsConfig(digest, n, log, {}, id, args, gameState);
    assert log[..0] + args.entries == args.entries;
    var out := GuardedAppend(digest, n, id, args, gameState).0;
    assert out.logs == args.entries;
  }

  /** The example is reached by a run over unbounded logs, in which one victory finds no room; three of
      the five servers, enough to elect a leader, hold no entry of the new leader. */
  lemma DeposedLeaderIsReached(f: R.Five, digest: Digest, n: Node, gameState: Bytes)
      returns (events: seq<C.Event>, s: C.State)
    requires R.Distinct(f) && StandsFor(n, f)
    ensures s == C.Execute(C.Start(R.Members(f)), events)
    ensures f.a in s.nodes && s.nodes[f.a] == Abs(n, R.Deposable(f).log, R.Deposable(f).voters)
    ensures R.Overtaking(f) in s.net.appends
    ensures CheckCommits(GuardedAppend(digest, n, f.a, R.Overtaking(f).args, gameState).0).commitIndex == 1
    ensures {f.b, f.c, f.d} <= s.nodes.Keys && C.IsMajority({f.b, f.c, f.d}, s.servers)
    ensures forall v :: v in {f.b, f.c, f.d} ==> forall e :: e in R.THEIRS ==> e !in s.nodes[v].log
  {
    events, s := R.ReachesDeposition(f);
    ScanCommits(f, digest, n, gameState);
    OthersElect(f);
  }

  lemma ScanCommits(f: R.Five, digest: Digest, n: Node, gameState: Bytes)
    requires R.Distinct(f) && StandsFor(n, f)
    ensures CheckCommits(GuardedAppend(digest, n, f.a, R.Overtaking(f).args, gameState).0).commitIndex == 1
  {
    DeposedLeaderCommits(f, digest, n, gameState);
  }

  lemma OthersElect(f: R.Five)
    requires R.Distinct(f)
    ensures C.IsMajority({f.b, f.c, f.d}, R.Members(f))
  {
    R.FiveOf(f);
    assert {f.b, f.c, f.d} == {f.b} + {f.c} + {f.d};
  }
}
