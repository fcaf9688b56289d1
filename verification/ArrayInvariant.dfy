/** Every action of the array cluster is matched by the cluster over unbounded logs and keeps the
    invariant of both. */
module ArrayInvariant {
  import opened Types
  import opened Agreement
  import opened Replica
  import opened Guards
  import opened Application
  import opened ArrayCluster
  import opened Refinement
  import opened MergeRefinement
  import opened HandlerRefinement
  import opened Simulation
  import opened ElectionSimulation
  import opened LogSimulation
  import opened SnapshotSimulation
  import I = Invariant
  import F = Safety
  import Q = QuietSteps
  import C = Cluster

  ghost predicate WorldOk<S>(env: Setting<S>, w: World<S>, h: C.History) {
    && w.peers.Keys == w.servers
    && I.Inv(AbsState(w, h))
    && PeersOk(env.app, w.servers, w.peers)
    && CargoOk(env.app, w.net)
  }

  // ---- what the invariant says of a message or a node, in the array's terms ----

  lemma RequestOf(s: C.State, m: C.AppendReq)
    requires I.Inv(s) && m in s.net.appends
    ensures m.args.term in s.h.logs && m.args.prevLogIndex >= -1
    ensures Contiguous(m.args.entries, m.args.prevLogIndex + 1)
  {
    assert I.AppendReqOk(s.h, m);
    SliceContiguous(s.servers, s.h, m.args);
  }

  lemma SliceContiguous(servers: set<ServerID>, h: C.History, args: AppendEntriesArgs)
    requires I.HistoryOk(servers, h) && args.term in h.logs && args.prevLogIndex >= -1
    requires IsSlice(args.entries, h.logs[args.term], args.prevLogIndex + 1)
    ensures Contiguous(args.entries, args.prevLogIndex + 1)
  {
    assert I.TermLogOk(h, args.term);
    var log := h.logs[args.term];
    forall i | 0 <= i < |args.entries| ensures args.entries[i].index == args.prevLogIndex + 1 + i {
      assert TracedAt(log, h.logs, args.prevLogIndex + 1 + i);
    }
  }

  lemma CargoOf(s: C.State, m: C.InstallReq)
    requires I.Inv(s) && m in s.net.installs
    ensures Describes(m.args, m.prefix)
  {
    assert I.InstallReqOk(s.h, m);
  }

  /** In term 0 a node has no entries and no vote, so recovery skips nothing. */
  lemma TermZeroIsBlank(s: C.State, x: ServerID)
    requires I.Inv(s) && x in s.nodes
    ensures s.nodes[x].term >= 0
    ensures s.nodes[x].term == 0 ==> s.nodes[x].votedFor == None && s.nodes[x].log == []
  {
    Q.NodeOf(s, x);
    if s.nodes[x].term == 0 {
      NoEntries(s.servers, s.h, s.nodes[x].log);
    }
  }

  lemma NoEntries(servers: set<ServerID>, h: C.History, log: seq<RaftLog>)
    requires I.HistoryOk(servers, h) && I.LogOk(h, 0, log)
    ensures log == []
  {
    if log != [] {
      assert TracedAt(log, h.logs, 0);
      TermPositive(servers, h, log[0].term);
    }
  }

  lemma TermPositive(servers: set<ServerID>, h: C.History, t: int)
    requires I.HistoryOk(servers, h) && t in h.logs
    ensures t > 0
  {
    assert I.TermLogOk(h, t);
  }

  /** What an action relies on. */
  ghost predicate Ready<S>(env: Setting<S>, w: World<S>, a: Action) {
    && Actor(a) in w.servers && Actor(a) in w.peers
    && PeerOk(env.app, w.servers, w.peers[Actor(a)])
    && (a.AppendRequest? ==> StaticRequest(a.ap.args))
    && (a.InstallRequest? ==> GoodCargo(env.app, a.ins))
    && (a.Crash? ==> Restorable(w.peers[a.x].node))
  }

  lemma ActorPresent<S>(w: World<S>, a: Action)
    requires Enabled(w, a)
    ensures Actor(a) in w.peers
    ensures a.AppendRequest? ==> a.ap in w.net.appends
    ensures a.InstallRequest? ==> a.ins in w.net.installs
  {
  }

  lemma ActorReady<S>(env: Setting<S>, w: World<S>, h: C.History, x: ServerID)
    requires WorldOk(env, w, h) && InSync(w, x)
    ensures x in w.servers && PeerOk(env.app, w.servers, w.peers[x]) && Restorable(w.peers[x].node)
  {
    ImageOf(w, h, x);
    SavedImage(w.peers[x]);
    assert Synced(w.peers[x]) == w.peers[x];
    TermZeroIsBlank(AbsState(w, h), x);
  }

  lemma CargoReady<S>(env: Setting<S>, w: World<S>, h: C.History, a: Action)
    requires WorldOk(env, w, h)
    ensures a.AppendRequest? && a.ap in w.net.appends ==> StaticRequest(a.ap.args)
    ensures a.InstallRequest? && a.ins in w.net.installs ==> GoodCargo(env.app, a.ins)
  {
    var s := AbsState(w, h);
    if a.AppendRequest? && a.ap in w.net.appends {
      RequestOf(s, a.ap);
    }
    if a.InstallRequest? && a.ins in w.net.installs {
      CargoOf(s, a.ins);
    }
  }

  lemma EnabledReady<S>(env: Setting<S>, w: World<S>, h: C.History, a: Action)
    requires WorldOk(env, w, h) && Enabled(w, a) && InSync(w, Actor(a))
    ensures Ready(env, w, a)
  {
    ActorPresent(w, a);
    ActorReady(env, w, h, Actor(a));
    CargoReady(env, w, h, a);
  }

  // ---- every action is matched ----

  ghost predicate Matched<S>(env: Setting<S>, w: World<S>, h: C.History, a: Action) {
    var s := C.Execute(AbsState(w, h), LowerInSync(env, w, a));
    AbsState(Step(env, w, a), s.h) == s
  }

  lemma TimeoutMatched<S>(env: Setting<S>, w: World<S>, h: C.History, x: ServerID)
    requires Ready(env, w, Timeout(x)) && Enabled(w, Timeout(x))
    ensures Matched(env, w, h, Timeout(x))
  {
    var s := AbsState(w, h);
    if Alone(w, x) {
      AloneSim(env, w, h, x);
      AloneExecutes(s, x, Room(w.peers[x].node));
    } else {
      TimeoutSim(env, w, h, x);
      ExecuteOne(s, C.Timeout(x));
    }
  }

  lemma VoteRequestMatched<S>(env: Setting<S>, w: World<S>, h: C.History, m: C.VoteReq)
    requires Ready(env, w, VoteRequest(m)) && Enabled(w, VoteRequest(m))
    ensures Matched(env, w, h, VoteRequest(m))
  {
    VoteSim(env.app, w, h, m);
    ExecuteOne(AbsState(w, h), C.DeliverVoteReq(m));
  }

  lemma VoteReplyMatched<S>(env: Setting<S>, w: World<S>, h: C.History, r: C.VoteRep)
    requires Ready(env, w, VoteReply(r)) && Enabled(w, VoteReply(r))
    ensures Matched(env, w, h, VoteReply(r))
  {
    var p, s := w.peers[r.to], AbsState(w, h);
    if p.node.role != Candidate {
      DrainSim(env, w, h, r, ReplyRoom(p.node, r.resp));
      CountExecutes(s, r, ReplyRoom(p.node, r.resp));
    } else if r.resp.term > p.node.currentTerm {
      DeposedSim(env, w, h, r);
      DeposedExecutes(s, r, ReplyRoom(p.node, r.resp));
    } else {
      ReplySim(env, w, h, r);
      CountExecutes(s, r, ReplyRoom(p.node, r.resp));
    }
  }

  lemma SubmitMatched<S>(
      env: Setting<S>, w: World<S>, h: C.History, x: ServerID, clientID: Bytes, seqNum: int, data: Bytes)
    requires Ready(env, w, Submit(x, clientID, seqNum, data)) && Enabled(w, Submit(x, clientID, seqNum, data))
    ensures Matched(env, w, h, Submit(x, clientID, seqNum, data))
  {
    var n, s := w.peers[x].node, AbsState(w, h);
    var add := C.ClientAppend(x, CommandEntry(n, clientID, seqNum, data));
    if Stuck(n) {
      StuckSim(env, w, x, clientID, seqNum, data);
    } else {
      SubmitSim(env, w, h, x, clientID, seqNum, data);
      SubmitExecutes(s, x, add.entry, !Room(n));
    }
  }

  lemma ShipMatched<S>(env: Setting<S>, w: World<S>, h: C.History, x: ServerID, to: ServerID)
    requires Leads(w, x) && PeerOk(env.app, w.servers, w.peers[x])
    ensures AbsState(DoShip(w, x, to), h) == C.Execute(AbsState(w, h), ShipEvents(w, x, to))
  {
    if w.peers[x].node.lastSnapshot.Some? {
      ShipSim(env.app, w, h, x, to);
    }
    ShipExecutes(AbsState(w, h), w, x, to);
  }

  lemma ReplicateMatched<S>(env: Setting<S>, w: World<S>, h: C.History, x: ServerID, to: ServerID)
    requires Ready(env, w, Replicate(x, to)) && Enabled(w, Replicate(x, to))
    ensures Matched(env, w, h, Replicate(x, to))
  {
    var out := GetAppendEntriesArgs(w.peers[x].node, to).1;
    if out == None {
      ShipMatched(env, w, h, x, to);
    } else {
      ReplicateSim(env, w, h, x, to);
      SendExecutes(AbsState(w, h), x, C.AppendReq(x, to, out.value));
    }
  }

  lemma ShipSnapshotMatched<S>(env: Setting<S>, w: World<S>, h: C.History, x: ServerID, to: ServerID)
    requires Ready(env, w, ShipSnapshot(x, to)) && Enabled(w, ShipSnapshot(x, to))
    ensures Matched(env, w, h, ShipSnapshot(x, to))
  {
    ShipMatched(env, w, h, x, to);
  }

  lemma AppendRequestMatched<S>(env: Setting<S>, w: World<S>, h: C.History, m: C.AppendReq)
    requires Ready(env, w, AppendRequest(m)) && Enabled(w, AppendRequest(m))
    ensures Matched(env, w, h, AppendRequest(m))
  {
    var p, s := w.peers[m.to], AbsState(w, h);
    var resp := GuardedAppend(env.digest, p.node, m.to, m.args, env.app.save(p.sm)).1;
    var rep := C.AppendRep(m.from, resp, C.Covers(m.args));
    var deliver := C.DeliverAppend(m, rep, ArrayFull(p.node, m.args));
    AppendSim(env, w, h, m, rep);
    DeliverExecutes(s, m, rep, deliver.full, Compacts(p.node, AbsPeer(p), m.args));
  }

  lemma AppendReplyMatched<S>(env: Setting<S>, w: World<S>, h: C.History, r: C.AppendRep)
    requires Ready(env, w, AppendReply(r)) && Enabled(w, AppendReply(r))
    ensures Matched(env, w, h, AppendReply(r))
  {
    var n, s := w.peers[r.to].node, AbsState(w, h);
    if Deposes(n, r.resp.success, r.resp.term) {
      AppendReplyDeposed(env.app, w, h, r);
      YieldExecutes(s, r.to, n.electionVotes);
    } else {
      AppendReplySim(env.app, w, h, r);
      CreditExecutes(s, r);
    }
  }

  lemma CommitMatched<S>(env: Setting<S>, w: World<S>, h: C.History, x: ServerID)
    requires Ready(env, w, Commit(x)) && Enabled(w, Commit(x))
    ensures Matched(env, w, h, Commit(x))
  {
    CommitSim(env.app, w, h, x);
    var c := CheckCommits(w.peers[x].node).commitIndex;
    if c > w.peers[x].node.commitIndex {
      AdvanceExecutes(AbsState(w, h), x, c);
    }
  }

  lemma ApplyMatched<S>(env: Setting<S>, w: World<S>, h: C.History, x: ServerID)
    requires Ready(env, w, ApplyOne(x)) && Enabled(w, ApplyOne(x))
    ensures Matched(env, w, h, ApplyOne(x))
  {
    ApplySim(env, w, h, x);
    if w.peers[x].node.lastApplied < w.peers[x].node.commitIndex {
      ApplyExecutes(AbsState(w, h), x);
    }
  }

  lemma InstallRequestMatched<S(!new)>(env: Setting<S>, w: World<S>, h: C.History, m: C.InstallReq)
    requires Ready(env, w, InstallRequest(m)) && Enabled(w, InstallRequest(m)) && Faithful(env.app)
    ensures Matched(env, w, h, InstallRequest(m))
  {
    var rep := C.InstallRep(m.from, InstallAnswer(w.peers[m.to].node, m.to, m.args));
    InstallSim(env, w, h, m, rep);
    InstallExecutes(AbsState(w, h), m, rep);
  }

  lemma InstallReplyMatched<S>(env: Setting<S>, w: World<S>, h: C.History, r: C.InstallRep)
    requires Ready(env, w, InstallReply(r)) && Enabled(w, InstallReply(r))
    ensures Matched(env, w, h, InstallReply(r))
  {
    var n, s := w.peers[r.to].node, AbsState(w, h);
    if Deposes(n, r.resp.success, r.resp.term) {
      InstallReplyDeposed(env.app, w, h, r);
      YieldExecutes(s, r.to, n.electionVotes);
    } else {
      InstallReplySim(env.app, w, h, r);
      InstalledExecutes(s, r);
    }
  }

  lemma CrashMatched<S(!new)>(env: Setting<S>, w: World<S>, h: C.History, x: ServerID)
    requires Ready(env, w, Crash(x)) && Enabled(w, Crash(x)) && Faithful(env.app)
    ensures Matched(env, w, h, Crash(x))
  {
    CrashSim(env, w, h, x);
    ExecuteOne(AbsState(w, h), C.Restart(x));
  }

  lemma StepMatched<S(!new)>(env: Setting<S>, w: World<S>, h: C.History, a: Action)
    requires Faithful(env.app) && (Enabled(w, a) ==> Ready(env, w, a))
    ensures Matched(env, w, h, a)
  {
    if Enabled(w, a) {
      match a
      case Timeout(x) => TimeoutMatched(env, w, h, x);
      case VoteRequest(vq) => VoteRequestMatched(env, w, h, vq);
      case VoteReply(vr) => VoteReplyMatched(env, w, h, vr);
      case Submit(x, clientID, seqNum, data) => SubmitMatched(env, w, h, x, clientID, seqNum, data);
      case Replicate(x, to) => ReplicateMatched(env, w, h, x, to);
      case ShipSnapshot(x, to) => ShipSnapshotMatched(env, w, h, x, to);
      case AppendRequest(ap) => AppendRequestMatched(env, w, h, ap);
      case AppendReply(apRep) => AppendReplyMatched(env, w, h, apRep);
      case Commit(x) => CommitMatched(env, w, h, x);
      case ApplyOne(x) => ApplyMatched(env, w, h, x);
      case InstallRequest(ins) => InstallRequestMatched(env, w, h, ins);
      case InstallReply(insRep) => InstallReplyMatched(env, w, h, insRep);
      case Crash(x) => CrashMatched(env, w, h, x);
    }
  }

  // ---- what an action leaves in order ----

  ghost predicate PeerStep<S>(app: App<S>, servers: set<ServerID>, p: Peer<S>, p': Peer<S>) {
    || p' == p
    || PeerOk(app, servers, p')
    || PeerFine(app, servers, p')
    || (Local(servers, p') && Steady(app, p, p'))
  }

  ghost predicate Touches<S>(app: App<S>, w: World<S>, w': World<S>, x: ServerID) {
    && w'.servers == w.servers
    && x in w.peers && x in w'.peers
    && w'.peers == w.peers[x := w'.peers[x]]
    && PeerStep(app, w.servers, w.peers[x], w'.peers[x])
  }

  lemma Untouched<S>(app: App<S>, w: World<S>, w': World<S>, x: ServerID)
    requires x in w.peers && w'.servers == w.servers && w'.peers == w.peers
    ensures Touches(app, w, w', x)
  {
    assert w.peers[x := w.peers[x]] == w.peers;
  }

  lemma VotesTouch<S>(env: Setting<S>, w: World<S>, a: Action)
    requires Enabled(w, a) && Ready(env, w, a) && (a.Timeout? || a.VoteRequest? || a.VoteReply?)
    ensures Touches(env.app, w, Step(env, w, a), Actor(a))
    ensures var net := Step(env, w, a).net; net.appends == w.net.appends && net.installs == w.net.installs
  {
    match a
    case Timeout(x) =>
      TimeoutMoves(env, w.servers, w.peers[x], x, Alone(w, x), StartElection(w.peers[x].node, x));
    case VoteRequest(vq) =>
      VoteMoves(env.app, w.servers, w.peers[vq.to], vq.to, vq.args);
    case VoteReply(vr) =>
      ReplyTouches(env, w, vr);
  }

  lemma ReplyTouches<S>(env: Setting<S>, w: World<S>, r: C.VoteRep)
    requires Present(w, r.to) && PeerOk(env.app, w.servers, w.peers[r.to])
    ensures Touches(env.app, w, DoVoteReply(env, w, r), r.to)
  {
    var p := w.peers[r.to];
    if p.node.role != Candidate {
      Untouched(env.app, w, DoVoteReply(env, w, r), r.to);
    } else if r.resp.term > p.node.currentTerm {
      ReplyDeposes(env, w.servers, p, r.to, r.resp);
    } else {
      ReplyMoves(env, w.servers, p, r.to, r.resp);
    }
  }

  lemma AppendReplyTouches<S>(env: Setting<S>, w: World<S>, r: C.AppendRep)
    requires Present(w, r.to) && PeerOk(env.app, w.servers, w.peers[r.to])
    ensures Touches(env.app, w, DoAppendReply(w, r), r.to)
  {
    var p := w.peers[r.to];
    if Deposes(p.node, r.resp.success, r.resp.term) {
      AppendReplyDeposes(env.app, w.servers, p, r);
    } else {
      AppendReplyMoves(env.app, w.servers, p, r);
    }
  }

  lemma InstallReplyTouches<S>(env: Setting<S>, w: World<S>, r: C.InstallRep)
    requires Present(w, r.to) && PeerOk(env.app, w.servers, w.peers[r.to])
    ensures Touches(env.app, w, DoInstallReply(w, r), r.to)
  {
    var p := w.peers[r.to];
    if Deposes(p.node, r.resp.success, r.resp.term) {
      InstallReplyDeposes(env.app, w.servers, p, r);
    } else {
      InstallReplyMoves(env.app, w.servers, p, r);
    }
  }

  lemma AppendTouches<S>(env: Setting<S>, w: World<S>, a: Action)
    requires Enabled(w, a) && Ready(env, w, a) && (a.AppendRequest? || a.AppendReply? || a.InstallReply?)
    ensures Touches(env.app, w, Step(env, w, a), Actor(a))
    ensures var net := Step(env, w, a).net; net.appends == w.net.appends && net.installs == w.net.installs
  {
    match a
    case AppendRequest(ap) => AppendMoves(env, w.servers, w.peers[ap.to], ap.to, ap.args);
    case AppendReply(apRep) => AppendReplyTouches(env, w, apRep);
    case InstallReply(insRep) => InstallReplyTouches(env, w, insRep);
  }

  lemma SubmitTouches<S>(env: Setting<S>, w: World<S>, x: ServerID, clientID: Bytes, seqNum: int, data: Bytes)
    requires Leads(w, x) && PeerOk(env.app, w.servers, w.peers[x])
    ensures var w' := DoSubmit(env, w, x, clientID, seqNum, data); Touches(env.app, w, w', x) && w'.net == w.net
  {
    if Stuck(w.peers[x].node) {
      StuckSim(env, w, x, clientID, seqNum, data);
      Untouched(env.app, w, w, x);
    } else {
      var p := w.peers[x];
      SubmitMoves(env, w.servers, p, x, clientID, seqNum, data);
      SubmitRefines(env.digest, p.node, p.log, p.voters, x, clientID, seqNum, data, env.app.save(p.sm));
    }
  }

  lemma LocalTouch<S>(env: Setting<S>, w: World<S>, a: Action)
    requires Enabled(w, a) && Ready(env, w, a) && (a.Submit? || a.Commit? || a.ApplyOne?)
    ensures Touches(env.app, w, Step(env, w, a), Actor(a))
    ensures Step(env, w, a).net == w.net
  {
    match a
    case Submit(x, clientID, seqNum, data) => SubmitTouches(env, w, x, clientID, seqNum, data);
    case Commit(x) =>
      CommitMoves(env.app, w.servers, w.peers[x], w.peers[x].(node := CheckCommits(w.peers[x].node)));
    case ApplyOne(x) =>
      ApplyRefines(w.peers[x].node, w.peers[x].log);
      if w.peers[x].node.lastApplied < w.peers[x].node.commitIndex {
        ApplyMoves(env, w.servers, w.peers[x], DoApplyOne(env, w, x).peers[x]);
      } else {
        Untouched(env.app, w, w, x);
      }
  }

  lemma SnapshotsTouch<S(!new)>(env: Setting<S>, w: World<S>, a: Action)
    requires Enabled(w, a) && Ready(env, w, a) && Faithful(env.app) && (a.InstallRequest? || a.Crash?)
    ensures Touches(env.app, w, Step(env, w, a), Actor(a))
    ensures var net := Step(env, w, a).net; net.appends == w.net.appends && net.installs == w.net.installs
  {
    match a
    case InstallRequest(ins) => InstallMoves(env, w.servers, w.peers[ins.to], ins);
    case Crash(x) => CrashMoves(env, w.servers, w.peers[x], x);
  }

  lemma ShipTouches<S>(env: Setting<S>, w: World<S>, h: C.History, x: ServerID, to: ServerID)
    requires Leads(w, x) && PeerOk(env.app, w.servers, w.peers[x]) && CargoOk(env.app, w.net)
    ensures var w' := DoShip(w, x, to); Touches(env.app, w, w', x) && CargoOk(env.app, w'.net)
  {
    Untouched(env.app, w, DoShip(w, x, to), x);
    if w.peers[x].node.lastSnapshot.Some? {
      ShipSim(env.app, w, h, x, to);
    }
  }

  lemma ReplicateTouches<S>(env: Setting<S>, w: World<S>, h: C.History, x: ServerID, to: ServerID)
    requires Leads(w, x) && PeerOk(env.app, w.servers, w.peers[x]) && CargoOk(env.app, w.net)
    ensures var w' := DoReplicate(w, x, to); Touches(env.app, w, w', x) && CargoOk(env.app, w'.net)
  {
    var p := w.peers[x];
    if GetAppendEntriesArgs(p.node, to).1 == None {
      ShipTouches(env, w, h, x, to);
    } else {
      ReplicateMoves(env.app, w.servers, p, p.(node := GetAppendEntriesArgs(p.node, to).0), to);
      RequestNoConfig(p.node, to);
    }
  }

  lemma StepTouches<S(!new)>(env: Setting<S>, w: World<S>, h: C.History, a: Action)
    requires Enabled(w, a) && Ready(env, w, a) && Faithful(env.app) && CargoOk(env.app, w.net)
    ensures var w' := Step(env, w, a); Touches(env.app, w, w', Actor(a)) && CargoOk(env.app, w'.net)
  {
    if a.Timeout? || a.VoteRequest? || a.VoteReply? {
      VotesTouch(env, w, a);
    } else if a.AppendRequest? || a.AppendReply? || a.InstallReply? {
      AppendTouches(env, w, a);
    } else if a.Submit? || a.Commit? || a.ApplyOne? {
      LocalTouch(env, w, a);
    } else if a.Replicate? {
      ReplicateTouches(env, w, h, a.x, a.to);
    } else if a.ShipSnapshot? {
      ShipTouches(env, w, h, a.x, a.to);
    } else {
      SnapshotsTouch(env, w, a);
    }
  }

  // ---- the invariant ----

  lemma Fine<S>(app: App<S>, servers: set<ServerID>, p: Peer<S>)
    requires PeerOk(app, servers, p)
    ensures PeerFine(app, servers, p)
  {
    assert Synced(p) == p;
  }

  /** A peer that kept its applied entries is in order once its image is. */
  lemma PeerAfter<S>(app: App<S>, servers: set<ServerID>, p: Peer<S>, p': Peer<S>, h: C.History, h': C.History)
    requires PeerOk(app, servers, p) && PeerStep(app, servers, p, p')
    requires I.HistoryOk(servers, h') && F.Later(h, h')
    requires ImageCommits(h, DiskImage(p)) && ImageCommits(h', DiskImage(p'))
    ensures PeerFine(app, servers, p')
  {
    if p' == p || PeerOk(app, servers, p') {
      Fine(app, servers, p');
    } else if !PeerFine(app, servers, p') {
      forall i | 0 <= i <= p.node.lastApplied ensures i < |p.log| && i < |p'.log| && p.log[i] == p'.log[i] {
        F.AppliedTogether(servers, h, h', DiskImage(p), DiskImage(p'), i);
      }
      SteadyState(app, p, p');
      Fine(app, servers, p');
    }
  }

  ghost predicate ImageCommits(h: C.History, n: C.Server) {
    I.CommitOk(h, n.term, n.log, n.base, n.applied, n.commit)
  }

  lemma CommitAt<S>(w: World<S>, h: C.History, x: ServerID)
    requires I.Inv(AbsState(w, h)) && x in w.peers
    ensures I.HistoryOk(w.servers, h) && ImageCommits(h, DiskImage(w.peers[x]))
  {
    ImageOf(w, h, x);
    Q.NodeOf(AbsState(w, h), x);
  }

  lemma PeersAfter<S>(app: App<S>, w: World<S>, w': World<S>, x: ServerID)
    requires PeersOk(app, w.servers, w.peers) && w.peers.Keys == w.servers
    requires Touches(app, w, w', x) && PeerFine(app, w.servers, w'.peers[x])
    ensures PeersOk(app, w'.servers, w'.peers) && w'.peers.Keys == w'.servers
  {
  }

  lemma WorldAfter<S>(env: Setting<S>, w: World<S>, h: C.History, w': World<S>, h': C.History, x: ServerID)
    requires WorldOk(env, w, h) && InSync(w, x) && Touches(env.app, w, w', x) && CargoOk(env.app, w'.net)
    requires I.Inv(AbsState(w', h')) && F.Later(h, h')
    ensures WorldOk(env, w', h')
  {
    CommitAt(w, h, x);
    CommitAt(w', h', x);
    ActorReady(env, w, h, x);
    PeerAfter(env.app, w.servers, w.peers[x], w'.peers[x], h, h');
    PeersAfter(env.app, w, w', x);
  }

  ghost predicate StepGood<S>(env: Setting<S>, w: World<S>, h: C.History, a: Action, events: seq<C.Event>) {
    var s := C.Execute(AbsState(w, h), events);
    AbsState(Step(env, w, a), s.h) == s && WorldOk(env, Step(env, w, a), s.h)
  }

  /** An action of a peer whose disk is up to date. */
  lemma InSyncStep<S(!new)>(env: Setting<S>, w: World<S>, h: C.History, a: Action)
    requires WorldOk(env, w, h) && Faithful(env.app) && Enabled(w, a) && InSync(w, Actor(a))
    ensures StepGood(env, w, h, a, LowerInSync(env, w, a))
  {
    EnabledReady(env, w, h, a);
    StepMatched(env, w, h, a);
    StepTouches(env, w, h, a);
    F.ExecuteInv(AbsState(w, h), LowerInSync(env, w, a));
    F.ExecuteLater(AbsState(w, h), LowerInSync(env, w, a));
    WorldAfter(env, w, h, Step(env, w, a), C.Execute(AbsState(w, h), LowerInSync(env, w, a)).h, Actor(a));
  }

  // ---- a peer that has learned a term it has not saved ----

  lemma UnsavedOf<S>(env: Setting<S>, w: World<S>, h: C.History, x: ServerID)
    requires WorldOk(env, w, h) && x in w.peers && !InSync(w, x)
    ensures Unsaved(w.peers[x]) && PeerFine(env.app, w.servers, w.peers[x])
  {
  }

  /** A world with the same messages to carry, all of whose peers are in order. */
  lemma OrderlyWorld<S>(env: Setting<S>, w: World<S>, w': World<S>, s: C.State)
    requires CargoOk(env.app, w.net) && w'.net.appends == w.net.appends && w'.net.installs == w.net.installs
    requires w'.peers.Keys == w'.servers && PeersOk(env.app, w'.servers, w'.peers)
    requires AbsState(w', s.h) == s && I.Inv(s)
    ensures WorldOk(env, w', s.h)
  {
  }

  lemma PartsOf<S>(env: Setting<S>, w: World<S>, h: C.History)
    requires WorldOk(env, w, h)
    ensures I.Inv(AbsState(w, h)) && w.peers.Keys == w.servers
    ensures PeersOk(env.app, w.servers, w.peers) && CargoOk(env.app, w.net)
  {
  }

  /** Saving makes the learned term known, and changes nothing else. */
  lemma SyncOk<S>(env: Setting<S>, w: World<S>, h: C.History, x: ServerID)
    requires WorldOk(env, w, h) && x in w.peers && Unsaved(w.peers[x])
    ensures var s, e, w1 := AbsState(w, h), C.Learn(x, w.peers[x].node.currentTerm), Sync(w, x);
            && C.Step(s, e).h == h && AbsState(w1, h) == C.Step(s, e)
            && WorldOk(env, w1, h) && InSync(w1, x)
  {
    PartsOf(env, w, h);
    SyncParts(env, w, h, x);
  }

  lemma SyncParts<S>(env: Setting<S>, w: World<S>, h: C.History, x: ServerID)
    requires I.Inv(AbsState(w, h)) && w.peers.Keys == w.servers
    requires PeersOk(env.app, w.servers, w.peers) && CargoOk(env.app, w.net)
    requires x in w.peers && Unsaved(w.peers[x])
    ensures var s, e, w1 := AbsState(w, h), C.Learn(x, w.peers[x].node.currentTerm), Sync(w, x);
            && C.Step(s, e).h == h && AbsState(w1, h) == C.Step(s, e)
            && WorldOk(env, w1, h) && InSync(w1, x)
  {
    var s, e := AbsState(w, h), C.Learn(x, w.peers[x].node.currentTerm);
    LearnImage(w, h, x);
    F.StepInv(s, e);
    SyncPeers(env.app, w, x);
    OrderlyWorld(env, w, Sync(w, x), C.Step(s, e));
  }

  lemma LearnImage<S>(w: World<S>, h: C.History, x: ServerID)
    requires x in w.peers && Unsaved(w.peers[x])
    ensures var s, e := AbsState(w, h), C.Learn(x, w.peers[x].node.currentTerm);
            AbsState(Sync(w, x), h) == C.Step(s, e) && C.Step(s, e).h == h
  {
    var p, s := w.peers[x], AbsState(w, h);
    ImageOf(w, h, x);
    assert DiskImage(Synced(p)) == C.Adopt(DiskImage(p), p.node.currentTerm);
    assert C.Step(s, C.Learn(x, p.node.currentTerm)) == C.DoLearn(s, x, p.node.currentTerm);
    Mirror(w, h, x, Synced(p), w.net, C.DoLearn(s, x, p.node.currentTerm));
  }

  lemma SyncPeers<S>(app: App<S>, w: World<S>, x: ServerID)
    requires PeersOk(app, w.servers, w.peers) && x in w.peers
    ensures PeersOk(app, w.servers, Sync(w, x).peers) && Sync(w, x).peers.Keys == w.peers.Keys
  {
    assert Synced(Synced(w.peers[x])) == Synced(w.peers[x]);
  }

  /** An action that saves does not depend on what was saved before. */
  lemma SyncInvisible<S>(env: Setting<S>, w: World<S>, a: Action)
    requires Saves(a) && Enabled(w, a)
    ensures Enabled(Sync(w, Actor(a)), a) && Step(env, Sync(w, Actor(a)), a) == Step(env, w, a)
  {
    var x := Actor(a);
    ActorPresent(w, a);
    match a
    case Timeout(_) => TimeoutInvisible(env, w, x);
    case VoteRequest(vq) => VoteInvisible(w, vq);
    case AppendRequest(ap) => AppendInvisible(env, w, ap);
    case InstallRequest(ins) => InstallInvisible(env, w, ins);
  }

  lemma SamePut<S>(w: World<S>, x: ServerID, p: Peer<S>)
    requires x in w.peers
    ensures ArrayCluster.Put(Sync(w, x), x, p) == ArrayCluster.Put(w, x, p)
  {
    assert w.peers[x := Synced(w.peers[x])][x := p] == w.peers[x := p];
  }

  lemma TimeoutInvisible<S>(env: Setting<S>, w: World<S>, x: ServerID)
    requires Present(w, x)
    ensures Present(Sync(w, x), x) && DoTimeout(env, Sync(w, x), x) == DoTimeout(env, w, x)
  {
    var p := w.peers[x];
    assert TimeoutPeer(env, Synced(p), x, Alone(w, x)) == TimeoutPeer(env, p, x, Alone(w, x));
    SamePut(w, x, TimeoutPeer(env, p, x, Alone(w, x)));
  }

  lemma VoteInvisible<S>(w: World<S>, m: C.VoteReq)
    requires Present(w, m.to)
    ensures Present(Sync(w, m.to), m.to) && DoVoteRequest(Sync(w, m.to), m) == DoVoteRequest(w, m)
  {
    var p := w.peers[m.to];
    assert VotePeer(Synced(p), m.to, m.args) == VotePeer(p, m.to, m.args);
    SamePut(w, m.to, VotePeer(p, m.to, m.args));
  }

  lemma AppendInvisible<S>(env: Setting<S>, w: World<S>, m: C.AppendReq)
    requires Present(w, m.to)
    ensures Present(Sync(w, m.to), m.to) && DoAppendRequest(env, Sync(w, m.to), m) == DoAppendRequest(env, w, m)
  {
    var p := w.peers[m.to];
    assert AppendPeer(env, Synced(p), m.to, m.args) == AppendPeer(env, p, m.to, m.args);
    SamePut(w, m.to, AppendPeer(env, p, m.to, m.args));
  }

  lemma InstallInvisible<S>(env: Setting<S>, w: World<S>, m: C.InstallReq)
    requires Present(w, m.to)
    ensures Present(Sync(w, m.to), m.to) && DoInstallRequest(env, Sync(w, m.to), m) == DoInstallRequest(env, w, m)
  {
    var p := w.peers[m.to];
    assert InstallPeer(env, Synced(p), m) == InstallPeer(env, p, m);
    SamePut(w, m.to, InstallPeer(env, p, m));
  }

  lemma SavingStep<S(!new)>(env: Setting<S>, w: World<S>, h: C.History, a: Action)
    requires WorldOk(env, w, h) && Faithful(env.app) && Enabled(w, a) && Saves(a)
    requires Actor(a) in w.peers && !InSync(w, Actor(a))
    ensures StepGood(env, w, h, a, Lower(env, w, a))
  {
    var x, s := Actor(a), AbsState(w, h);
    var w1, e := Sync(w, x), C.Learn(x, w.peers[x].node.currentTerm);
    UnsavedOf(env, w, h, x);
    SyncOk(env, w, h, x);
    SyncInvisible(env, w, a);
    InSyncStep(env, w1, h, a);
    LearnFirst(s, e, LowerInSync(env, w1, a));
  }

  lemma LearnFirst(s: C.State, e: C.Event, events: seq<C.Event>)
    ensures C.Execute(s, [e] + events) == C.Execute(C.Step(s, e), events)
  {
    assert ([e] + events)[1..] == events;
  }

  /** The peer as its disk has it. */
  function Rewound<S>(p: Peer<S>): Peer<S> {
    p.(node := p.node.(currentTerm := p.disk.state.currentTerm, votedFor := p.disk.state.votedFor))
  }

  lemma RewoundOk<S>(app: App<S>, servers: set<ServerID>, p: Peer<S>)
    requires PeerFine(app, servers, p) && Unsaved(p)
    ensures PeerOk(app, servers, Rewound(p)) && DiskImage(Rewound(p)) == DiskImage(p)
  {
  }

  /** A world that looks the same, in which the peer has not learned the term. */
  lemma RewindOk<S>(env: Setting<S>, w: World<S>, h: C.History, x: ServerID)
    requires WorldOk(env, w, h) && x in w.peers && Unsaved(w.peers[x])
    ensures var w1 := ArrayCluster.Put(w, x, Rewound(w.peers[x]));
            AbsState(w1, h) == AbsState(w, h) && WorldOk(env, w1, h) && InSync(w1, x)
  {
    PartsOf(env, w, h);
    RewindParts(env.app, w, h, x);
    OrderlyWorld(env, w, ArrayCluster.Put(w, x, Rewound(w.peers[x])), AbsState(w, h));
  }

  lemma RewindParts<S>(app: App<S>, w: World<S>, h: C.History, x: ServerID)
    requires PeersOk(app, w.servers, w.peers) && x in w.peers && Unsaved(w.peers[x])
    ensures var w1 := ArrayCluster.Put(w, x, Rewound(w.peers[x]));
            AbsState(w1, h) == AbsState(w, h) && PeersOk(app, w.servers, w1.peers) && w1.peers.Keys == w.peers.Keys
  {
    var p, s := w.peers[x], AbsState(w, h);
    RewoundOk(app, w.servers, p);
    Fine(app, w.servers, Rewound(p));
    ImageOf(w, h, x);
    PutSame(s, x, DiskImage(p));
    Mirror(w, h, x, Rewound(p), w.net, s);
  }

  /** A crash forgets the learned term. */
  lemma UnsavedCrash<S(!new)>(env: Setting<S>, w: World<S>, h: C.History, x: ServerID)
    requires WorldOk(env, w, h) && Faithful(env.app) && Enabled(w, Crash(x)) && !InSync(w, x)
    ensures StepGood(env, w, h, Crash(x), [C.Restart(x)])
  {
    var w1 := ArrayCluster.Put(w, x, Rewound(w.peers[x]));
    UnsavedOf(env, w, h, x);
    RewindOk(env, w, h, x);
    CrashInvisible(env, w, x, w1);
    InSyncStep(env, w1, h, Crash(x));
  }

  lemma CrashInvisible<S>(env: Setting<S>, w: World<S>, x: ServerID, w1: World<S>)
    requires Enabled(w, Crash(x)) && w1 == ArrayCluster.Put(w, x, Rewound(w.peers[x]))
    ensures Enabled(w1, Crash(x)) && Step(env, w1, Crash(x)) == Step(env, w, Crash(x))
    ensures LowerInSync(env, w1, Crash(x)) == [C.Restart(x)]
  {
    var p := w.peers[x];
    assert Restarted(env, Rewound(p), x, w.servers) == Restarted(env, p, x, w.servers);
    assert w.peers[x := Rewound(p)][x := Restarted(env, p, x, w.servers)]
           == w.peers[x := Restarted(env, p, x, w.servers)];
  }

  /** Applying needs no term. */
  lemma UnsavedApply<S(!new)>(env: Setting<S>, w: World<S>, h: C.History, x: ServerID)
    requires WorldOk(env, w, h) && Faithful(env.app) && Enabled(w, ApplyOne(x)) && !InSync(w, x)
    ensures StepGood(env, w, h, ApplyOne(x), LowerInSync(env, w, ApplyOne(x)))
  {
    PartsOf(env, w, h);
    UnsavedOf(env, w, h, x);
    if w.peers[x].node.lastApplied < w.peers[x].node.commitIndex {
      F.StepInv(AbsState(w, h), C.ApplyNext(x));
      UnsavedApplyStep(env, w, h, x);
    } else {
      UnsavedApplies(env, w.servers, w.peers[x]);
      NothingToApply(env, w, x);
    }
  }

  lemma UnsavedApplyStep<S>(env: Setting<S>, w: World<S>, h: C.History, x: ServerID)
    requires I.Inv(C.Step(AbsState(w, h), C.ApplyNext(x))) && w.peers.Keys == w.servers
    requires PeersOk(env.app, w.servers, w.peers) && CargoOk(env.app, w.net)
    requires Enabled(w, ApplyOne(x)) && Unsaved(w.peers[x])
    requires w.peers[x].node.lastApplied < w.peers[x].node.commitIndex
    ensures StepGood(env, w, h, ApplyOne(x), LowerInSync(env, w, ApplyOne(x)))
  {
    UnsavedApplies(env, w.servers, w.peers[x]);
    UnsavedApplyMatched(env, w, h, x);
    UnsavedApplyWorld(env, w, x);
    OrderlyWorld(env, w, DoApplyOne(env, w, x), C.Step(AbsState(w, h), C.ApplyNext(x)));
  }

  lemma NothingToApply<S>(env: Setting<S>, w: World<S>, x: ServerID)
    requires Enabled(w, ApplyOne(x)) && UpdateLastApplied(w.peers[x].node).1 < 0
    requires w.peers[x].node.lastApplied >= w.peers[x].node.commitIndex
    ensures Step(env, w, ApplyOne(x)) == w && LowerInSync(env, w, ApplyOne(x)) == []
  {
  }

  function ApplyPeer<S>(env: Setting<S>, p: Peer<S>): Peer<S> {
    var out := UpdateLastApplied(p.node);
    if out.1 < 0 || out.1 >= |p.node.logs| then p
    else p.(node := out.0, sm := ApplyEntry(env.app, p.sm, p.node.logs[out.1]))
  }

  lemma UnsavedApplies<S>(env: Setting<S>, servers: set<ServerID>, p: Peer<S>)
    requires PeerFine(env.app, servers, p) && Unsaved(p)
    ensures Rep(p.node, p.log)
    ensures p.node.lastApplied < p.node.commitIndex <==> UpdateLastApplied(p.node).1 >= 0
    ensures PeerFine(env.app, servers, ApplyPeer(env, p))
    ensures p.node.lastApplied < p.node.commitIndex ==>
              DiskImage(ApplyPeer(env, p)) == DiskImage(p).(applied := p.node.lastApplied + 1)
  {
    ApplyRefines(p.node, p.log);
    if p.node.lastApplied < p.node.commitIndex {
      ApplyMoves(env, servers, Synced(p), ApplyPeer(env, Synced(p)));
      assert Synced(ApplyPeer(env, p)) == ApplyPeer(env, Synced(p));
    }
  }

  lemma UnsavedApplyMatched<S>(env: Setting<S>, w: World<S>, h: C.History, x: ServerID)
    requires Present(w, x) && Rep(w.peers[x].node, w.peers[x].log)
    requires w.peers[x].node.lastApplied < w.peers[x].node.commitIndex
    requires DiskImage(ApplyPeer(env, w.peers[x])) == DiskImage(w.peers[x]).(applied := w.peers[x].node.lastApplied + 1)
    ensures var s := AbsState(w, h);
            && C.Execute(s, LowerInSync(env, w, ApplyOne(x))) == C.Step(s, C.ApplyNext(x))
            && C.Step(s, C.ApplyNext(x)).h == h
            && AbsState(DoApplyOne(env, w, x), h) == C.Step(s, C.ApplyNext(x))
  {
    var p, s := w.peers[x], AbsState(w, h);
    ImageOf(w, h, x);
    ApplyRefines(p.node, p.log);
    ApplyExecutes(s, x);
    Mirror(w, h, x, ApplyPeer(env, p), w.net, C.DoApply(s, x));
  }

  lemma UnsavedApplyWorld<S>(env: Setting<S>, w: World<S>, x: ServerID)
    requires Present(w, x) && PeersOk(env.app, w.servers, w.peers) && w.peers.Keys == w.servers
    requires UpdateLastApplied(w.peers[x].node).1 >= 0 && PeerFine(env.app, w.servers, ApplyPeer(env, w.peers[x]))
    ensures var w' := DoApplyOne(env, w, x);
            w'.servers == w.servers && w'.net == w.net && w'.peers.Keys == w.servers
            && PeersOk(env.app, w.servers, w'.peers)
  {
  }

  /** Replies are drained: such a peer is a follower. */
  lemma UnsavedDrains<S>(env: Setting<S>, w: World<S>, h: C.History, r: C.VoteRep)
    requires WorldOk(env, w, h) && Enabled(w, VoteReply(r)) && !InSync(w, r.to)
    ensures StepGood(env, w, h, VoteReply(r), LowerInSync(env, w, VoteReply(r)))
  {
    PartsOf(env, w, h);
    UnsavedOf(env, w, h, r.to);
    DrainWorld(env, w, h, r);
  }

  lemma DrainWorld<S>(env: Setting<S>, w: World<S>, h: C.History, r: C.VoteRep)
    requires I.Inv(AbsState(w, h)) && w.peers.Keys == w.servers
    requires PeersOk(env.app, w.servers, w.peers) && CargoOk(env.app, w.net)
    requires Enabled(w, VoteReply(r)) && w.peers[r.to].node.role != Candidate
    ensures StepGood(env, w, h, VoteReply(r), LowerInSync(env, w, VoteReply(r)))
  {
    var s, e := AbsState(w, h), C.DeliverVoteRep(r, ReplyRoom(w.peers[r.to].node, r.resp));
    DrainSim(env, w, h, r, e.room);
    CountExecutes(s, r, e.room);
    F.StepInv(s, e);
    OrderlyWorld(env, w, DoVoteReply(env, w, r), C.DoVoteRep(s, r, e.room));
  }

  lemma UnsavedStep<S(!new)>(env: Setting<S>, w: World<S>, h: C.History, a: Action)
    requires WorldOk(env, w, h) && Faithful(env.app) && Enabled(w, a) && !Saves(a)
    requires Actor(a) in w.peers && !InSync(w, Actor(a)) && w.peers[Actor(a)].node.role == Follower
    ensures StepGood(env, w, h, a, LowerInSync(env, w, a))
  {
    match a
    case Crash(x) => UnsavedCrash(env, w, h, x);
    case ApplyOne(x) => UnsavedApply(env, w, h, x);
    case VoteReply(vr) => UnsavedDrains(env, w, h, vr);
    case _ =>
  }

  /** One action: matched step for step, and the invariant of both levels kept. */
  lemma StepOk<S(!new)>(env: Setting<S>, w: World<S>, h: C.History, a: Action)
    requires WorldOk(env, w, h) && Faithful(env.app)
    ensures StepGood(env, w, h, a, Lower(env, w, a))
  {
    if Enabled(w, a) {
      ActorPresent(w, a);
      if InSync(w, Actor(a)) {
        InSyncStep(env, w, h, a);
      } else if Saves(a) {
        SavingStep(env, w, h, a);
      } else {
        UnsavedOf(env, w, h, Actor(a));
        UnsavedStep(env, w, h, a);
      }
    }
  }

  lemma BootOk<S>(env: Setting<S>, servers: set<ServerID>)
    ensures AbsState(Boot(env, servers), C.Start(servers).h) == C.Start(servers)
    ensures WorldOk(env, Boot(env, servers), C.Start(servers).h)
  {
    I.StartInv(servers);
    BootImage(env, servers);
    BootPeers(env, servers);
  }

  lemma BootImage<S>(env: Setting<S>, servers: set<ServerID>)
    ensures AbsState(Boot(env, servers), C.Start(servers).h) == C.Start(servers)
  {
    var s, s' := AbsState(Boot(env, servers), C.Start(servers).h), C.Start(servers);
    forall x | x in servers ensures s.nodes[x] == s'.nodes[x] {
      BootPeer(env, x, servers);
      SavedImage(NewPeer(env, x, servers));
    }
    assert s.nodes == s'.nodes;
  }

  lemma BootPeers<S>(env: Setting<S>, servers: set<ServerID>)
    ensures PeersOk(env.app, servers, Boot(env, servers).peers)
  {
    forall x | x in servers ensures PeerFine(env.app, servers, Boot(env, servers).peers[x]) {
      BootPeer(env, x, servers);
      Fine(env.app, servers, Boot(env, servers).peers[x]);
    }
  }

  lemma BootPeer<S>(env: Setting<S>, x: ServerID, servers: set<ServerID>)
    requires x in servers
    ensures var p := NewPeer(env, x, servers); PeerOk(env.app, servers, p) && AbsPeer(p) == C.Newborn(x, servers)
  {
  }
}
