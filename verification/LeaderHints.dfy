/** Whom a node takes for the leader, which is what it answers to clients it cannot serve: what each
    handler records, and that an accepted request names the one leader its term ever has. */
module LeaderHints {
  import opened Types
  import opened Replica
  import opened Guards
  import opened Refinement
  import opened MergeRefinement
  import opened ArrayCluster
  import opened Simulation
  import opened ArrayInvariant
  import opened ArraySafety
  import opened Application
  import I = Invariant
  import F = Safety
  import Q = QuietSteps
  import G = Growth
  import C = Cluster

  // ---- what each handler records ----

  /** A candidate goes on naming whom it took for the leader, until it wins or hears of another. */
  lemma CandidateHint(n: Node, id: ServerID, resp: RequestVoteResponse)
    ensures StartElection(n, id).currentLeader == n.currentLeader
    ensures UpdateElection(n, resp).0.currentLeader == n.currentLeader
  {
  }

  /** The candidate it votes for, and nobody otherwise. */
  lemma VoteHint(n: Node, id: ServerID, rva: RequestVoteArgs)
    ensures var out := GuardedVote(n, id, rva);
            && out.0.currentLeader == (if out.1.voteGranted then Some(rva.candidateID) else n.currentLeader)
            && (out.0.role == Leader ==> n.role == Leader && !out.1.voteGranted)
  {
  }

  /** The sender of a request of its term or a newer one whose previous entry it has, even if the
      array has no room for the entries. */
  lemma AppendHint(digest: Digest, n: Node, id: ServerID, aea: AppendEntriesArgs, gameState: Bytes)
    requires |n.logs| == |n.hashes|
    ensures var out, p := GuardedAppend(digest, n, id, aea, gameState), Purge(n, aea);
            && out.1.id == id
            && (out.1.success ==> out.1.term == aea.term >= n.currentTerm)
            && out.0.currentLeader == (if aea.term >= n.currentTerm && !PrevRefused(n, p, PrevAt(n, p)) then aea.leaderID
                                       else n.currentLeader)
            && (out.0.role == Leader ==> n.role == Leader && aea.term < n.currentTerm)
  {
    var p := Purge(n, aea);
    if aea.term >= n.currentTerm {
      var n1, pos := Following(n, p.term), PrevAt(n, p) + 1;
      var n2 := n1.(currentLeader := p.leaderID);
      if !PrevRefused(n, p, pos - 1) && pos + |p.entries| < CAPACITY {
        LoopRefines(digest, n2, pos, p.entries);
        HandleAccepts(digest, n, id, p, gameState, n2, pos, MergeAndCommit(digest, n2, pos, p));
      } else {
        HandleRefuses(digest, n, id, p, gameState, n1, pos);
      }
    }
  }

  /** Whoever refuses it from a newer term. */
  lemma ReplyHint(n: Node, aer: AppendEntriesResponse, covered: int)
    ensures var n' := GuardedAppendReply(n, aer, covered);
            && n'.currentLeader == (if Deposes(n, aer.success, aer.term) then Some(aer.id) else n.currentLeader)
            && n'.role == (if Deposes(n, aer.success, aer.term) then Follower else n.role)
  {
  }

  lemma InstallReplyHint(n: Node, isr: InstallSnapshotResponse)
    ensures var n' := GuardedInstallReply(n, isr);
            && n'.currentLeader == (if Deposes(n, isr.success, isr.term) then Some(isr.id) else n.currentLeader)
            && n'.role == (if Deposes(n, isr.success, isr.term) then Follower else n.role)
  {
  }

  /** A winner records itself. */
  lemma WinHint(digest: Digest, n: Node, id: ServerID)
    requires |n.logs| == |n.hashes|
    ensures var n' := GuardedWin(digest, n, id); n'.role == Leader && n'.currentLeader == Some(id)
  {
  }

  /** An installation records nobody, and its answer is about what was asked. */
  lemma InstallHint(n: Node, id: ServerID, isa: InstallSnapshotArgs)
    ensures var out := GuardedInstall(n, id, isa);
            && out.0.currentLeader == n.currentLeader
            && (out.0.role == Leader ==> n.role == Leader)
            && (out.1.Some? ==>
                  out.1.value == if isa.term < n.currentTerm then InstallSnapshotResponse(id, n.currentTerm, false, 0, 0)
                                 else InstallSnapshotResponse(id, isa.term, true, isa.lastIncludedIndex, isa.lastIncludedTerm))
  {
  }

  // ---- in every run ----

  ghost predicate HintOk(servers: set<ServerID>, x: ServerID, n: Node) {
    && (n.role == Leader ==> n.currentLeader == Some(x))
    && (n.currentLeader.Some? ==> n.currentLeader.value in servers)
  }

  /** The server on record as the leader of a term. */
  predicate Led(h: C.History, term: int, x: ServerID) {
    term in h.leader && h.leader[term] == x
  }

  /** Requests name their sender, who leads their term; what they achieve is reported back to it. */
  ghost predicate NetOk(servers: set<ServerID>, h: C.History, net: C.Net) {
    && (forall m :: m in net.appends ==> m.args.leaderID == Some(m.from) && m.from in servers && Led(h, m.args.term, m.from))
    && (forall m :: m in net.installs ==> m.args.id == m.from && m.from in servers && Led(h, m.args.term, m.from))
    && (forall m :: m in net.voteReqs ==> m.args.candidateID in servers)
    && (forall r :: r in net.appendReps ==> r.resp.id in servers && (r.resp.success ==> Led(h, r.resp.term, r.to)))
    && (forall r :: r in net.installReps ==> r.resp.id in servers && (r.resp.success ==> Led(h, r.resp.term, r.to)))
  }

  ghost predicate HintsOk<S>(w: World<S>, h: C.History) {
    && (forall x {:trigger w.peers[x]} :: x in w.peers ==> HintOk(w.servers, x, w.peers[x].node))
    && NetOk(w.servers, h, w.net)
  }

  lemma NetLater(servers: set<ServerID>, h: C.History, h': C.History, net: C.Net)
    requires NetOk(servers, h, net) && G.KeptBy(h.leader, h'.leader)
    ensures NetOk(servers, h', net)
  {
  }

  /** The world after the actor has moved to another node state. */
  lemma OneMoved<S>(w: World<S>, h: C.History, x: ServerID, w': World<S>)
    requires HintsOk(w, h) && x in w.peers && x in w'.peers && w'.servers == w.servers
    requires w'.peers == w.peers[x := w'.peers[x]]
    requires HintOk(w.servers, x, w'.peers[x].node) && NetOk(w.servers, h, w'.net)
    ensures HintsOk(w', h)
  {
  }

  lemma LeaderOnRecord<S>(env: Setting<S>, w: World<S>, h: C.History, x: ServerID)
    requires WorldOk(env, w, h) && x in w.peers && w.peers[x].node.role == Leader
    ensures Led(h, w.peers[x].node.currentTerm, x)
  {
    PeerAt(env, w, h, x);
    Q.NodeOf(AbsState(w, h), x);
  }

  lemma TimeoutHints<S>(env: Setting<S>, w: World<S>, h: C.History, x: ServerID)
    requires HintsOk(w, h) && w.peers.Keys == w.servers && Present(w, x)
    ensures HintsOk(DoTimeout(env, w, x), h)
  {
    var n := StartElection(w.peers[x].node, x);
    WinHint(env.digest, n, x);
    OneMoved(w, h, x, DoTimeout(env, w, x));
  }

  lemma VoteRequestHints<S>(w: World<S>, h: C.History, m: C.VoteReq)
    requires HintsOk(w, h) && m in w.net.voteReqs && Present(w, m.to)
    ensures HintsOk(DoVoteRequest(w, m), h)
  {
    VoteHint(w.peers[m.to].node, m.to, m.args);
    OneMoved(w, h, m.to, DoVoteRequest(w, m));
  }

  lemma VoteReplyHints<S>(env: Setting<S>, w: World<S>, h: C.History, r: C.VoteRep)
    requires HintsOk(w, h) && w.peers.Keys == w.servers && Present(w, r.to)
    ensures HintsOk(DoVoteReply(env, w, r), h)
  {
    var p := w.peers[r.to];
    if p.node.role == Candidate {
      var out := UpdateElection(p.node, r.resp);
      if out.1 {
        WinHint(env.digest, out.0, r.to);
      }
      OneMoved(w, h, r.to, DoVoteReply(env, w, r));
    }
  }

  lemma SubmitHints<S>(
      env: Setting<S>, w: World<S>, h: C.History, x: ServerID, clientID: Bytes, seqNum: int, data: Bytes)
    requires HintsOk(w, h) && Present(w, x)
    ensures HintsOk(DoSubmit(env, w, x, clientID, seqNum, data), h)
  {
    var p := w.peers[x];
    var out := AddCommandLog(env.digest, p.node, x, clientID, seqNum, data, env.app.save(p.sm));
    if out.1 >= 0 {
      assert out.0.role == p.node.role && out.0.currentLeader == p.node.currentLeader;
      OneMoved(w, h, x, DoSubmit(env, w, x, clientID, seqNum, data));
    }
  }

  ghost predicate OnRecord<S>(w: World<S>, h: C.History, x: ServerID) {
    w.peers.Keys == w.servers && (Leads(w, x) ==> Led(h, w.peers[x].node.currentTerm, x))
  }

  lemma ShipHints<S>(w: World<S>, h: C.History, x: ServerID, to: ServerID)
    requires HintsOk(w, h) && Leads(w, x) && OnRecord(w, h, x)
    ensures HintsOk(DoShip(w, x, to), h)
  {
  }

  lemma ReplicateHints<S>(w: World<S>, h: C.History, x: ServerID, to: ServerID)
    requires HintsOk(w, h) && Leads(w, x) && OnRecord(w, h, x)
    ensures HintsOk(DoReplicate(w, x, to), h)
  {
    if GetAppendEntriesArgs(w.peers[x].node, to).1 == None {
      ShipHints(w, h, x, to);
    } else {
      OneMoved(w, h, x, DoReplicate(w, x, to));
    }
  }

  lemma AppendRequestHints<S>(env: Setting<S>, w: World<S>, h: C.History, m: C.AppendReq)
    requires HintsOk(w, h) && w.peers.Keys == w.servers && m in w.net.appends && Present(w, m.to)
    ensures HintsOk(DoAppendRequest(env, w, m), h)
  {
    AppendHint(env.digest, w.peers[m.to].node, m.to, m.args, env.app.save(w.peers[m.to].sm));
    OneMoved(w, h, m.to, DoAppendRequest(env, w, m));
  }

  lemma AppendReplyHints<S>(w: World<S>, h: C.History, r: C.AppendRep)
    requires HintsOk(w, h) && r in w.net.appendReps && Present(w, r.to)
    ensures HintsOk(DoAppendReply(w, r), h)
  {
    ReplyHint(w.peers[r.to].node, r.resp, r.covered);
    OneMoved(w, h, r.to, DoAppendReply(w, r));
  }

  lemma InstallRequestHints<S>(env: Setting<S>, w: World<S>, h: C.History, m: C.InstallReq)
    requires HintsOk(w, h) && w.peers.Keys == w.servers && m in w.net.installs && Present(w, m.to)
    ensures HintsOk(DoInstallRequest(env, w, m), h)
  {
    InstallHint(w.peers[m.to].node, m.to, m.args);
    OneMoved(w, h, m.to, DoInstallRequest(env, w, m));
  }

  lemma InstallReplyHints<S>(w: World<S>, h: C.History, r: C.InstallRep)
    requires HintsOk(w, h) && r in w.net.installReps && Present(w, r.to)
    ensures HintsOk(DoInstallReply(w, r), h)
  {
    InstallReplyHint(w.peers[r.to].node, r.resp);
    OneMoved(w, h, r.to, DoInstallReply(w, r));
  }

  /** What is left changes neither role nor hint, except that a restart forgets both. */
  lemma QuietHints<S>(env: Setting<S>, w: World<S>, h: C.History, a: Action)
    requires HintsOk(w, h) && Enabled(w, a) && (a.Commit? || a.ApplyOne? || a.Crash?)
    ensures HintsOk(Step(env, w, a), h)
  {
    var x := Actor(a);
    if x in Step(env, w, a).peers && Step(env, w, a) != w {
      OneMoved(w, h, x, Step(env, w, a));
    }
  }

  lemma ActionHints<S>(env: Setting<S>, w: World<S>, h: C.History, a: Action)
    requires HintsOk(w, h) && OnRecord(w, h, Actor(a))
    ensures HintsOk(Step(env, w, a), h)
  {
    if Enabled(w, a) {
      match a
      case Timeout(x) => TimeoutHints(env, w, h, x);
      case VoteRequest(vq) => VoteRequestHints(w, h, vq);
      case VoteReply(vr) => VoteReplyHints(env, w, h, vr);
      case Submit(x, clientID, seqNum, data) => SubmitHints(env, w, h, x, clientID, seqNum, data);
      case Replicate(x, to) => ReplicateHints(w, h, x, to);
      case ShipSnapshot(x, to) => ShipHints(w, h, x, to);
      case AppendRequest(ap) => AppendRequestHints(env, w, h, ap);
      case AppendReply(apRep) => AppendReplyHints(w, h, apRep);
      case InstallRequest(ins) => InstallRequestHints(env, w, h, ins);
      case InstallReply(insRep) => InstallReplyHints(w, h, insRep);
      case _ => QuietHints(env, w, h, a);
    }
  }

  lemma ActionRecords<S(!new)>(env: Setting<S>, w: World<S>, h: C.History, a: Action)
    requires WorldOk(env, w, h)
    ensures OnRecord(w, h, Actor(a))
    ensures G.KeptBy(h.leader, C.Execute(AbsState(w, h), Lower(env, w, a)).h.leader)
  {
    F.ExecuteLater(AbsState(w, h), Lower(env, w, a));
    if Leads(w, Actor(a)) {
      LeaderOnRecord(env, w, h, Actor(a));
    }
  }

  lemma HintsLater<S>(w: World<S>, h: C.History, h': C.History)
    requires HintsOk(w, h) && G.KeptBy(h.leader, h'.leader)
    ensures HintsOk(w, h')
  {
    NetLater(w.servers, h, h', w.net);
  }

  lemma OneAction<S(!new)>(env: Setting<S>, w: World<S>, h: C.History, a: Action)
    requires WorldOk(env, w, h) && HintsOk(w, h)
    ensures HintsOk(Step(env, w, a), C.Execute(AbsState(w, h), Lower(env, w, a)).h)
  {
    ActionRecords(env, w, h, a);
    ActionHints(env, w, h, a);
    HintsLater(Step(env, w, a), h, C.Execute(AbsState(w, h), Lower(env, w, a)).h);
  }

  lemma {:induction false} RunHints<S(!new)>(env: Setting<S>, w: World<S>, h: C.History, actions: seq<Action>)
    requires WorldOk(env, w, h) && Faithful(env.app) && HintsOk(w, h)
    ensures var s := C.Execute(AbsState(w, h), Lowered(env, w, actions));
            && HintsOk(Run(env, w, actions), s.h) && WorldOk(env, Run(env, w, actions), s.h)
            && G.KeptBy(h.leader, s.h.leader)
    decreases |actions|
  {
    if actions != [] {
      var first, w1 := Lower(env, w, actions[0]), Step(env, w, actions[0]);
      var s1 := C.Execute(AbsState(w, h), first);
      StepOk(env, w, h, actions[0]);
      OneAction(env, w, h, actions[0]);
      ActionRecords(env, w, h, actions[0]);
      RunHints(env, w1, s1.h, actions[1..]);
      ExecuteConcat(AbsState(w, h), first, Lowered(env, w1, actions[1..]));
    }
  }

  lemma BootHints<S>(env: Setting<S>, servers: set<ServerID>)
    ensures HintsOk(Boot(env, servers), C.Start(servers).h)
  {
  }

  /** Two moments of one run, with hints and messages in order at both. */
  lemma HintMoments<S(!new)>(env: Setting<S>, servers: set<ServerID>, past: seq<Action>, next: seq<Action>)
      returns (h: C.History, h': C.History)
    requires Faithful(env.app)
    ensures var w := Run(env, Boot(env, servers), past); var w' := Run(env, w, next);
            && HintsOk(w, h) && HintsOk(w', h') && WorldOk(env, w, h) && WorldOk(env, w', h')
            && w.servers == w'.servers && G.KeptBy(h.leader, h'.leader)
  {
    var boot := Boot(env, servers);
    BootOk(env, servers);
    BootHints(env, servers);
    RunHints(env, boot, C.Start(servers).h, past);
    h := C.Execute(AbsState(boot, C.Start(servers).h), Lowered(env, boot, past)).h;
    var w := Run(env, boot, past);
    RunHints(env, w, h, next);
    h' := C.Execute(AbsState(w, h), Lowered(env, w, next)).h;
    RunServers(env, w, next);
  }

  lemma StepServers<S>(env: Setting<S>, w: World<S>, a: Action)
    ensures Step(env, w, a).servers == w.servers
  {
  }

  lemma {:induction false} RunServers<S>(env: Setting<S>, w: World<S>, actions: seq<Action>)
    ensures Run(env, w, actions).servers == w.servers
    decreases |actions|
  {
    if actions != [] {
      StepServers(env, w, actions[0]);
      RunServers(env, Step(env, w, actions[0]), actions[1..]);
    }
  }

  /** In every run a leader takes itself for the leader, and every node names a server or nobody. */
  lemma LeadersKnowThemselves<S(!new)>(env: Setting<S>, servers: set<ServerID>, actions: seq<Action>, x: ServerID)
    requires Faithful(env.app)
    ensures var w := Run(env, Boot(env, servers), actions);
            && w.servers == servers
            && (x in w.peers ==> HintOk(servers, x, w.peers[x].node))
  {
    var h, h' := HintMoments(env, servers, actions, []);
    RunServers(env, Boot(env, servers), actions);
  }

  /** Whoever takes the sender of a request in flight for the leader is right: nobody else ever leads
      that term, earlier or later in the run. */
  lemma RequestsNameTheLeader<S(!new)>(
      env: Setting<S>, servers: set<ServerID>, past: seq<Action>, next: seq<Action>, y: ServerID)
    requires Faithful(env.app)
    ensures var w := Run(env, Boot(env, servers), past); var w' := Run(env, w, next);
            && (forall m :: m in w.net.appends ==>
                  && m.args.leaderID == Some(m.from) && m.from in servers
                  && (y in w'.peers && w'.peers[y].node.role == Leader && w'.peers[y].node.currentTerm == m.args.term
                      ==> y == m.from))
            && (forall m :: m in w'.net.appends ==>
                  (y in w.peers && w.peers[y].node.role == Leader && w.peers[y].node.currentTerm == m.args.term
                   ==> y == m.from))
  {
    var w := Run(env, Boot(env, servers), past);
    var w' := Run(env, w, next);
    var h, h' := HintMoments(env, servers, past, next);
    RunServers(env, Boot(env, servers), past);
    if y in w'.peers && w'.peers[y].node.role == Leader {
      LeaderOnRecord(env, w', h', y);
    }
    if y in w.peers && w.peers[y].node.role == Leader {
      LeaderOnRecord(env, w, h, y);
    }
  }
}
