/** Shipping, installing and recovering from snapshots as steps over unbounded logs. */
module SnapshotSimulation {
  import opened Types
  import opened Replica
  import opened Guards
  import opened Application
  import opened ArrayCluster
  import opened Refinement
  import opened HandlerRefinement
  import opened Simulation
  import opened LogSimulation
  import C = Cluster

  // ---- shipping ----

  lemma ShipSim<S>(app: App<S>, w: World<S>, h: C.History, x: ServerID, to: ServerID)
    requires Leads(w, x) && PeerOk(app, w.servers, w.peers[x]) && w.peers[x].node.lastSnapshot.Some?
    ensures var s, m := AbsState(w, h), Shipment(w.peers[x], x, to);
            && C.CanSendInstall(s, x, m)
            && m.args.data == app.save(StateAfter(app, m.prefix, |m.prefix|))
            && AbsState(DoShip(w, x, to), h) == C.DoSendInstall(s, m)
  {
    var p := w.peers[x];
    ImageOf(w, h, x);
    SavedImage(p);
    StateOfAgreeing(app, p.log, Shipment(p, x, to).prefix, Base(p.node.lastSnapshot));
  }

  // ---- installing ----

  function InstallPeer<S>(env: Setting<S>, p: Peer<S>, m: C.InstallReq): Peer<S> {
    var out := GuardedInstall(p.node, m.to, m.args);
    Save(if out.2.Some? then p.(node := out.0, sm := env.app.load(out.2.value), log := m.prefix)
         else p.(node := out.0))
  }

  ghost predicate GoodCargo<S>(app: App<S>, m: C.InstallReq) {
    Describes(m.args, m.prefix) && m.args.data == app.save(StateAfter(app, m.prefix, |m.prefix|))
  }

  lemma Newer(s: C.Server, m: C.InstallReq)
    requires Replaces(s, m) && s.base <= s.applied + 1 && Describes(m.args, m.prefix)
    ensures |m.prefix| > s.base && Installed(s, m).base == |m.prefix| && Installed(s, m).applied == |m.prefix| - 1
  {
  }

  lemma InstallMoves<S(!new)>(env: Setting<S>, servers: set<ServerID>, p: Peer<S>, m: C.InstallReq)
    requires PeerOk(env.app, servers, p) && GoodCargo(env.app, m) && Faithful(env.app)
    ensures var p' := InstallPeer(env, p, m);
            PeerOk(env.app, servers, p') && AbsPeer(p') == Installed(AbsPeer(p), m)
  {
    InstallRefines(p.node, p.log, p.voters, m.to, m);
    InstallAnswers(p.node, p.log, p.voters, m.to, m);
    var out := GuardedInstall(p.node, m.to, m.args);
    if Replaces(AbsPeer(p), m) {
      Newer(AbsPeer(p), m);
      InstalledPeer(env, servers, p, m, out.0);
    } else {
      Saved(p, p.(node := out.0));
    }
  }

  /** The application restored from the cargo is in the state the prefix leads to. */
  lemma InstalledPeer<S(!new)>(env: Setting<S>, servers: set<ServerID>, p: Peer<S>, m: C.InstallReq, n: Node)
    requires PeerOk(env.app, servers, p) && GoodCargo(env.app, m) && Faithful(env.app)
    requires Rep(n, m.prefix) && n.config == p.node.config && n.logs == [] && n.lastApplied == |m.prefix| - 1
    requires n.lastSnapshot.Some? && n.lastSnapshot.value.data == m.args.data
    requires Base(n.lastSnapshot) == |m.prefix| > Base(p.node.lastSnapshot)
    ensures var p' := Save(p.(node := n, sm := env.app.load(m.args.data), log := m.prefix));
            PeerOk(env.app, servers, p') && AbsPeer(p') == Abs(n, m.prefix, p.voters)
  {
    Saved(p, p.(node := n, sm := env.app.load(m.args.data), log := m.prefix));
  }

  lemma InstallAt(s: C.State, m: C.InstallReq, rep: C.InstallRep, n: C.Server)
    requires C.CanDeliverInstall(s, m, rep) && s.nodes[m.to] == n
    ensures var s' := C.DoInstall(s, m, rep);
            var silent := n.term <= m.args.term && C.HoldsMore(n, m);
            s' == C.Put(s, m.to, Installed(n, m)).(
                    net := if silent then s.net else s.net.(installReps := s.net.installReps + {rep}), h := s'.h)
  {
    PutSame(s, m.to, n);
  }

  lemma InstallExecutes(s: C.State, m: C.InstallReq, rep: C.InstallRep)
    requires C.CanDeliverInstall(s, m, rep)
    ensures C.Execute(s, [C.DeliverInstall(m, rep)]) == C.DoInstall(s, m, rep)
  {
    ExecuteOne(s, C.DeliverInstall(m, rep));
  }

  lemma InstallSim<S(!new)>(env: Setting<S>, w: World<S>, h: C.History, m: C.InstallReq, rep: C.InstallRep)
    requires m in w.net.installs && Present(w, m.to) && PeerOk(env.app, w.servers, w.peers[m.to])
    requires GoodCargo(env.app, m) && Faithful(env.app)
    requires rep == C.InstallRep(m.from, InstallAnswer(w.peers[m.to].node, m.to, m.args))
    ensures C.CanDeliverInstall(AbsState(w, h), m, rep)
    ensures var s' := C.DoInstall(AbsState(w, h), m, rep);
            AbsState(DoInstallRequest(env, w, m), s'.h) == s'
  {
    var p, s := w.peers[m.to], AbsState(w, h);
    ImageOf(w, h, m.to);
    InstallMoves(env, w.servers, p, m);
    InstallAnswers(p.node, p.log, p.voters, m.to, m);
    SavedImage(p);
    SavedImage(InstallPeer(env, p, m));
    InstallAt(s, m, rep, AbsPeer(p));
    Mirror(w, h, m.to, InstallPeer(env, p, m), DoInstallRequest(env, w, m).net, C.DoInstall(s, m, rep));
  }

  // ---- the leader hears of it ----

  function InstallReplyPeer<S>(p: Peer<S>, r: C.InstallRep): Peer<S> {
    p.(node := GuardedInstallReply(p.node, r.resp))
  }

  lemma InstallReplyMoves<S>(app: App<S>, servers: set<ServerID>, p: Peer<S>, r: C.InstallRep)
    requires PeerOk(app, servers, p) && !Deposes(p.node, r.resp.success, r.resp.term)
    ensures var p' := InstallReplyPeer(p, r);
            && PeerOk(app, servers, p')
            && AbsPeer(p') == Credited(AbsPeer(p), r.resp.id, r.resp.success, r.resp.term, r.resp.lastIncludedIndex)
  {
    InstallReplyRefines(p.node, p.log, p.voters, r);
    KeptPeer(app, servers, p, GuardedInstallReply(p.node, r.resp), p.voters, InstallReplyPeer(p, r));
  }

  lemma InstallReplyDeposes<S>(app: App<S>, servers: set<ServerID>, p: Peer<S>, r: C.InstallRep)
    requires PeerOk(app, servers, p) && Deposes(p.node, r.resp.success, r.resp.term)
    ensures var p' := InstallReplyPeer(p, r);
            && PeerFine(app, servers, p') && p'.disk.state != Persistent(p'.node)
            && DiskImage(p') == AbsPeer(p).(role := Follower)
  {
    DeposedPeer(app, servers, p, GuardedInstallReply(p.node, r.resp), InstallReplyPeer(p, r));
  }

  lemma InstallReplySim<S>(app: App<S>, w: World<S>, h: C.History, r: C.InstallRep)
    requires r in w.net.installReps && Leads(w, r.to) && PeerOk(app, w.servers, w.peers[r.to])
    requires !Deposes(w.peers[r.to].node, r.resp.success, r.resp.term)
    ensures C.CanDeliverInstallRep(AbsState(w, h), r)
    ensures AbsState(DoInstallReply(w, r), h) == C.DoInstallRep(AbsState(w, h), r)
  {
    var p, s := w.peers[r.to], AbsState(w, h);
    ImageOf(w, h, r.to);
    SavedImage(p);
    InstallReplyMoves(app, w.servers, p, r);
    SavedImage(InstallReplyPeer(p, r));
    PutSame(s, r.to, AbsPeer(p));
    Mirror(w, h, r.to, InstallReplyPeer(p, r), w.net, C.DoInstallRep(s, r));
  }

  lemma InstallReplyDeposed<S>(app: App<S>, w: World<S>, h: C.History, r: C.InstallRep)
    requires Leads(w, r.to) && PeerOk(app, w.servers, w.peers[r.to])
    requires Deposes(w.peers[r.to].node, r.resp.success, r.resp.term)
    ensures C.CanYield(AbsState(w, h), r.to)
    ensures AbsState(DoInstallReply(w, r), h) ==
            C.DoYield(AbsState(w, h), r.to, w.peers[r.to].node.electionVotes)
  {
    var p, s := w.peers[r.to], AbsState(w, h);
    ImageOf(w, h, r.to);
    SavedImage(p);
    InstallReplyDeposes(app, w.servers, p, r);
    Mirror(w, h, r.to, InstallReplyPeer(p, r), w.net, C.DoYield(s, r.to, p.node.electionVotes));
  }

  // ---- crash and restart ----

  lemma CrashMoves<S(!new)>(env: Setting<S>, servers: set<ServerID>, p: Peer<S>, x: ServerID)
    requires PeerOk(env.app, servers, p) && Restorable(p.node) && x in servers && Faithful(env.app)
    ensures var p' := Restarted(env, p, x, servers);
            PeerOk(env.app, servers, p') && AbsPeer(p') == C.Reborn(x, AbsPeer(p), servers) && p'.log == p.log
  {
    RecoverRefines(p.node, p.log, p.voters, x, servers);
  }

  lemma CrashSim<S(!new)>(env: Setting<S>, w: World<S>, h: C.History, x: ServerID)
    requires Present(w, x) && PeerOk(env.app, w.servers, w.peers[x]) && Restorable(w.peers[x].node)
    requires x in w.servers && Faithful(env.app)
    ensures C.CanRestart(AbsState(w, h), x)
    ensures AbsState(DoCrash(env, w, x), h) == C.DoRestart(AbsState(w, h), x)
  {
    var p, s := w.peers[x], AbsState(w, h);
    ImageOf(w, h, x);
    SavedImage(p);
    CrashMoves(env, w.servers, p, x);
    Mirror(w, h, x, Restarted(env, p, x, w.servers), w.net, C.DoRestart(s, x));
  }
}
