/** The hash chain and the tenure of a leader in the cluster: what `HashChain` and `ConfigChanges` say of
    one node holds of the nodes of the array cluster, because its actions are these handlers. */
module ChainRuns {
  import opened Types
  import opened Replica
  import opened Refinement
  import opened Application
  import opened ArrayCluster
  import opened Simulation
  import opened ArrayInvariant
  import opened ArraySafety
  import opened HashChain
  import CC = ConfigChanges
  import C = Cluster

  /** What a node does that neither stands for election nor crashes. */
  predicate Follows(a: Action) {
    a.VoteRequest? || a.AppendRequest? || a.InstallRequest? || a.ApplyOne?
  }

  function OpOf<S>(env: Setting<S>, w: World<S>, a: Action): FollowerOp
    requires Follows(a) && Actor(a) in w.peers
  {
    match a
    case VoteRequest(vq) => Vote(vq.args)
    case AppendRequest(ap) => Receive(ap.args, env.app.save(w.peers[ap.to].sm))
    case InstallRequest(ins) => Install(ins.args)
    case ApplyOne(_) => Apply
  }

  /** Such an action of the cluster is an operation of `HashChain` at its actor, */
  lemma ActionPerforms<S>(env: Setting<S>, w: World<S>, a: Action)
    requires Enabled(w, a) && Follows(a)
    ensures var x := Actor(a);
            && x in w.peers && |w.peers[x].node.logs| == |w.peers[x].node.hashes| && x in Step(env, w, a).peers
            && Step(env, w, a).peers[x].node == Perform(env.digest, w.peers[x].node, x, OpOf(env, w, a))
  {
    if a.ApplyOne? {
      var n := w.peers[a.x].node;
      assert UpdateLastApplied(n).1 < 0 ==> UpdateLastApplied(n).0 == n;
    }
  }

  /** and what a leader does is what `ConfigChanges` lets it do. */
  lemma LeaderServes<S>(env: Setting<S>, w: World<S>, a: Action, asked: seq<ConfigEntry>, started: seq<ConfigEntry>)
    requires Enabled(w, a) && Actor(a) in w.peers && CC.Fit(w.peers[Actor(a)].node)
    requires w.peers[Actor(a)].node.role == Leader
    ensures var x, n := Actor(a), w.peers[Actor(a)].node;
            && x in Step(env, w, a).peers
            && var n', o := Step(env, w, a).peers[x].node, CC.Office(n, asked, started);
            && (a.Submit? && n' != n ==>
                  n' == CC.Serve(env.digest, x, o, CC.Command(a.clientID, a.seqNum, a.data, env.app.save(w.peers[x].sm))).node)
            && (a.Replicate? && GetAppendEntriesArgs(n, a.to).1.Some? ==> n' == CC.Serve(env.digest, x, o, CC.Ask(a.to)).node)
            && (a.Commit? ==> n' == CC.Serve(env.digest, x, o, CC.CommitMore).node)
  {
  }

  lemma OthersStay<S>(env: Setting<S>, w: World<S>, a: Action, x: ServerID)
    requires x in w.peers && (Enabled(w, a) ==> Actor(a) != x)
    ensures x in Step(env, w, a).peers && Step(env, w, a).peers[x] == w.peers[x]
  {
  }

  /** What is in flight is what the chain asks of it. */
  lemma GoodInFlight<S>(env: Setting<S>, w: World<S>, h: C.History, a: Action)
    requires WorldOk(env, w, h) && Enabled(w, a) && Follows(a) && Actor(a) in w.peers
    ensures GoodOp(OpOf(env, w, a))
  {
    if a.AppendRequest? {
      RequestOf(AbsState(w, h), a.ap);
    } else if a.InstallRequest? {
      CargoOf(AbsState(w, h), a.ins);
    }
  }

  lemma StepLinks<S>(env: Setting<S>, w: World<S>, h: C.History, a: Action, x: ServerID)
    requires WorldOk(env, w, h) && x in w.peers && Linked(env.digest, w.peers[x].node)
    requires Actor(a) == x ==> Follows(a)
    ensures x in Step(env, w, a).peers && Linked(env.digest, Step(env, w, a).peers[x].node)
  {
    if Enabled(w, a) && Actor(a) == x {
      PeerAt(env, w, h, x);
      ActionPerforms(env, w, a);
      GoodInFlight(env, w, h, a);
      PerformLinks(env.digest, w.peers[x].node, x, OpOf(env, w, a));
    } else {
      OthersStay(env, w, a, x);
    }
  }

  lemma {:induction false} RunLinks<S(!new)>(env: Setting<S>, w: World<S>, h: C.History, actions: seq<Action>, x: ServerID)
    requires WorldOk(env, w, h) && Faithful(env.app) && x in w.peers && Linked(env.digest, w.peers[x].node)
    requires forall a :: a in actions && Actor(a) == x ==> Follows(a)
    ensures x in Run(env, w, actions).peers && Linked(env.digest, Run(env, w, actions).peers[x].node)
    decreases |actions|
  {
    if actions != [] {
      StepLinks(env, w, h, actions[0], x);
      StepOk(env, w, h, actions[0]);
      RunLinks(env, Step(env, w, actions[0]), C.Execute(AbsState(w, h), Lower(env, w, actions[0])).h, actions[1..], x);
    }
  }

  /** In every run a node that has neither stood for election nor crashed has an unbroken chain, whoever
      led, and whatever was truncated, compacted and installed: each hash covers its entry and the hash
      before it. */
  lemma ChainInEveryRun<S(!new)>(env: Setting<S>, servers: set<ServerID>, actions: seq<Action>, x: ServerID)
    requires Faithful(env.app) && x in servers
    requires forall a :: a in actions && Actor(a) == x ==> Follows(a)
    ensures var w := Run(env, Boot(env, servers), actions);
            x in w.peers && Linked(env.digest, w.peers[x].node)
  {
    BootOk(env, servers);
    RunLinks(env, Boot(env, servers), C.Start(servers).h, actions, x);
  }
}
