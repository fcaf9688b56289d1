/** Submission, replication, commit and apply of the array cluster as steps over unbounded logs. */
module LogSimulation {
  import opened Types
  import opened Agreement
  import opened Replica
  import opened Guards
  import opened Application
  import opened ArrayCluster
  import opened Refinement
  import opened MergeRefinement
  import opened HandlerRefinement
  import opened Simulation
  import C = Cluster

  lemma PutTwice(s: C.State, x: ServerID, n: C.Server, n': C.Server)
    ensures C.Put(C.Put(s, x, n), x, n') == C.Put(s, x, n')
  {
    assert s.nodes[x := n][x := n'] == s.nodes[x := n'];
  }

  lemma PutSame(s: C.State, x: ServerID, n: C.Server)
    requires x in s.nodes && s.nodes[x] == n
    ensures C.Put(s, x, n) == s
  {
    assert s.nodes[x := n] == s.nodes;
  }

  // ---- submission ----

  function SubmitPeer<S>(env: Setting<S>, p: Peer<S>, x: ServerID, clientID: Bytes, seqNum: int, data: Bytes): Peer<S>
    requires |p.node.logs| == |p.node.hashes|
  {
    Save(Moved(p, AddCommandLog(env.digest, p.node, x, clientID, seqNum, data, env.app.save(p.sm)).0))
  }

  function Added(s: C.Server, x: ServerID, entry: RaftLog): C.Server {
    s.(log := s.log + [entry], matchIndex := s.matchIndex[x := entry.index])
  }

  function Shrunk(s: C.Server, compact: bool): C.Server {
    if compact then s.(base := s.applied + 1) else s
  }

  lemma SubmitMoves<S>(
      env: Setting<S>, servers: set<ServerID>, p: Peer<S>, x: ServerID, clientID: Bytes, seqNum: int, data: Bytes)
    requires PeerOk(env.app, servers, p) && !Stuck(p.node)
    ensures var p' := SubmitPeer(env, p, x, clientID, seqNum, data);
            var entry := CommandEntry(p.node, clientID, seqNum, data);
            && entry.index == |p.log| && entry.term == p.node.currentTerm
            && Local(servers, p') && Steady(env.app, p, p')
            && AbsPeer(p') == Added(Shrunk(AbsPeer(p), !Room(p.node)), x, entry)
  {
    var entry := CommandEntry(p.node, clientID, seqNum, data);
    var n' := AddCommandLog(env.digest, p.node, x, clientID, seqNum, data, env.app.save(p.sm)).0;
    LastOfFull(p.node, p.log);
    SubmitRefines(env.digest, p.node, p.log, p.voters, x, clientID, seqNum, data, env.app.save(p.sm));
    assert Abs(n', p.log + [entry], p.voters) == Added(Shrunk(AbsPeer(p), !Room(p.node)), x, entry);
    MovedPeer(env.app, servers, p, n', p.log + [entry], p.voters, SubmitPeer(env, p, x, clientID, seqNum, data));
  }

  lemma SubmitAt(s: C.State, x: ServerID, n: C.Server, entry: RaftLog, compact: bool)
    requires x in s.nodes && s.nodes[x] == n && n.role == Leader
    requires entry.index == |n.log| && entry.term == n.term && (compact ==> n.base <= n.applied)
    ensures compact ==> C.CanCompact(s, x)
    ensures var s1 := if compact then C.DoCompact(s, x) else s;
            && C.CanClientAppend(s1, x, entry)
            && var s' := C.DoClientAppend(s1, x, entry);
               s' == C.Put(s, x, Added(Shrunk(n, compact), x, entry)).(h := s'.h)
  {
    if compact {
      PutTwice(s, x, Shrunk(n, true), Added(Shrunk(n, true), x, entry));
    }
  }

  /** The unbounded cluster's state after a submission. */
  function Submitted(s: C.State, x: ServerID, entry: RaftLog, compact: bool): C.State
    requires C.CanClientAppend(s, x, entry) && (compact ==> C.CanCompact(s, x))
  {
    C.DoClientAppend(if compact then C.DoCompact(s, x) else s, x, entry)
  }

  lemma SubmitExecutes(s: C.State, x: ServerID, entry: RaftLog, compact: bool)
    requires C.CanClientAppend(s, x, entry) && (compact ==> C.CanCompact(s, x))
    ensures var add := C.ClientAppend(x, entry);
            C.Execute(s, if compact then [C.Compact(x), add] else [add]) == Submitted(s, x, entry, compact)
  {
    if compact {
      ExecuteTwo(s, C.Compact(x), C.ClientAppend(x, entry));
    } else {
      ExecuteOne(s, C.ClientAppend(x, entry));
    }
  }

  lemma SubmitSim<S>(
      env: Setting<S>, w: World<S>, h: C.History, x: ServerID, clientID: Bytes, seqNum: int, data: Bytes)
    requires Leads(w, x) && PeerOk(env.app, w.servers, w.peers[x]) && !Stuck(w.peers[x].node)
    ensures var s, n := AbsState(w, h), w.peers[x].node;
            var entry := CommandEntry(n, clientID, seqNum, data);
            && C.CanClientAppend(s, x, entry) && (!Room(n) ==> C.CanCompact(s, x))
            && var s' := Submitted(s, x, entry, !Room(n));
               AbsState(DoSubmit(env, w, x, clientID, seqNum, data), s'.h) == s'
  {
    var p, s := w.peers[x], AbsState(w, h);
    var entry, p' := CommandEntry(p.node, clientID, seqNum, data), SubmitPeer(env, p, x, clientID, seqNum, data);
    ImageOf(w, h, x);
    SubmitMoves(env, w.servers, p, x, clientID, seqNum, data);
    SavedImage(p);
    SubmitAt(s, x, AbsPeer(p), entry, !Room(p.node));
    SubmitRefines(env.digest, p.node, p.log, p.voters, x, clientID, seqNum, data, env.app.save(p.sm));
    Mirror(w, h, x, p', w.net, Submitted(s, x, entry, !Room(p.node)));
  }

  lemma StuckSim<S>(
      env: Setting<S>, w: World<S>, x: ServerID, clientID: Bytes, seqNum: int, data: Bytes)
    requires Leads(w, x) && PeerOk(env.app, w.servers, w.peers[x]) && Stuck(w.peers[x].node)
    ensures DoSubmit(env, w, x, clientID, seqNum, data) == w
  {
    var p := w.peers[x];
    SubmitRefines(env.digest, p.node, p.log, p.voters, x, clientID, seqNum, data, env.app.save(p.sm));
  }

  // ---- requests ----

  lemma RequestNoConfig(n: Node, id: ServerID)
    requires NoConfig(n.logs)
    ensures var args := GetAppendEntriesArgs(n, id).1; args.Some? ==> NoConfig(args.value.entries)
  {
  }

  lemma ReplicateMoves<S>(app: App<S>, servers: set<ServerID>, p: Peer<S>, p': Peer<S>, to: ServerID)
    requires PeerOk(app, servers, p) && p' == p.(node := GetAppendEntriesArgs(p.node, to).0)
    ensures PeerOk(app, servers, p') && AbsPeer(p') == AbsPeer(p)
  {
    RequestRefines(p.node, p.log, to);
  }

  lemma ReplicateSim<S>(env: Setting<S>, w: World<S>, h: C.History, x: ServerID, to: ServerID)
    requires Leads(w, x) && PeerOk(env.app, w.servers, w.peers[x])
    requires GetAppendEntriesArgs(w.peers[x].node, to).1.Some?
    ensures var s, m := AbsState(w, h), C.AppendReq(x, to, GetAppendEntriesArgs(w.peers[x].node, to).1.value);
            && C.CanSendAppend(s, x, m)
            && AbsState(DoReplicate(w, x, to), h) == C.DoSendAppend(s, m)
  {
    var p, s := w.peers[x], AbsState(w, h);
    var out := GetAppendEntriesArgs(p.node, to);
    var m := C.AppendReq(x, to, out.1.value);
    var p' := p.(node := out.0);
    ImageOf(w, h, x);
    RequestRefines(p.node, p.log, to);
    ReplicateMoves(env.app, w.servers, p, p', to);
    SavedImage(p);
    PutSame(s, x, AbsPeer(p));
    Mirror(w, h, x, p', w.net.(appends := w.net.appends + {m}), C.DoSendAppend(s, m));
  }

  // ---- delivery of a request ----

  lemma {:induction false} MergeKeeps(log: seq<RaftLog>, start: nat, entries: seq<RaftLog>)
    requires start <= |log|
    ensures Agree(log, Merge(log, start, entries), start)
    decreases |entries|
  {
    if entries != [] && start < |log| && SameIdTerm(log[start], entries[0]) {
      MergeKeeps(log, start + 1, entries[1..]);
    }
  }

  function Delivered(s: C.Server, args: AppendEntriesArgs, full: bool, compact: bool): C.Server {
    Shrunk(Received(s, args, full), compact)
  }

  lemma FollowKeeps(s: C.Server, args: AppendEntriesArgs, full: bool)
    requires 0 <= s.base <= |s.log|
    ensures Agree(s.log, Received(s, args, full).log, s.base)
  {
    if s.term <= args.term && C.AcceptsAppend(s, args, full) {
      var n := C.Adopt(s, args.term).(role := Follower);
      MergeKeeps(s.log, C.MergeStart(n, args), C.MergeRest(n, args));
    }
  }

  /** Guard G7: in the cluster, requests carry no membership changes. */
  ghost predicate StaticRequest(aea: AppendEntriesArgs) {
    GoodRequest(aea) && NoConfig(aea.entries)
  }

  lemma AppendNode(
      digest: Digest, n: Node, log: seq<RaftLog>, voters: set<ServerID>, id: ServerID, aea: AppendEntriesArgs,
      gameState: Bytes)
      returns (n': Node, s': C.Server)
    requires Rep(n, log) && StaticRequest(aea) && NoConfig(n.logs) && Settled(n)
    ensures n' == GuardedAppend(digest, n, id, aea, gameState).0
    ensures s' == Delivered(Abs(n, log, voters), aea, ArrayFull(n, aea), Compacts(n, Abs(n, log, voters), aea))
    ensures Fits(n', s'.log) && Abs(n', s'.log, voters) == s' && NoConfig(n'.logs) && n'.config == n.config
    ensures Compacts(n, Abs(n, log, voters), aea) ==>
              s'.log == log && n'.lastSnapshot.Some? && n'.lastSnapshot.value.data == gameState
    ensures !Compacts(n, Abs(n, log, voters), aea) ==> n'.lastSnapshot == n.lastSnapshot
  {
    var s, full := Abs(n, log, voters), ArrayFull(n, aea);
    n' := GuardedAppend(digest, n, id, aea, gameState).0;
    s' := Delivered(s, aea, full, Compacts(n, s, aea));
    if n.currentTerm > aea.term {
      StaleRequest(digest, n, id, aea, gameState);
    } else if C.PrevMatches(s, aea) && !full {
      AcceptRefines(digest, n, log, voters, id, aea, gameState);
      AcceptKeepsConfig(digest, n, log, voters, id, aea, gameState);
    } else {
      RefuseRefines(digest, n, log, voters, id, aea, gameState);
    }
  }

  lemma StaleRequest(digest: Digest, n: Node, id: ServerID, aea: AppendEntriesArgs, gameState: Bytes)
    requires |n.logs| == |n.hashes| && aea.term < n.currentTerm
    ensures GuardedAppend(digest, n, id, aea, gameState) ==
            (n, AppendEntriesResponse(id, n.currentTerm, false, LastIdx(n)))
  {
  }

  lemma AppendAnswer(
      digest: Digest, n: Node, log: seq<RaftLog>, voters: set<ServerID>, id: ServerID, aea: AppendEntriesArgs,
      gameState: Bytes)
    requires Rep(n, log) && GoodRequest(aea)
    ensures var resp, s := GuardedAppend(digest, n, id, aea, gameState).1, Abs(n, log, voters);
            resp == AppendEntriesResponse(id, C.Adopt(s, aea.term).term, C.AcceptsAppend(s, aea, ArrayFull(n, aea)), LastIdx(n))
  {
    if n.currentTerm > aea.term {
      StaleRequest(digest, n, id, aea, gameState);
    } else if C.PrevMatches(Abs(n, log, voters), aea) && !ArrayFull(n, aea) {
      AcceptRefines(digest, n, log, voters, id, aea, gameState);
    } else {
      RefuseRefines(digest, n, log, voters, id, aea, gameState);
    }
  }

  function AppendPeer<S>(env: Setting<S>, p: Peer<S>, x: ServerID, args: AppendEntriesArgs): Peer<S>
    requires |p.node.logs| == |p.node.hashes|
  {
    Save(Moved(p, GuardedAppend(env.digest, p.node, x, args, env.app.save(p.sm)).0))
  }

  lemma AppendMoves<S>(env: Setting<S>, servers: set<ServerID>, p: Peer<S>, x: ServerID, args: AppendEntriesArgs)
    requires PeerOk(env.app, servers, p) && StaticRequest(args)
    ensures var p' := AppendPeer(env, p, x, args);
            && Local(servers, p') && Steady(env.app, p, p')
            && AbsPeer(p') == Delivered(AbsPeer(p), args, ArrayFull(p.node, args), Compacts(p.node, AbsPeer(p), args))
  {
    var n', s' := AppendNode(env.digest, p.node, p.log, p.voters, x, args, env.app.save(p.sm));
    FollowKeeps(AbsPeer(p), args, ArrayFull(p.node, args));
    MovedPeer(env.app, servers, p, n', s'.log, p.voters, AppendPeer(env, p, x, args));
  }

  /** The unbounded cluster's state after a delivery. */
  function DeliveredState(s: C.State, m: C.AppendReq, rep: C.AppendRep, full: bool, compact: bool): C.State
    requires C.CanDeliverAppend(s, m, rep, full)
  {
    var s1 := C.DoAppend(s, m, rep, full);
    if compact && C.CanCompact(s1, m.to) then C.DoCompact(s1, m.to) else s1
  }

  lemma DeliverAt(s: C.State, m: C.AppendReq, rep: C.AppendRep, full: bool, compact: bool, n: C.Server)
    requires C.CanDeliverAppend(s, m, rep, full) && s.nodes[m.to] == n
    requires compact ==> n.term <= m.args.term && full && n.base <= n.applied
    ensures compact ==> C.CanCompact(C.DoAppend(s, m, rep, full), m.to)
    ensures var s' := DeliveredState(s, m, rep, full, compact);
            s' == C.Put(s, m.to, Delivered(n, m.args, full, compact)).(
                    net := s.net.(appendReps := s.net.appendReps + {rep}), h := s'.h)
  {
    PutSame(s, m.to, n);
    if compact {
      PutTwice(s, m.to, Received(n, m.args, full), Delivered(n, m.args, full, true));
    }
  }

  lemma DeliverExecutes(s: C.State, m: C.AppendReq, rep: C.AppendRep, full: bool, compact: bool)
    requires C.CanDeliverAppend(s, m, rep, full)
    requires compact ==> C.CanCompact(C.DoAppend(s, m, rep, full), m.to)
    ensures var deliver := C.DeliverAppend(m, rep, full);
            C.Execute(s, if compact then [deliver, C.Compact(m.to)] else [deliver]) ==
            DeliveredState(s, m, rep, full, compact)
  {
    if compact {
      ExecuteTwo(s, C.DeliverAppend(m, rep, full), C.Compact(m.to));
    } else {
      ExecuteOne(s, C.DeliverAppend(m, rep, full));
    }
  }

  lemma AppendSim<S>(env: Setting<S>, w: World<S>, h: C.History, m: C.AppendReq, rep: C.AppendRep)
    requires m in w.net.appends && Present(w, m.to) && PeerOk(env.app, w.servers, w.peers[m.to]) && StaticRequest(m.args)
    requires var p := w.peers[m.to];
             rep == C.AppendRep(m.from, GuardedAppend(env.digest, p.node, m.to, m.args, env.app.save(p.sm)).1, C.Covers(m.args))
    ensures var s, p := AbsState(w, h), w.peers[m.to];
            var full := ArrayFull(p.node, m.args);
            && C.CanDeliverAppend(s, m, rep, full)
            && (Compacts(p.node, AbsPeer(p), m.args) ==> C.CanCompact(C.DoAppend(s, m, rep, full), m.to))
            && var s' := DeliveredState(s, m, rep, full, Compacts(p.node, AbsPeer(p), m.args));
               AbsState(DoAppendRequest(env, w, m), s'.h) == s'
  {
    var p, s := w.peers[m.to], AbsState(w, h);
    var full, compact := ArrayFull(p.node, m.args), Compacts(p.node, AbsPeer(p), m.args);
    ImageOf(w, h, m.to);
    AppendAnswer(env.digest, p.node, p.log, p.voters, m.to, m.args, env.app.save(p.sm));
    AppendMoves(env, w.servers, p, m.to, m.args);
    SavedImage(p);
    DeliverAt(s, m, rep, full, compact, AbsPeer(p));
    Mirror(w, h, m.to, AppendPeer(env, p, m.to, m.args), w.net.(appendReps := w.net.appendReps + {rep}),
           DeliveredState(s, m, rep, full, compact));
  }

  // ---- replies ----

  function AppendReplyPeer<S>(p: Peer<S>, r: C.AppendRep): Peer<S> {
    p.(node := GuardedAppendReply(p.node, r.resp, r.covered))
  }

  function Credited(s: C.Server, id: ServerID, success: bool, term: int, idx: int): C.Server {
    if !success || term != s.term then s else s.(matchIndex := s.matchIndex[id := idx])
  }

  lemma AppendReplyMoves<S>(app: App<S>, servers: set<ServerID>, p: Peer<S>, r: C.AppendRep)
    requires PeerOk(app, servers, p) && !Deposes(p.node, r.resp.success, r.resp.term)
    ensures var p' := AppendReplyPeer(p, r);
            && PeerOk(app, servers, p')
            && AbsPeer(p') == Credited(AbsPeer(p), r.resp.id, r.resp.success, r.resp.term, r.covered)
  {
    AppendReplyRefines(p.node, p.log, p.voters, r);
    KeptPeer(app, servers, p, GuardedAppendReply(p.node, r.resp, r.covered), p.voters, AppendReplyPeer(p, r));
  }

  lemma AppendReplyDeposes<S>(app: App<S>, servers: set<ServerID>, p: Peer<S>, r: C.AppendRep)
    requires PeerOk(app, servers, p) && Deposes(p.node, r.resp.success, r.resp.term)
    ensures var p' := AppendReplyPeer(p, r);
            && PeerFine(app, servers, p') && p'.disk.state != Persistent(p'.node)
            && DiskImage(p') == AbsPeer(p).(role := Follower)
  {
    DeposedPeer(app, servers, p, GuardedAppendReply(p.node, r.resp, r.covered), AppendReplyPeer(p, r));
  }

  lemma AppendReplySim<S>(app: App<S>, w: World<S>, h: C.History, r: C.AppendRep)
    requires r in w.net.appendReps && Leads(w, r.to) && PeerOk(app, w.servers, w.peers[r.to])
    requires !Deposes(w.peers[r.to].node, r.resp.success, r.resp.term)
    ensures C.CanDeliverAppendRep(AbsState(w, h), r)
    ensures AbsState(DoAppendReply(w, r), h) == C.DoAppendRep(AbsState(w, h), r)
  {
    var p, s := w.peers[r.to], AbsState(w, h);
    ImageOf(w, h, r.to);
    SavedImage(p);
    AppendReplyMoves(app, w.servers, p, r);
    SavedImage(AppendReplyPeer(p, r));
    PutSame(s, r.to, AbsPeer(p));
    Mirror(w, h, r.to, AppendReplyPeer(p, r), w.net, C.DoAppendRep(s, r));
  }

  /** A newer term deposes the leader, and is not saved. */
  lemma AppendReplyDeposed<S>(app: App<S>, w: World<S>, h: C.History, r: C.AppendRep)
    requires Leads(w, r.to) && PeerOk(app, w.servers, w.peers[r.to])
    requires Deposes(w.peers[r.to].node, r.resp.success, r.resp.term)
    ensures C.CanYield(AbsState(w, h), r.to)
    ensures AbsState(DoAppendReply(w, r), h) ==
            C.DoYield(AbsState(w, h), r.to, w.peers[r.to].node.electionVotes)
  {
    var p, s := w.peers[r.to], AbsState(w, h);
    ImageOf(w, h, r.to);
    SavedImage(p);
    AppendReplyDeposes(app, w.servers, p, r);
    Mirror(w, h, r.to, AppendReplyPeer(p, r), w.net, C.DoYield(s, r.to, p.node.electionVotes));
  }

  // ---- commit ----

  lemma CommitMoves<S>(app: App<S>, servers: set<ServerID>, p: Peer<S>, p': Peer<S>)
    requires PeerOk(app, servers, p) && p' == p.(node := CheckCommits(p.node))
    ensures PeerOk(app, servers, p') && AbsPeer(p') == AbsPeer(p).(commit := p'.node.commitIndex)
  {
    CommitIsOptimal(p.node, p.log);
  }

  lemma CommitSim<S>(app: App<S>, w: World<S>, h: C.History, x: ServerID)
    requires Leads(w, x) && PeerOk(app, w.servers, w.peers[x])
    ensures var s, n := AbsState(w, h), w.peers[x].node;
            var c := CheckCommits(n).commitIndex;
            if c > n.commitIndex then
              C.CanAdvanceCommit(s, x, c) && var s' := C.DoAdvanceCommit(s, x, c); AbsState(DoCommit(w, x), s'.h) == s'
            else AbsState(DoCommit(w, x), h) == s
  {
    var p, s := w.peers[x], AbsState(w, h);
    var c, p' := CheckCommits(p.node).commitIndex, p.(node := CheckCommits(p.node));
    ImageOf(w, h, x);
    CommitIsOptimal(p.node, p.log);
    CommitMoves(app, w.servers, p, p');
    SavedImage(p);
    SavedImage(p');
    if c > p.node.commitIndex {
      assert HoldersOf(p.node.matchIndex, c) == C.Replicated(AbsPeer(p), c);
      Mirror(w, h, x, p', w.net, C.DoAdvanceCommit(s, x, c));
    } else {
      PutSame(s, x, AbsPeer(p));
      Mirror(w, h, x, p', w.net, s);
    }
  }

  // ---- apply ----

  lemma ApplyMoves<S>(env: Setting<S>, servers: set<ServerID>, p: Peer<S>, p': Peer<S>)
    requires PeerOk(env.app, servers, p) && p.node.lastApplied < p.node.commitIndex
    requires UpdateLastApplied(p.node).1 >= 0
    requires var out := UpdateLastApplied(p.node);
             p' == p.(node := out.0, sm := ApplyEntry(env.app, p.sm, p.node.logs[out.1]))
    ensures PeerOk(env.app, servers, p') && AbsPeer(p') == AbsPeer(p).(applied := p.node.lastApplied + 1)
  {
    ApplyRefines(p.node, p.log);
  }

  lemma ApplySim<S>(env: Setting<S>, w: World<S>, h: C.History, x: ServerID)
    requires Present(w, x) && PeerOk(env.app, w.servers, w.peers[x])
    ensures var s, n := AbsState(w, h), w.peers[x].node;
            if n.lastApplied < n.commitIndex then
              C.CanApply(s, x) && AbsState(DoApplyOne(env, w, x), h) == C.DoApply(s, x)
            else DoApplyOne(env, w, x) == w
  {
    var p, s := w.peers[x], AbsState(w, h);
    ImageOf(w, h, x);
    ApplyRefines(p.node, p.log);
    if p.node.lastApplied < p.node.commitIndex {
      var out := UpdateLastApplied(p.node);
      var p' := p.(node := out.0, sm := ApplyEntry(env.app, p.sm, p.node.logs[out.1]));
      ApplyMoves(env, w.servers, p, p');
      SavedImage(p);
      Mirror(w, h, x, p', w.net, C.DoApply(s, x));
    }
  }
}
