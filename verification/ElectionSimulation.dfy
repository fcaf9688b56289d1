/** Elections and votes of the array cluster as steps over unbounded logs. */
module ElectionSimulation {
  import opened Types
  import opened Replica
  import opened Guards
  import opened Application
  import opened ArrayCluster
  import opened Refinement
  import opened MergeRefinement
  import opened Simulation
  import C = Cluster

  // ---- winning ----

  lemma WinKeeps(digest: Digest, n: Node, id: ServerID)
    requires |n.logs| == |n.hashes| && NoConfig(n.logs)
    ensures var n' := GuardedWin(digest, n, id);
            && n'.config == n.config && n'.lastSnapshot == n.lastSnapshot && n'.lastApplied == n.lastApplied
            && NoConfig(n'.logs)
  {
  }

  // ---- the timer ----

  lemma SameVoteRequests(x: ServerID, n: Node, log: seq<RaftLog>, voters: set<ServerID>, servers: set<ServerID>)
    requires Rep(n, log)
    ensures VoteRequests(x, n, servers) == C.VoteRequests(x, Abs(n, log, voters), servers)
  {
    LastOfFull(n, log);
  }

  function TimedOut(s: C.Server, x: ServerID): C.Server {
    s.(term := s.term + 1, role := Candidate, votedFor := Some(x), votes := 1, voters := {x})
  }

  /** The peer after its timer fired. */
  function TimeoutPeer<S>(env: Setting<S>, p: Peer<S>, x: ServerID, alone: bool): Peer<S>
    requires |p.node.logs| == |p.node.hashes|
  {
    var n := StartElection(p.node, x);
    Save(Moved(p, if alone then GuardedWin(env.digest, n, x) else n).(voters := {x}))
  }

  lemma TimeoutNode(digest: Digest, n0: Node, log: seq<RaftLog>, voters: set<ServerID>, x: ServerID, alone: bool, n: Node)
      returns (n': Node, s': C.Server)
    requires Rep(n0, log) && n == StartElection(n0, x)
    ensures n' == if alone then GuardedWin(digest, n, x) else n
    ensures Rep(n, log) && Abs(n, log, {x}) == TimedOut(Abs(n0, log, voters), x)
    ensures var s := TimedOut(Abs(n0, log, voters), x); s' == if alone then C.Crown(x, s, Room(n)) else s
    ensures Rep(n', s'.log) && Abs(n', s'.log, {x}) == s'
  {
    n' := if alone then GuardedWin(digest, n, x) else n;
    s' := TimedOut(Abs(n0, log, voters), x);
    if alone {
      WinRefines(digest, n, log, {x}, x);
      s' := C.Crown(x, s', Room(n));
    }
  }

  lemma TimeoutMoves<S>(env: Setting<S>, servers: set<ServerID>, p: Peer<S>, x: ServerID, alone: bool, n: Node)
    requires PeerOk(env.app, servers, p) && n == StartElection(p.node, x)
    ensures Rep(n, p.log) && Abs(n, p.log, {x}) == TimedOut(AbsPeer(p), x)
    ensures var p' := TimeoutPeer(env, p, x, alone);
            && Local(servers, p') && Steady(env.app, p, p')
            && AbsPeer(p') ==
               if alone then C.Crown(x, TimedOut(AbsPeer(p), x), Room(n)) else TimedOut(AbsPeer(p), x)
  {
    var n', s' := TimeoutNode(env.digest, p.node, p.log, p.voters, x, alone, n);
    if alone {
      WinKeeps(env.digest, n, x);
    }
    MovedPeer(env.app, servers, p, n', s'.log, {x}, TimeoutPeer(env, p, x, alone));
  }

  lemma TimeoutAt<S>(p: Peer<S>, s: C.State, x: ServerID, n: Node, p': Peer<S>)
    requires C.CanTimeout(s, x) && s.nodes[x] == AbsPeer(p) && Rep(n, p.log)
    requires Abs(n, p.log, {x}) == TimedOut(AbsPeer(p), x) && AbsPeer(p') == TimedOut(AbsPeer(p), x)
    ensures var s' := C.DoTimeout(s, x);
            s' == C.Put(s, x, AbsPeer(p')).(
                    net := s.net.(voteReqs := s.net.voteReqs + VoteRequests(x, n, s.servers)), h := s'.h)
  {
    SameVoteRequests(x, n, p.log, {x}, s.servers);
  }

  lemma TimeoutSim<S>(env: Setting<S>, w: World<S>, h: C.History, x: ServerID)
    requires Present(w, x) && w.peers[x].node.role != Leader && PeerOk(env.app, w.servers, w.peers[x]) && !Alone(w, x)
    ensures x in AbsState(w, h).nodes && C.CanTimeout(AbsState(w, h), x)
    ensures var s := C.DoTimeout(AbsState(w, h), x);
            AbsState(DoTimeout(env, w, x), s.h) == s
  {
    var p, n := w.peers[x], StartElection(w.peers[x].node, x);
    var p', s := TimeoutPeer(env, p, x, false), AbsState(w, h);
    ImageOf(w, h, x);
    TimeoutMoves(env, w.servers, p, x, false, n);
    SavedImage(p);
    TimeoutAt(p, s, x, n, p');
    Mirror(w, h, x, p', w.net.(voteReqs := w.net.voteReqs + VoteRequests(x, n, w.servers)), C.DoTimeout(s, x));
  }

  lemma NoOneElse(x: ServerID, n: Node)
    ensures VoteRequests(x, n, {x}) == {}
  {
  }

  lemma AloneAt<S>(p: Peer<S>, s: C.State, x: ServerID, room: bool, p': Peer<S>)
    requires C.CanTimeout(s, x) && s.nodes[x] == AbsPeer(p) && s.servers == {x}
    requires AbsPeer(p') == C.Crown(x, TimedOut(AbsPeer(p), x), room)
    ensures C.CanWinAlone(C.DoTimeout(s, x), x)
    ensures var s' := C.DoWinAlone(C.DoTimeout(s, x), x, room);
            s' == C.Put(s, x, AbsPeer(p')).(h := s'.h)
  {
    var s1 := C.DoTimeout(s, x);
    assert s1.net == s.net by {
      assert C.VoteRequests(x, TimedOut(AbsPeer(p), x), s.servers) == {};
      assert s.net.voteReqs + {} == s.net.voteReqs;
    }
    assert s1.nodes[x] == TimedOut(AbsPeer(p), x);
  }

  lemma AloneExecutes(s: C.State, x: ServerID, room: bool)
    requires C.CanTimeout(s, x) && C.CanWinAlone(C.DoTimeout(s, x), x)
    ensures C.Execute(s, [C.Timeout(x), C.WinAlone(x, room)]) == C.DoWinAlone(C.DoTimeout(s, x), x, room)
  {
    ExecuteTwo(s, C.Timeout(x), C.WinAlone(x, room));
  }

  lemma AloneSim<S>(env: Setting<S>, w: World<S>, h: C.History, x: ServerID)
    requires Present(w, x) && w.peers[x].node.role != Leader && PeerOk(env.app, w.servers, w.peers[x]) && Alone(w, x)
    ensures x in AbsState(w, h).nodes && C.CanTimeout(AbsState(w, h), x)
    ensures C.CanWinAlone(C.DoTimeout(AbsState(w, h), x), x)
    ensures var s := C.DoWinAlone(C.DoTimeout(AbsState(w, h), x), x, Room(w.peers[x].node));
            AbsState(DoTimeout(env, w, x), s.h) == s
  {
    var p, n := w.peers[x], StartElection(w.peers[x].node, x);
    var p', s := TimeoutPeer(env, p, x, true), AbsState(w, h);
    ImageOf(w, h, x);
    TimeoutMoves(env, w.servers, p, x, true, n);
    SavedImage(p);
    AloneAt(p, s, x, Room(p.node), p');
    AloneIs(env, w, x);
    Mirror(w, h, x, p', w.net, C.DoWinAlone(C.DoTimeout(s, x), x, Room(p.node)));
  }

  lemma AloneIs<S>(env: Setting<S>, w: World<S>, x: ServerID)
    requires Present(w, x) && Alone(w, x)
    ensures DoTimeout(env, w, x) == ArrayCluster.Put(w, x, TimeoutPeer(env, w.peers[x], x, true)).(net := w.net)
  {
    NoOneElse(x, StartElection(w.peers[x].node, x));
    assert w.net.voteReqs + {} == w.net.voteReqs;
  }

  // ---- a vote request ----

  function VotePeer<S>(p: Peer<S>, x: ServerID, args: RequestVoteArgs): Peer<S> {
    Save(Moved(p, GuardedVote(p.node, x, args).0))
  }

  function Voted(s: C.Server, args: RequestVoteArgs): C.Server {
    var a := C.Adopt(s, args.term);
    if C.GrantsVote(a, args) then a.(role := Follower, votedFor := Some(args.candidateID)) else a
  }

  lemma VoteNode(n: Node, log: seq<RaftLog>, voters: set<ServerID>, x: ServerID, args: RequestVoteArgs) returns (n': Node)
    requires Rep(n, log)
    ensures n' == GuardedVote(n, x, args).0
    ensures Rep(n', log) && Abs(n', log, voters) == Voted(Abs(n, log, voters), args)
    ensures n' == n.(currentTerm := n'.currentTerm, votedFor := n'.votedFor, role := n'.role,
                     currentLeader := n'.currentLeader)
  {
    n' := GuardedVote(n, x, args).0;
    VoteRefines(n, log, voters, x, args);
  }

  lemma VoteMoves<S>(app: App<S>, servers: set<ServerID>, p: Peer<S>, x: ServerID, args: RequestVoteArgs)
    requires PeerOk(app, servers, p)
    ensures var p' := VotePeer(p, x, args);
            Local(servers, p') && Steady(app, p, p') && AbsPeer(p') == Voted(AbsPeer(p), args)
  {
    var n' := VoteNode(p.node, p.log, p.voters, x, args);
    MovedPeer(app, servers, p, n', p.log, p.voters, VotePeer(p, x, args));
  }

  lemma VoteAt<S>(p: Peer<S>, s: C.State, m: C.VoteReq, p': Peer<S>)
    requires C.CanDeliverVoteReq(s, m) && s.nodes[m.to] == AbsPeer(p) && Rep(p.node, p.log)
    requires AbsPeer(p') == Voted(AbsPeer(p), m.args)
    ensures var s', out := C.DoVoteReq(s, m), GuardedVote(p.node, m.to, m.args);
            s' == C.Put(s, m.to, AbsPeer(p')).(
                    net := s.net.(voteReqs := s.net.voteReqs - {m},
                                  voteReps := s.net.voteReps + {C.VoteRep(m.args.candidateID, out.1)}), h := s'.h)
  {
    VoteRefines(p.node, p.log, p.voters, m.to, m.args);
  }

  lemma VoteSim<S>(app: App<S>, w: World<S>, h: C.History, m: C.VoteReq)
    requires m in w.net.voteReqs && Present(w, m.to) && PeerOk(app, w.servers, w.peers[m.to])
    ensures C.CanDeliverVoteReq(AbsState(w, h), m)
    ensures var s := C.DoVoteReq(AbsState(w, h), m);
            AbsState(DoVoteRequest(w, m), s.h) == s
  {
    var p, s := w.peers[m.to], AbsState(w, h);
    ImageOf(w, h, m.to);
    VoteMoves(app, w.servers, p, m.to, m.args);
    SavedImage(p);
    VoteAt(p, s, m, VotePeer(p, m.to, m.args));
    Mirror(w, h, m.to, VotePeer(p, m.to, m.args), DoVoteRequest(w, m).net, C.DoVoteReq(s, m));
  }

  // ---- a vote reply ----

  function ReplyPeer<S>(env: Setting<S>, p: Peer<S>, x: ServerID, resp: RequestVoteResponse): Peer<S>
    requires |p.node.logs| == |p.node.hashes|
  {
    var out := UpdateElection(p.node, resp);
    var voters := if resp.term == p.node.currentTerm && resp.voteGranted then p.voters + {resp.id} else p.voters;
    if out.1 then Save(Moved(p, GuardedWin(env.digest, out.0, x)).(voters := voters))
    else p.(node := out.0, voters := voters)
  }

  /** What a reply makes of a candidate. */
  function Counted(s: C.Server, x: ServerID, resp: RequestVoteResponse, servers: set<ServerID>, room: bool): C.Server {
    if resp.term == s.term && resp.voteGranted then
      var c := s.(votes := s.votes + 1, voters := s.voters + {resp.id});
      if c.votes > |servers| / 2 then C.Crown(x, c, room) else c
    else s
  }

  lemma ElectionRefines(n: Node, log: seq<RaftLog>, voters: set<ServerID>, resp: RequestVoteResponse, servers: set<ServerID>)
    requires Rep(n, log) && ConfigOk(servers, n) && n.role == Candidate && resp.term <= n.currentTerm
    ensures var out, s := UpdateElection(n, resp), Abs(n, log, voters);
            var counts := resp.term == s.term && resp.voteGranted;
            && Rep(out.0, log) && out.0 == n.(electionVotes := out.0.electionVotes)
            && out.1 == (counts && s.votes + 1 > |servers| / 2)
            && (counts ==> Abs(out.0, log, voters + {resp.id}) == s.(votes := s.votes + 1, voters := voters + {resp.id}))
            && (!counts ==> out.0 == n)
  {
  }

  lemma ReplyNode(
      digest: Digest, n: Node, log: seq<RaftLog>, voters: set<ServerID>, x: ServerID, resp: RequestVoteResponse,
      servers: set<ServerID>, voters': set<ServerID>)
      returns (n': Node, s': C.Server)
    requires Rep(n, log) && ConfigOk(servers, n) && n.role == Candidate && resp.term <= n.currentTerm
    requires voters' == if resp.term == n.currentTerm && resp.voteGranted then voters + {resp.id} else voters
    ensures var out := UpdateElection(n, resp);
            && |out.0.logs| == |out.0.hashes| && n' == (if out.1 then GuardedWin(digest, out.0, x) else out.0)
            && (!out.1 ==> s'.log == log && Persistent(n') == Persistent(n))
    ensures n'.config == n.config && n'.lastSnapshot == n.lastSnapshot && n'.lastApplied == n.lastApplied
    ensures NoConfig(n'.logs) && Rep(n', s'.log) && Abs(n', s'.log, voters') == s'
    ensures s' == Counted(Abs(n, log, voters), x, resp, servers, ReplyRoom(n, resp))
    ensures log <= s'.log
  {
    var out := UpdateElection(n, resp);
    ElectionRefines(n, log, voters, resp, servers);
    n' := out.0;
    s' := Abs(out.0, log, voters');
    if out.1 {
      n' := GuardedWin(digest, out.0, x);
      WinKeeps(digest, out.0, x);
      WinRefines(digest, out.0, log, voters', x);
      s' := C.Crown(x, s', Room(n));
    }
  }

  lemma ReplyMoves<S>(env: Setting<S>, servers: set<ServerID>, p: Peer<S>, x: ServerID, resp: RequestVoteResponse)
    requires PeerOk(env.app, servers, p) && p.node.role == Candidate && resp.term <= p.node.currentTerm
    ensures var p' := ReplyPeer(env, p, x, resp);
            && Local(servers, p') && Steady(env.app, p, p')
            && AbsPeer(p') == Counted(AbsPeer(p), x, resp, servers, ReplyRoom(p.node, resp))
  {
    var voters := if resp.term == p.node.currentTerm && resp.voteGranted then p.voters + {resp.id} else p.voters;
    var n', s' := ReplyNode(env.digest, p.node, p.log, p.voters, x, resp, servers, voters);
    if UpdateElection(p.node, resp).1 {
      MovedPeer(env.app, servers, p, n', s'.log, voters, ReplyPeer(env, p, x, resp));
    } else {
      KeptPeer(env.app, servers, p, n', voters, ReplyPeer(env, p, x, resp));
    }
  }

  /** A newer term deposes the candidate, and is not saved. */
  lemma ReplyDeposes<S>(env: Setting<S>, servers: set<ServerID>, p: Peer<S>, x: ServerID, resp: RequestVoteResponse)
    requires PeerOk(env.app, servers, p) && p.node.role == Candidate && resp.term > p.node.currentTerm
    ensures var p' := ReplyPeer(env, p, x, resp);
            && PeerFine(env.app, servers, p') && p'.disk.state != Persistent(p'.node)
            && DiskImage(p') == AbsPeer(p).(role := Follower, votes := 0)
  {
    DeposedPeer(env.app, servers, p, UpdateElection(p.node, resp).0, ReplyPeer(env, p, x, resp));
  }

  lemma ReplyAt<S>(p: Peer<S>, s: C.State, r: C.VoteRep, room: bool, p': Peer<S>)
    requires C.CanDeliverVoteRep(s, r) && s.nodes[r.to] == AbsPeer(p) && p.node.role == Candidate
    requires r.resp.term <= p.node.currentTerm
    requires AbsPeer(p') == Counted(AbsPeer(p), r.to, r.resp, s.servers, room)
    ensures var s' := C.DoVoteRep(s, r, room);
            s' == C.Put(s, r.to, AbsPeer(p')).(net := s.net.(voteReps := s.net.voteReps - {r}), h := s'.h)
  {
    assert s.nodes[r.to := s.nodes[r.to]] == s.nodes;
  }

  lemma ReplySim<S>(env: Setting<S>, w: World<S>, h: C.History, r: C.VoteRep)
    requires r in w.net.voteReps && Present(w, r.to) && PeerOk(env.app, w.servers, w.peers[r.to])
    requires w.peers[r.to].node.role == Candidate && r.resp.term <= w.peers[r.to].node.currentTerm
    ensures C.CanDeliverVoteRep(AbsState(w, h), r)
    ensures var s := C.DoVoteRep(AbsState(w, h), r, ReplyRoom(w.peers[r.to].node, r.resp));
            AbsState(DoVoteReply(env, w, r), s.h) == s
  {
    var p, s := w.peers[r.to], AbsState(w, h);
    var room, p' := ReplyRoom(p.node, r.resp), ReplyPeer(env, p, r.to, r.resp);
    ImageOf(w, h, r.to);
    SavedImage(p);
    ReplyMoves(env, w.servers, p, r.to, r.resp);
    SavedImage(p');
    ReplyAt(p, s, r, room, p');
    Mirror(w, h, r.to, p', w.net.(voteReps := w.net.voteReps - {r}), C.DoVoteRep(s, r, room));
  }

  /** A reply to someone who is no candidate any more is drained. */
  lemma DrainSim<S>(env: Setting<S>, w: World<S>, h: C.History, r: C.VoteRep, room: bool)
    requires r in w.net.voteReps && Present(w, r.to) && w.peers[r.to].node.role != Candidate
    ensures C.CanDeliverVoteRep(AbsState(w, h), r)
    ensures AbsState(DoVoteReply(env, w, r), h) == C.DoVoteRep(AbsState(w, h), r, room)
  {
    ImageOf(w, h, r.to);
  }

  /** The unbounded cluster's state after a candidate was deposed by a reply. */
  function DeposedState(s: C.State, r: C.VoteRep, room: bool): C.State
    requires C.CanDeliverVoteRep(s, r)
  {
    var s1 := C.DoYield(s, r.to, 0);
    if C.CanDeliverVoteRep(s1, r) then C.DoVoteRep(s1, r, room) else s1
  }

  lemma DeposedExecutes(s: C.State, r: C.VoteRep, room: bool)
    requires C.CanDeliverVoteRep(s, r)
    ensures C.Execute(s, [C.Yield(r.to, 0), C.DeliverVoteRep(r, room)]) == DeposedState(s, r, room)
  {
    ExecuteTwo(s, C.Yield(r.to, 0), C.DeliverVoteRep(r, room));
  }

  lemma DeposedSim<S>(env: Setting<S>, w: World<S>, h: C.History, r: C.VoteRep)
    requires r in w.net.voteReps && Present(w, r.to) && PeerOk(env.app, w.servers, w.peers[r.to])
    requires w.peers[r.to].node.role == Candidate && r.resp.term > w.peers[r.to].node.currentTerm
    ensures C.CanDeliverVoteRep(AbsState(w, h), r)
    ensures var s := DeposedState(AbsState(w, h), r, ReplyRoom(w.peers[r.to].node, r.resp));
            AbsState(DoVoteReply(env, w, r), s.h) == s
  {
    var p, s := w.peers[r.to], AbsState(w, h);
    var room, p' := ReplyRoom(p.node, r.resp), ReplyPeer(env, p, r.to, r.resp);
    ImageOf(w, h, r.to);
    SavedImage(p);
    ReplyDeposes(env, w.servers, p, r.to, r.resp);
    Mirror(w, h, r.to, p', w.net.(voteReps := w.net.voteReps - {r}), DeposedState(s, r, room));
  }
}
