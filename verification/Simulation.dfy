/** The array cluster simulates the cluster over unbounded logs: every action of the one is a short
    sequence of steps of the other, so every run of the one maps to a run of the other. */
module Simulation {
  import opened Types
  import opened Agreement
  import opened Replica
  import opened Guards
  import opened Application
  import opened ArrayCluster
  import opened Refinement
  import opened MergeRefinement
  import opened HandlerRefinement
  import C = Cluster

  function AbsPeer<S>(p: Peer<S>): C.Server {
    Abs(p.node, p.log, p.voters)
  }

  /** The peer with the term and vote that its disk holds. They differ from those in memory only
      between learning a newer term from a reply and the next save, when the node has neither voted
      nor answered in the newer term; until then it may as well not have learned it. */
  function DiskImage<S>(p: Peer<S>): C.Server {
    AbsPeer(p).(term := p.disk.state.currentTerm, votedFor := p.disk.state.votedFor)
  }

  function AbsState<S>(w: World<S>, h: C.History): C.State {
    C.State(w.servers, map x | x in w.peers :: DiskImage(w.peers[x]), w.net, h)
  }

  function Room(n: Node): bool {
    |n.logs| < CAPACITY
  }

  /** A candidate that this reply makes leader. */
  predicate Wins(n: Node, resp: RequestVoteResponse) {
    n.role == Candidate && UpdateElection(n, resp).1
  }

  /** Whether a victory, if the reply brings one, finds room for its no-op. */
  function ReplyRoom(n: Node, resp: RequestVoteResponse): bool {
    Wins(n, resp) ==> Room(n)
  }

  /** The answer to a snapshot, or the one never sent by a node that guard G6 keeps silent. */
  function InstallAnswer(n: Node, id: ServerID, isa: InstallSnapshotArgs): InstallSnapshotResponse {
    var out := GuardedInstall(n, id, isa).1;
    if out.Some? then out.value
    else InstallSnapshotResponse(id, isa.term, true, isa.lastIncludedIndex, isa.lastIncludedTerm)
  }

  function ShipEvents<S>(w: World<S>, x: ServerID, to: ServerID): seq<C.Event>
    requires Present(w, x)
  {
    if w.peers[x].node.lastSnapshot == None then [] else [C.SendInstall(x, Shipment(w.peers[x], x, to))]
  }

  /** The peer as if it had just saved its state. */
  function Synced<S>(p: Peer<S>): Peer<S> {
    p.(disk := p.disk.(state := Persistent(p.node)))
  }

  predicate InSync<S>(w: World<S>, x: ServerID) {
    x in w.peers && w.peers[x].disk.state == Persistent(w.peers[x].node)
  }

  /** Actions that end in a save, whatever the role. */
  predicate Saves(a: Action) {
    a.Timeout? || a.VoteRequest? || a.AppendRequest? || a.InstallRequest?
  }

  function Sync<S>(w: World<S>, x: ServerID): World<S> {
    if x in w.peers then ArrayCluster.Put(w, x, Synced(w.peers[x])) else w
  }

  function Actor(a: Action): ServerID {
    match a
    case Timeout(x) => x
    case VoteRequest(vq) => vq.to
    case VoteReply(vr) => vr.to
    case Submit(x, clientID, seqNum, data) => x
    case Replicate(x, to) => x
    case ShipSnapshot(x, to) => x
    case AppendRequest(ap) => ap.to
    case AppendReply(apRep) => apRep.to
    case Commit(x) => x
    case ApplyOne(x) => x
    case InstallRequest(ins) => ins.to
    case InstallReply(insRep) => insRep.to
    case Crash(x) => x
  }

  /** The steps over unbounded logs that an action amounts to; a save makes a learned term known. */
  function Lower<S>(env: Setting<S>, w: World<S>, a: Action): seq<C.Event> {
    if Enabled(w, a) && Saves(a) && Actor(a) in w.peers && !InSync(w, Actor(a)) then
      [C.Learn(Actor(a), w.peers[Actor(a)].node.currentTerm)] + LowerInSync(env, Sync(w, Actor(a)), a)
    else LowerInSync(env, w, a)
  }

  /** A newer term in a reply. */
  predicate Deposes(n: Node, success: bool, term: int) {
    !success && term > n.currentTerm
  }

  function LowerInSync<S>(env: Setting<S>, w: World<S>, a: Action): seq<C.Event> {
    if !Enabled(w, a) then []
    else
      match a
      case Timeout(x) =>
        if Alone(w, x) then [C.Timeout(x), C.WinAlone(x, Room(w.peers[x].node))] else [C.Timeout(x)]
      case VoteRequest(vq) => [C.DeliverVoteReq(vq)]
      case VoteReply(vr) =>
        var n := w.peers[vr.to].node;
        var count := C.DeliverVoteRep(vr, ReplyRoom(n, vr.resp));
        if n.role == Candidate && vr.resp.term > n.currentTerm then [C.Yield(vr.to, 0), count] else [count]
      case Submit(x, clientID, seqNum, data) =>
        var n := w.peers[x].node;
        var add := C.ClientAppend(x, CommandEntry(n, clientID, seqNum, data));
        if Stuck(n) then [] else if Room(n) then [add] else [C.Compact(x), add]
      case Replicate(x, to) =>
        var out := GetAppendEntriesArgs(w.peers[x].node, to).1;
        if out == None then ShipEvents(w, x, to) else [C.SendAppend(x, C.AppendReq(x, to, out.value))]
      case ShipSnapshot(x, to) => ShipEvents(w, x, to)
      case AppendRequest(ap) =>
        var p := w.peers[ap.to];
        var resp := GuardedAppend(env.digest, p.node, ap.to, ap.args, env.app.save(p.sm)).1;
        var deliver := C.DeliverAppend(ap, C.AppendRep(ap.from, resp, C.Covers(ap.args)), ArrayFull(p.node, ap.args));
        if Compacts(p.node, AbsPeer(p), ap.args) then [deliver, C.Compact(ap.to)] else [deliver]
      case AppendReply(apRep) =>
        var n := w.peers[apRep.to].node;
        if Deposes(n, apRep.resp.success, apRep.resp.term) then [C.Yield(apRep.to, n.electionVotes)]
        else [C.DeliverAppendRep(apRep)]
      case Commit(x) =>
        var c := CheckCommits(w.peers[x].node).commitIndex;
        if c > w.peers[x].node.commitIndex then [C.AdvanceCommit(x, c)] else []
      case ApplyOne(x) =>
        if w.peers[x].node.lastApplied < w.peers[x].node.commitIndex then [C.ApplyNext(x)] else []
      case InstallRequest(ins) =>
        [C.DeliverInstall(ins, C.InstallRep(ins.from, InstallAnswer(w.peers[ins.to].node, ins.to, ins.args)))]
      case InstallReply(insRep) =>
        var n := w.peers[insRep.to].node;
        if Deposes(n, insRep.resp.success, insRep.resp.term) then [C.Yield(insRep.to, n.electionVotes)]
        else [C.DeliverInstallRep(insRep)]
      case Crash(x) => [C.Restart(x)]
  }

  // ---- what every peer keeps ----

  /** The application is the fold of the applied entries, and the snapshot the fold of those it covers. */
  ghost predicate StateOk<S>(app: App<S>, p: Peer<S>)
    requires Rep(p.node, p.log)
  {
    && p.sm == StateAfter(app, p.log, p.node.lastApplied + 1)
    && (p.node.lastSnapshot.Some? ==>
          p.node.lastSnapshot.value.data == app.save(StateAfter(app, p.log, Base(p.node.lastSnapshot))))
  }

  /** The disk holds term, vote, log and snapshot as they are in memory. */
  ghost predicate DiskOk<S>(p: Peer<S>) {
    && p.disk.state == Persistent(p.node)
    && p.disk.snap == p.node.lastSnapshot
    && p.lastSaved < Base(p.node.lastSnapshot)
  }

  ghost predicate ConfigOk(servers: set<ServerID>, n: Node) {
    n.config.serverConfig == n.config.oldServerConfig == servers && NoConfig(n.logs)
  }

  ghost predicate PeerOk<S>(app: App<S>, servers: set<ServerID>, p: Peer<S>) {
    Rep(p.node, p.log) && ConfigOk(servers, p.node) && StateOk(app, p) && DiskOk(p)
  }

  ghost predicate CargoOk<S>(app: App<S>, net: C.Net) {
    && (forall m :: m in net.appends ==> NoConfig(m.args.entries))
    && (forall m :: m in net.installs ==> m.args.data == app.save(StateAfter(app, m.prefix, |m.prefix|)))
  }

  /** A newer term has been learned from a reply and not been saved: a follower that has not voted. */
  ghost predicate Unsaved<S>(p: Peer<S>) {
    && p.node.role == Follower && p.node.votedFor == None
    && p.disk.state.currentTerm < p.node.currentTerm
    && p.disk.state.logs == p.node.logs
  }

  /** What holds of every peer between actions. */
  ghost predicate PeerFine<S>(app: App<S>, servers: set<ServerID>, p: Peer<S>) {
    PeerOk(app, servers, Synced(p)) && (p.disk.state == Persistent(p.node) || Unsaved(p))
  }

  ghost predicate PeersOk<S>(app: App<S>, servers: set<ServerID>, peers: map<ServerID, Peer<S>>) {
    forall x {:trigger peers[x]} :: x in peers ==> PeerFine(app, servers, peers[x])
  }

  // ---- small steps of the other level ----

  lemma ExecuteOne(s: C.State, e: C.Event)
    ensures C.Execute(s, [e]) == C.Step(s, e)
  {
    assert [e][1..] == [];
  }

  lemma ExecuteTwo(s: C.State, e: C.Event, f: C.Event)
    ensures C.Execute(s, [e, f]) == C.Step(C.Step(s, e), f)
  {
    assert [e, f][1..] == [f];
    ExecuteOne(C.Step(s, e), f);
  }

  lemma CountExecutes(s: C.State, r: C.VoteRep, room: bool)
    requires C.CanDeliverVoteRep(s, r)
    ensures C.Execute(s, [C.DeliverVoteRep(r, room)]) == C.DoVoteRep(s, r, room) == C.Step(s, C.DeliverVoteRep(r, room))
  {
    ExecuteOne(s, C.DeliverVoteRep(r, room));
  }

  lemma YieldExecutes(s: C.State, x: ServerID, votes: int)
    requires C.CanYield(s, x)
    ensures C.Execute(s, [C.Yield(x, votes)]) == C.DoYield(s, x, votes)
  {
    ExecuteOne(s, C.Yield(x, votes));
  }

  lemma CreditExecutes(s: C.State, r: C.AppendRep)
    requires C.CanDeliverAppendRep(s, r)
    ensures C.Execute(s, [C.DeliverAppendRep(r)]) == C.DoAppendRep(s, r)
  {
    ExecuteOne(s, C.DeliverAppendRep(r));
  }

  lemma InstalledExecutes(s: C.State, r: C.InstallRep)
    requires C.CanDeliverInstallRep(s, r)
    ensures C.Execute(s, [C.DeliverInstallRep(r)]) == C.DoInstallRep(s, r)
  {
    ExecuteOne(s, C.DeliverInstallRep(r));
  }

  lemma ShipExecutes<S>(s: C.State, w: World<S>, x: ServerID, to: ServerID)
    requires Present(w, x)
    requires w.peers[x].node.lastSnapshot.Some? ==> C.CanSendInstall(s, x, Shipment(w.peers[x], x, to))
    ensures C.Execute(s, ShipEvents(w, x, to)) ==
            if w.peers[x].node.lastSnapshot.Some? then C.DoSendInstall(s, Shipment(w.peers[x], x, to)) else s
  {
    if w.peers[x].node.lastSnapshot.Some? {
      ExecuteOne(s, C.SendInstall(x, Shipment(w.peers[x], x, to)));
    }
  }

  lemma SendExecutes(s: C.State, x: ServerID, m: C.AppendReq)
    requires C.CanSendAppend(s, x, m)
    ensures C.Execute(s, [C.SendAppend(x, m)]) == C.DoSendAppend(s, m)
  {
    ExecuteOne(s, C.SendAppend(x, m));
  }

  lemma AdvanceExecutes(s: C.State, x: ServerID, c: int)
    requires C.CanAdvanceCommit(s, x, c)
    ensures C.Execute(s, [C.AdvanceCommit(x, c)]) == C.DoAdvanceCommit(s, x, c)
  {
    ExecuteOne(s, C.AdvanceCommit(x, c));
  }

  lemma ApplyExecutes(s: C.State, x: ServerID)
    requires C.CanApply(s, x)
    ensures C.Execute(s, [C.ApplyNext(x)]) == C.DoApply(s, x) == C.Step(s, C.ApplyNext(x))
  {
    ExecuteOne(s, C.ApplyNext(x));
  }

  /** A state that differs from the image of a world at one node and in the network. */
  lemma Mirror<S>(w: World<S>, h: C.History, x: ServerID, p: Peer<S>, net: C.Net, s: C.State)
    requires x in w.peers && s == C.Put(AbsState(w, h), x, DiskImage(p)).(net := net, h := s.h)
    ensures AbsState(ArrayCluster.Put(w, x, p).(net := net), s.h) == s
  {
  }

  lemma SplicedIs(log: seq<RaftLog>, n: Node, log': seq<RaftLog>)
    requires Fits(n, log') && 0 <= Base(n.lastSnapshot)
    requires Agree(log, log', Base(n.lastSnapshot))
    ensures Spliced(log, n) == log'
  {
  }

  lemma ImageOf<S>(w: World<S>, h: C.History, x: ServerID)
    requires x in w.peers
    ensures var s := AbsState(w, h);
            x in s.nodes && s.nodes[x] == DiskImage(w.peers[x]) && s.net == w.net && s.servers == w.servers
  {
  }

  lemma SavedImage<S>(p: Peer<S>)
    requires p.disk.state == Persistent(p.node)
    ensures DiskImage(p) == AbsPeer(p)
  {
  }

  // ---- what a step leaves in order at its own peer ----

  /** Nothing was applied, and a new snapshot, if any, is of what has been applied. */
  ghost predicate Steady<S>(app: App<S>, p: Peer<S>, p': Peer<S>) {
    && p'.sm == p.sm && p'.node.lastApplied == p.node.lastApplied
    && (p'.node.lastSnapshot == p.node.lastSnapshot
        || (p'.node.lastSnapshot.Some? && Base(p'.node.lastSnapshot) == p.node.lastApplied + 1
            && p'.node.lastSnapshot.value.data == app.save(p.sm)))
  }

  /** What needs no knowledge of the rest of the cluster. */
  ghost predicate Local<S>(servers: set<ServerID>, p: Peer<S>) {
    Fits(p.node, p.log) && ConfigOk(servers, p.node) && DiskOk(p)
  }

  lemma SteadyState<S>(app: App<S>, p: Peer<S>, p': Peer<S>)
    requires Rep(p.node, p.log) && Rep(p'.node, p'.log) && StateOk(app, p) && Steady(app, p, p')
    requires Agree(p.log, p'.log, p.node.lastApplied + 1)
    ensures StateOk(app, p')
  {
    StateOfAgreeing(app, p.log, p'.log, p.node.lastApplied + 1);
    if p'.node.lastSnapshot == p.node.lastSnapshot {
      StateOfAgreeing(app, p.log, p'.log, Base(p.node.lastSnapshot));
    }
  }

  /** A save brings the disk up to date, as snapshots only move forward. */
  lemma Saved<S>(p: Peer<S>, q: Peer<S>)
    requires DiskOk(p) && q.disk == p.disk && q.lastSaved == p.lastSaved
    requires q.node.lastSnapshot == p.node.lastSnapshot || Base(q.node.lastSnapshot) > Base(p.node.lastSnapshot)
    requires q.node.lastSnapshot.Some? || p.node.lastSnapshot == None
    ensures DiskOk(Save(q)) && Save(q) == q.(disk := Save(q).disk, lastSaved := Save(q).lastSaved)
  {
  }

  /** A peer that takes over a handler's result and saves it. */
  lemma MovedPeer<S>(
      app: App<S>, servers: set<ServerID>, p: Peer<S>, n: Node, log: seq<RaftLog>, voters: set<ServerID>, p': Peer<S>)
    requires PeerOk(app, servers, p) && Fits(n, log) && ConfigOk(servers, n)
    requires n.lastApplied == p.node.lastApplied && Agree(p.log, log, Base(n.lastSnapshot))
    requires n.lastSnapshot == p.node.lastSnapshot
             || (n.lastSnapshot.Some? && Base(n.lastSnapshot) == p.node.lastApplied + 1 > Base(p.node.lastSnapshot)
                 && n.lastSnapshot.value.data == app.save(p.sm))
    requires p' == Save(Moved(p, n).(voters := voters))
    ensures Local(servers, p') && Steady(app, p, p') && AbsPeer(p') == Abs(n, log, voters)
  {
    SplicedIs(p.log, n, log);
    Saved(p, Moved(p, n).(voters := voters));
  }

  /** A peer that takes over a handler's result without a save, which would have changed nothing. */
  lemma KeptPeer<S>(
      app: App<S>, servers: set<ServerID>, p: Peer<S>, n: Node, voters: set<ServerID>, p': Peer<S>)
    requires PeerOk(app, servers, p) && Rep(n, p.log) && Persistent(n) == Persistent(p.node)
    requires n.config == p.node.config && n.lastSnapshot == p.node.lastSnapshot && n.lastApplied == p.node.lastApplied
    requires p' == p.(node := n, voters := voters)
    ensures PeerOk(app, servers, p') && AbsPeer(p') == Abs(n, p.log, voters)
  {
  }

  /** A peer that learns a newer term from a reply and does not save it. */
  lemma DeposedPeer<S>(app: App<S>, servers: set<ServerID>, p: Peer<S>, n: Node, p': Peer<S>)
    requires PeerOk(app, servers, p) && n.currentTerm > p.node.currentTerm && n.votedFor == None && n.role == Follower
    requires n == p.node.(currentTerm := n.currentTerm, votedFor := None, role := Follower,
                          electionVotes := n.electionVotes, currentLeader := n.currentLeader)
    requires p' == p.(node := n)
    ensures PeerFine(app, servers, p') && p'.disk.state != Persistent(p'.node)
    ensures DiskImage(p') == AbsPeer(p).(role := Follower, votes := n.electionVotes)
  {
  }
}
