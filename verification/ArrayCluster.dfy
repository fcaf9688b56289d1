/** A cluster whose nodes are the array-backed nodes of `Replica`, each with its application and its
    disk, and whose steps are the guarded handlers with the role check and the save that surround
    them. The log of a peer and its set of voters are kept for the proof only: no step reads them. */
module ArrayCluster {
  import opened Types
  import opened Replica
  import opened Guards
  import opened Application
  import C = Cluster
  import opened Refinement

  /** What storage holds. Before the first save the state is empty. */
  datatype Disk = Disk(state: PersistentState, snap: Option<Snapshot>)

  datatype Peer<S> = Peer(
    node: Node, sm: S, disk: Disk, lastSaved: int, log: seq<RaftLog>, voters: set<ServerID>)

  datatype World<S> = World(servers: set<ServerID>, peers: map<ServerID, Peer<S>>, net: C.Net)

  datatype Setting<!S> = Setting(digest: Digest, app: App<S>)

  datatype Action =
    | Timeout(x: ServerID)
    | VoteRequest(vq: C.VoteReq)
    | VoteReply(vr: C.VoteRep)
    | Submit(x: ServerID, clientID: Bytes, seqNum: int, data: Bytes)
    | Replicate(x: ServerID, to: ServerID)
    | ShipSnapshot(x: ServerID, to: ServerID)
    | AppendRequest(ap: C.AppendReq)
    | AppendReply(apRep: C.AppendRep)
    | Commit(x: ServerID)
    | ApplyOne(x: ServerID)
    | InstallRequest(ins: C.InstallReq)
    | InstallReply(insRep: C.InstallRep)
    | Crash(x: ServerID)

  // ---- saving ----

  /** Guard G10: nothing has been saved is -1, so that a snapshot of index 0 is saved too. */
  const NOTHING_SAVED := -1

  /** persistState: the state always, the snapshot when it is newer than the last one saved. */
  function Save<S>(p: Peer<S>): Peer<S> {
    var snap := p.node.lastSnapshot;
    var q := p.(disk := p.disk.(state := Persistent(p.node)));
    if snap.Some? && snap.value.lastIncludedIndex > p.lastSaved then
      q.(disk := q.disk.(snap := snap), lastSaved := snap.value.lastIncludedIndex)
    else q
  }

  // ---- a peer takes a step ----

  /** The unbounded log of a node whose snapshot covers a prefix of `log`. */
  function Spliced(log: seq<RaftLog>, n: Node): seq<RaftLog> {
    var base := Base(n.lastSnapshot);
    if 0 <= base <= |log| then log[..base] + n.logs else log
  }

  function Moved<S>(p: Peer<S>, n: Node): Peer<S> {
    p.(node := n, log := Spliced(p.log, n))
  }

  function Put<S>(w: World<S>, x: ServerID, p: Peer<S>): World<S> {
    w.(peers := w.peers[x := p])
  }

  predicate Present<S>(w: World<S>, x: ServerID) {
    x in w.peers && |w.peers[x].node.logs| == |w.peers[x].node.hashes|
  }

  predicate Leads<S>(w: World<S>, x: ServerID) {
    Present(w, x) && w.peers[x].node.role == Leader
  }

  function VoteRequests(x: ServerID, n: Node, servers: set<ServerID>): set<C.VoteReq> {
    set p | p in servers && p != x :: C.VoteReq(p, PrepareRequestVote(n, x))
  }

  predicate Alone<S>(w: World<S>, x: ServerID)
    requires x in w.peers
  {
    w.peers[x].node.role == Follower && w.servers == {x}
  }

  /** The election timer fires; a follower without peers wins at once. */
  function DoTimeout<S>(env: Setting<S>, w: World<S>, x: ServerID): World<S>
    requires Present(w, x)
  {
    var p := w.peers[x];
    var n := StartElection(p.node, x);
    var n' := if Alone(w, x) then GuardedWin(env.digest, n, x) else n;
    Put(w, x, Save(Moved(p, n').(voters := {x}))).(
      net := w.net.(voteReqs := w.net.voteReqs + VoteRequests(x, n, w.servers)))
  }

  function DoVoteRequest<S>(w: World<S>, m: C.VoteReq): World<S>
    requires Present(w, m.to)
  {
    var p := w.peers[m.to];
    var out := GuardedVote(p.node, m.to, m.args);
    Put(w, m.to, Save(Moved(p, out.0))).(
      net := w.net.(voteReqs := w.net.voteReqs - {m},
                    voteReps := w.net.voteReps + {C.VoteRep(m.args.candidateID, out.1)}))
  }

  /** Only a candidate looks at a reply; the others drain it. Only a victory is saved: a newer term
      learned from a reply is not. */
  function DoVoteReply<S>(env: Setting<S>, w: World<S>, r: C.VoteRep): World<S>
    requires Present(w, r.to)
  {
    var p := w.peers[r.to];
    var out := UpdateElection(p.node, r.resp);
    var counted := r.resp.term == p.node.currentTerm && r.resp.voteGranted;
    var voters := if counted then p.voters + {r.resp.id} else p.voters;
    var w1 := w.(net := w.net.(voteReps := w.net.voteReps - {r}));
    if p.node.role != Candidate then w1
    else if out.1 then Put(w1, r.to, Save(Moved(p, GuardedWin(env.digest, out.0, r.to)).(voters := voters)))
    else Put(w1, r.to, p.(node := out.0, voters := voters))
  }

  function DoSubmit<S>(
      env: Setting<S>, w: World<S>, x: ServerID, clientID: Bytes, seqNum: int, data: Bytes): World<S>
    requires Present(w, x)
  {
    var p := w.peers[x];
    var out := AddCommandLog(env.digest, p.node, x, clientID, seqNum, data, env.app.save(p.sm));
    if out.1 < 0 then w
    else Put(w, x, Save(Moved(p, out.0)))
  }

  function Shipment<S>(p: Peer<S>, x: ServerID, to: ServerID): C.InstallReq
    requires p.node.lastSnapshot.Some?
  {
    var base := Base(p.node.lastSnapshot);
    C.InstallReq(x, to, PrepareInstallSnapshot(p.node, x), if 0 <= base <= |p.log| then p.log[..base] else [])
  }

  function DoShip<S>(w: World<S>, x: ServerID, to: ServerID): World<S>
    requires Present(w, x)
  {
    if w.peers[x].node.lastSnapshot == None then w
    else w.(net := w.net.(installs := w.net.installs + {Shipment(w.peers[x], x, to)}))
  }

  /** One request to one follower, or the snapshot when its next entry is inside it. */
  function DoReplicate<S>(w: World<S>, x: ServerID, to: ServerID): World<S>
    requires Present(w, x)
  {
    var p := w.peers[x];
    var out := GetAppendEntriesArgs(p.node, to);
    if out.1 == None then DoShip(w, x, to)
    else Put(w, x, p.(node := out.0)).(net := w.net.(appends := w.net.appends + {C.AppendReq(x, to, out.1.value)}))
  }

  function DoAppendRequest<S>(env: Setting<S>, w: World<S>, m: C.AppendReq): World<S>
    requires Present(w, m.to)
  {
    var p := w.peers[m.to];
    var out := GuardedAppend(env.digest, p.node, m.to, m.args, env.app.save(p.sm));
    Put(w, m.to, Save(Moved(p, out.0))).(
      net := w.net.(appendReps := w.net.appendReps + {C.AppendRep(m.from, out.1, C.Covers(m.args))}))
  }

  function DoAppendReply<S>(w: World<S>, r: C.AppendRep): World<S>
    requires Present(w, r.to)
  {
    var p := w.peers[r.to];
    Put(w, r.to, p.(node := GuardedAppendReply(p.node, r.resp, r.covered)))
  }

  function DoCommit<S>(w: World<S>, x: ServerID): World<S>
    requires Present(w, x)
  {
    Put(w, x, w.peers[x].(node := CheckCommits(w.peers[x].node)))
  }

  /** One turn of checkLogsToApply. */
  function DoApplyOne<S>(env: Setting<S>, w: World<S>, x: ServerID): World<S>
    requires Present(w, x)
  {
    var p := w.peers[x];
    var out := UpdateLastApplied(p.node);
    if out.1 < 0 then w
    else Put(w, x, p.(node := out.0, sm := ApplyEntry(env.app, p.sm, p.node.logs[out.1])))
  }

  function DoInstallRequest<S>(env: Setting<S>, w: World<S>, m: C.InstallReq): World<S>
    requires Present(w, m.to)
  {
    var p := w.peers[m.to];
    var out := GuardedInstall(p.node, m.to, m.args);
    var p' := if out.2.Some? then p.(node := out.0, sm := env.app.load(out.2.value), log := m.prefix)
              else p.(node := out.0);
    Put(w, m.to, Save(p')).(
      net := if out.1.Some? then w.net.(installReps := w.net.installReps + {C.InstallRep(m.from, out.1.value)})
             else w.net)
  }

  function DoInstallReply<S>(w: World<S>, r: C.InstallRep): World<S>
    requires Present(w, r.to)
  {
    var p := w.peers[r.to];
    Put(w, r.to, p.(node := GuardedInstallReply(p.node, r.resp)))
  }

  /** Start after a crash: everything but the disk is lost. */
  function Restarted<S>(env: Setting<S>, p: Peer<S>, x: ServerID, servers: set<ServerID>): Peer<S> {
    var snap := p.disk.snap;
    p.(node := Recover(x, servers - {x}, p.disk.state, snap), voters := {}, lastSaved := NOTHING_SAVED,
       sm := if snap.Some? then env.app.load(snap.value.data) else env.app.init)
  }

  function DoCrash<S>(env: Setting<S>, w: World<S>, x: ServerID): World<S>
    requires Present(w, x)
  {
    Put(w, x, Restarted(env, w.peers[x], x, w.servers))
  }

  // ---- runs ----

  predicate Enabled<S>(w: World<S>, a: Action) {
    match a
    case Timeout(x) => Present(w, x) && w.peers[x].node.role != Leader
    case VoteRequest(vq) => vq in w.net.voteReqs && Present(w, vq.to)
    case VoteReply(vr) => vr in w.net.voteReps && Present(w, vr.to)
    case Submit(x, clientID, seqNum, data) => Leads(w, x)
    case Replicate(x, to) => Leads(w, x) && to in w.servers && to != x
    case ShipSnapshot(x, to) => Leads(w, x) && to in w.servers && to != x
    case AppendRequest(ap) => ap in w.net.appends && Present(w, ap.to)
    case AppendReply(apRep) => apRep in w.net.appendReps && Leads(w, apRep.to)
    case Commit(x) => Leads(w, x)
    case ApplyOne(x) => Present(w, x)
    case InstallRequest(ins) => ins in w.net.installs && Present(w, ins.to)
    case InstallReply(insRep) => insRep in w.net.installReps && Leads(w, insRep.to)
    case Crash(x) => Present(w, x)
  }

  function Step<S>(env: Setting<S>, w: World<S>, a: Action): World<S> {
    if !Enabled(w, a) then w
    else
      match a
      case Timeout(x) => DoTimeout(env, w, x)
      case VoteRequest(vq) => DoVoteRequest(w, vq)
      case VoteReply(vr) => DoVoteReply(env, w, vr)
      case Submit(x, clientID, seqNum, data) => DoSubmit(env, w, x, clientID, seqNum, data)
      case Replicate(x, to) => DoReplicate(w, x, to)
      case ShipSnapshot(x, to) => DoShip(w, x, to)
      case AppendRequest(ap) => DoAppendRequest(env, w, ap)
      case AppendReply(apRep) => DoAppendReply(w, apRep)
      case Commit(x) => DoCommit(w, x)
      case ApplyOne(x) => DoApplyOne(env, w, x)
      case InstallRequest(ins) => DoInstallRequest(env, w, ins)
      case InstallReply(insRep) => DoInstallReply(w, insRep)
      case Crash(x) => DoCrash(env, w, x)
  }

  function Run<S>(env: Setting<S>, w: World<S>, actions: seq<Action>): World<S>
    decreases |actions|
  {
    if actions == [] then w else Run(env, Step(env, w, actions[0]), actions[1..])
  }

  function NewPeer<S>(env: Setting<S>, x: ServerID, servers: set<ServerID>): Peer<S> {
    Peer(NewNode(x, servers - {x}), env.app.init, Disk(PersistentState(0, None, []), None), NOTHING_SAVED, [], {})
  }

  function Boot<S>(env: Setting<S>, servers: set<ServerID>): World<S> {
    World(servers, map x | x in servers :: NewPeer(env, x, servers), C.Net({}, {}, {}, {}, {}, {}))
  }
}
