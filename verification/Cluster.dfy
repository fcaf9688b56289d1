/** A cluster of fixed membership whose nodes run the (guarded) handlers on unbounded logs, and
    whose network may lose, delay and reorder every message. Append and install messages may
    also be delivered again; a vote request or a vote reply is delivered at most once.

    `History` records what no node stores: who voted and with which log, the log of each
    term's leader, how far each node has followed each leader, and what has been committed. */
module Cluster {
  import opened Types
  import opened Agreement

  /** A term of office of one node, or one node's standing in one term. */
  datatype Stand = Stand(term: int, server: ServerID)

  /** The position a candidate advertises: its last entry's term and index. */
  datatype Position = Position(term: int, index: int)

  /** A log length committed by the leader of a term. */
  datatype Point = Point(term: int, len: int)

  datatype Server = Server(
    term: int,
    votedFor: Option<ServerID>,
    role: Role,
    log: seq<RaftLog>,
    base: int,
    commit: int,
    applied: int,
    votes: int,
    voters: set<ServerID>,
    matchIndex: map<ServerID, int>)

  datatype History = History(
    votes: map<Stand, ServerID>,
    bids: map<Stand, Position>,
    voterLogs: map<Stand, seq<RaftLog>>,
    leader: map<int, ServerID>,
    quorum: map<int, set<ServerID>>,
    elected: map<int, seq<RaftLog>>,
    logs: map<int, seq<RaftLog>>,
    acked: map<Stand, int>,
    committed: map<Point, set<ServerID>>)

  datatype VoteReq = VoteReq(to: ServerID, args: RequestVoteArgs)
  datatype VoteRep = VoteRep(to: ServerID, resp: RequestVoteResponse)
  datatype AppendReq = AppendReq(from: ServerID, to: ServerID, args: AppendEntriesArgs)
  /** Guard G3: an append reply carries the index it covers. */
  datatype AppendRep = AppendRep(to: ServerID, resp: AppendEntriesResponse, covered: int)
  /** `prefix` is the part of the sender's log that the snapshot stands for. */
  datatype InstallReq = InstallReq(from: ServerID, to: ServerID, args: InstallSnapshotArgs, prefix: seq<RaftLog>)
  datatype InstallRep = InstallRep(to: ServerID, resp: InstallSnapshotResponse)

  datatype Net = Net(
    voteReqs: set<VoteReq>,
    voteReps: set<VoteRep>,
    appends: set<AppendReq>,
    appendReps: set<AppendRep>,
    installs: set<InstallReq>,
    installReps: set<InstallRep>)

  datatype State = State(servers: set<ServerID>, nodes: map<ServerID, Server>, net: Net, h: History)

  datatype Event =
    | Timeout(n: ServerID)
    | DeliverVoteReq(vq: VoteReq)
    | DeliverVoteRep(vr: VoteRep, room: bool)
    | WinAlone(n: ServerID, room: bool)
    | ClientAppend(n: ServerID, entry: RaftLog)
    | SendAppend(n: ServerID, ap: AppendReq)
    | DeliverAppend(ap: AppendReq, apRep: AppendRep, full: bool)
    | DeliverAppendRep(apRep: AppendRep)
    | AdvanceCommit(n: ServerID, index: int)
    | ApplyNext(n: ServerID)
    | Compact(n: ServerID)
    | SendInstall(n: ServerID, ins: InstallReq)
    | DeliverInstall(ins: InstallReq, insRep: InstallRep)
    | DeliverInstallRep(insRep: InstallRep)
    | Restart(n: ServerID)
    | Learn(n: ServerID, term: int)
    | Yield(n: ServerID, votes: int)

  // ---- the rules, node by node ----

  predicate IsMajority(part: set<ServerID>, servers: set<ServerID>) {
    part <= servers && |part| > |servers| / 2
  }

  predicate UpToDate(bid: Position, log: seq<RaftLog>) {
    bid.term > LastTerm(log) || (bid.term == LastTerm(log) && bid.index >= LastIndex(log))
  }

  function PositionOf(log: seq<RaftLog>): Position {
    Position(LastTerm(log), LastIndex(log))
  }

  /** A newer term is adopted; guard G1: whoever adopts one becomes a follower. */
  function Adopt(n: Server, term: int): Server {
    if term > n.term then n.(term := term, votedFor := None, role := Follower) else n
  }

  predicate GrantsVote(n: Server, args: RequestVoteArgs) {
    && n.term == args.term
    && (n.votedFor == None || n.votedFor == Some(args.candidateID))
    && UpToDate(Position(args.lastLogTerm, args.lastLogIndex), n.log)
  }

  /** Winning: leader of the current term with a fresh tenure (guard G2) and, if the array has
      room, a first no-op entry. */
  function Crown(x: ServerID, n: Server, room: bool): Server {
    var entry := RaftLog(|n.log|, n.term, LogNoop, [], NO_CHANGE, [], 0);
    var tenure := (map p | p in n.matchIndex :: -1)[x := if room then |n.log| else -1];
    n.(role := Leader, votes := 0, log := if room then n.log + [entry] else n.log, matchIndex := tenure)
  }

  /** Guard G5: entries inside the receiver's snapshot are dropped first. */
  function MergeStart(n: Server, args: AppendEntriesArgs): int {
    if args.prevLogIndex + 1 < n.base then n.base else args.prevLogIndex + 1
  }

  function MergeRest(n: Server, args: AppendEntriesArgs): seq<RaftLog> {
    var skip := MergeStart(n, args) - (args.prevLogIndex + 1);
    if skip <= 0 then args.entries else if skip <= |args.entries| then From(args.entries, skip) else []
  }

  predicate PrevMatches(n: Server, args: AppendEntriesArgs) {
    && -1 <= args.prevLogIndex < |n.log|
    && (args.prevLogIndex < n.base || args.prevLogIndex < 0 || n.log[args.prevLogIndex].term == args.prevLogTerm)
  }

  function FollowCommit(commit: int, args: AppendEntriesArgs, rest: seq<RaftLog>): int {
    if args.leaderCommit <= commit then commit
    else if rest == [] then args.leaderCommit
    else if args.leaderCommit <= rest[|rest| - 1].index then args.leaderCommit
    else rest[|rest| - 1].index
  }

  function Follow(n: Server, args: AppendEntriesArgs): Server
    requires PrevMatches(n, args) && 0 <= n.base <= |n.log|
  {
    var rest := MergeRest(n, args);
    n.(log := Merge(n.log, MergeStart(n, args), rest), commit := FollowCommit(n.commit, args, rest))
  }

  /** The index a successful append covers. */
  function Covers(args: AppendEntriesArgs): int {
    args.prevLogIndex + |args.entries|
  }

  // ---- the steps ----

  function Put(s: State, x: ServerID, n: Server): State {
    s.(nodes := s.nodes[x := n])
  }

  function VoteRequests(x: ServerID, n: Server, servers: set<ServerID>): set<VoteReq> {
    set p | p in servers && p != x :: VoteReq(p, RequestVoteArgs(n.term, x, LastIndex(n.log), LastTerm(n.log)))
  }

  function RecordVote(h: History, x: ServerID, term: int, cand: ServerID, log: seq<RaftLog>): History {
    var key := Stand(term, x);
    if key in h.votes then h
    else h.(votes := h.votes[key := cand],
            voterLogs := if term in h.logs then h.voterLogs else h.voterLogs[key := log])
  }

  predicate CanTimeout(s: State, x: ServerID) {
    x in s.nodes && s.nodes[x].role != Leader
  }

  function DoTimeout(s: State, x: ServerID): State
    requires CanTimeout(s, x)
  {
    var n := s.nodes[x];
    var n' := n.(term := n.term + 1, role := Candidate, votedFor := Some(x), votes := 1, voters := {x});
    var h := s.h.(bids := s.h.bids[Stand(n'.term, x) := PositionOf(n.log)]);
    Put(s, x, n').(
      h := RecordVote(h, x, n'.term, x, n.log),
      net := s.net.(voteReqs := s.net.voteReqs + VoteRequests(x, n', s.servers)))
  }

  predicate CanDeliverVoteReq(s: State, m: VoteReq) {
    m in s.net.voteReqs && m.to in s.nodes
  }

  function DoVoteReq(s: State, m: VoteReq): State
    requires CanDeliverVoteReq(s, m)
  {
    var n := Adopt(s.nodes[m.to], m.args.term);
    var grant := GrantsVote(n, m.args);
    var n' := if grant then n.(role := Follower, votedFor := Some(m.args.candidateID)) else n;
    var rep := VoteRep(m.args.candidateID, RequestVoteResponse(m.to, n.term, grant));
    Put(s, m.to, n').(
      h := if grant then RecordVote(s.h, m.to, n.term, m.args.candidateID, n.log) else s.h,
      net := s.net.(voteReqs := s.net.voteReqs - {m}, voteReps := s.net.voteReps + {rep}))
  }

  /** What the history keeps of an election won. */
  function RecordWin(h: History, x: ServerID, n: Server, crowned: Server): History {
    h.(leader := h.leader[n.term := x],
       quorum := h.quorum[n.term := n.voters],
       elected := h.elected[n.term := n.log],
       logs := h.logs[n.term := crowned.log],
       acked := h.acked[Stand(n.term, x) := |crowned.log|])
  }

  function DoWin(s: State, x: ServerID, n: Server, room: bool): State {
    var crowned := Crown(x, n, room);
    Put(s, x, crowned).(h := RecordWin(s.h, x, n, crowned))
  }

  predicate CanDeliverVoteRep(s: State, r: VoteRep) {
    r in s.net.voteReps && r.to in s.nodes
  }

  function DoVoteRep(s: State, r: VoteRep, room: bool): State
    requires CanDeliverVoteRep(s, r)
  {
    var n := s.nodes[r.to];
    var s := s.(net := s.net.(voteReps := s.net.voteReps - {r}));
    if n.role != Candidate then s
    else if r.resp.term > n.term then Put(s, r.to, Adopt(n, r.resp.term).(votes := 0))
    else if r.resp.term == n.term && r.resp.voteGranted then
      var n' := n.(votes := n.votes + 1, voters := n.voters + {r.resp.id});
      if n'.votes > |s.servers| / 2 then DoWin(s, r.to, n', room) else Put(s, r.to, n')
    else s
  }

  /** A candidate without peers wins at once. */
  predicate CanWinAlone(s: State, x: ServerID) {
    x in s.nodes && s.nodes[x].role == Candidate && s.servers == {x}
  }

  function DoWinAlone(s: State, x: ServerID, room: bool): State
    requires CanWinAlone(s, x)
  {
    DoWin(s, x, s.nodes[x], room)
  }

  predicate CanClientAppend(s: State, x: ServerID, entry: RaftLog) {
    && x in s.nodes && s.nodes[x].role == Leader
    && entry.index == |s.nodes[x].log| && entry.term == s.nodes[x].term
  }

  function DoClientAppend(s: State, x: ServerID, entry: RaftLog): State
    requires CanClientAppend(s, x, entry)
  {
    var n := s.nodes[x];
    var n' := n.(log := n.log + [entry], matchIndex := n.matchIndex[x := entry.index]);
    Put(s, x, n').(
      h := s.h.(logs := s.h.logs[n.term := n'.log], acked := s.h.acked[Stand(n.term, x) := |n'.log|]))
  }

  /** A request carries the leader's log from some position on, up to its end. */
  predicate CanSendAppend(s: State, x: ServerID, m: AppendReq) {
    && x in s.nodes && s.nodes[x].role == Leader
    && var n := s.nodes[x];
       && m.args.term == n.term && m.args.leaderCommit == n.commit
       && -1 <= m.args.prevLogIndex < |n.log|
       && IsSlice(m.args.entries, n.log, m.args.prevLogIndex + 1)
       && m.args.prevLogIndex + 1 + |m.args.entries| == |n.log|
       && (m.args.prevLogIndex >= 0 ==> m.args.prevLogTerm == n.log[m.args.prevLogIndex].term)
  }

  function DoSendAppend(s: State, m: AppendReq): State {
    s.(net := s.net.(appends := s.net.appends + {m}))
  }

  /** `full` stands for the rejection of a request that does not fit the receiver's array. */
  predicate AcceptsAppend(n: Server, args: AppendEntriesArgs, full: bool) {
    n.term <= args.term && PrevMatches(n, args) && !full && 0 <= n.base <= |n.log|
  }

  predicate CanDeliverAppend(s: State, m: AppendReq, rep: AppendRep, full: bool) {
    && m in s.net.appends && m.to in s.nodes
    && var n := s.nodes[m.to];
       && rep.resp.id == m.to
       && rep.resp.success == AcceptsAppend(n, m.args, full)
       && rep.resp.term == Adopt(n, m.args.term).term
       && (rep.resp.success ==> rep.covered == Covers(m.args))
  }

  function RecordAck(h: History, x: ServerID, term: int, len: int): History {
    var key := Stand(term, x);
    if key in h.acked && h.acked[key] >= len then h else h.(acked := h.acked[key := len])
  }

  function DoAppend(s: State, m: AppendReq, rep: AppendRep, full: bool): State
    requires CanDeliverAppend(s, m, rep, full)
  {
    var n := s.nodes[m.to];
    var s := s.(net := s.net.(appendReps := s.net.appendReps + {rep}));
    if n.term > m.args.term then s
    else
      var n' := Adopt(n, m.args.term).(role := Follower);
      if !AcceptsAppend(n, m.args, full) then Put(s, m.to, n')
      else Put(s, m.to, Follow(n', m.args)).(h := RecordAck(s.h, m.to, m.args.term, Covers(m.args) + 1))
  }

  predicate CanDeliverAppendRep(s: State, r: AppendRep) {
    r in s.net.appendReps && r.to in s.nodes
  }

  /** Guard G3: only acknowledgements of the current term count, and each is credited with the
      index it carries. */
  function DoAppendRep(s: State, r: AppendRep): State
    requires CanDeliverAppendRep(s, r)
  {
    var n := s.nodes[r.to];
    if n.role != Leader then s
    else if !r.resp.success then Put(s, r.to, Adopt(n, r.resp.term))
    else if r.resp.term != n.term then s
    else Put(s, r.to, n.(matchIndex := n.matchIndex[r.resp.id := r.covered]))
  }

  function Replicated(n: Server, index: int): set<ServerID> {
    set p | p in n.matchIndex && n.matchIndex[p] >= index
  }

  predicate CanAdvanceCommit(s: State, x: ServerID, index: int) {
    && x in s.nodes && s.nodes[x].role == Leader
    && var n := s.nodes[x];
       && n.commit < index < |n.log| && 0 <= index
       && n.log[index].term == n.term
       && |Replicated(n, index)| > |s.servers| / 2
  }

  function DoAdvanceCommit(s: State, x: ServerID, index: int): State
    requires CanAdvanceCommit(s, x, index)
  {
    var n := s.nodes[x];
    Put(s, x, n.(commit := index)).(
      h := s.h.(committed := s.h.committed[Point(n.term, index + 1) := Replicated(n, index)]))
  }

  predicate CanApply(s: State, x: ServerID) {
    x in s.nodes && s.nodes[x].applied < s.nodes[x].commit
  }

  function DoApply(s: State, x: ServerID): State
    requires CanApply(s, x)
  {
    Put(s, x, s.nodes[x].(applied := s.nodes[x].applied + 1))
  }

  predicate CanCompact(s: State, x: ServerID) {
    x in s.nodes && s.nodes[x].base <= s.nodes[x].applied
  }

  function DoCompact(s: State, x: ServerID): State
    requires CanCompact(s, x)
  {
    Put(s, x, s.nodes[x].(base := s.nodes[x].applied + 1))
  }

  predicate CanSendInstall(s: State, x: ServerID, m: InstallReq) {
    && x in s.nodes && s.nodes[x].role == Leader
    && var n := s.nodes[x];
       && 0 < n.base <= |n.log|
       && m.args.term == n.term
       && m.prefix == n.log[..n.base]
       && m.args.lastIncludedIndex == n.base - 1
       && m.args.lastIncludedTerm == n.log[n.base - 1].term
  }

  function DoSendInstall(s: State, m: InstallReq): State {
    s.(net := s.net.(installs := s.net.installs + {m}))
  }

  /** Guard G6: a node holding entries past the snapshot point lets the request pass unanswered. */
  predicate HoldsMore(n: Server, m: InstallReq) {
    |n.log| > |m.prefix| && m.args.lastIncludedIndex > n.applied
  }

  predicate CanDeliverInstall(s: State, m: InstallReq, rep: InstallRep) {
    && m in s.net.installs && m.to in s.nodes
    && var n := s.nodes[m.to];
       && rep.resp.id == m.to
       && rep.resp.success == (n.term <= m.args.term)
       && rep.resp.term == Adopt(n, m.args.term).term
       && (rep.resp.success ==> rep.resp.lastIncludedIndex == m.args.lastIncludedIndex)
  }

  function Install(n: Server, m: InstallReq): Server {
    if m.args.lastIncludedIndex <= n.applied then n
    else n.(log := m.prefix, base := |m.prefix|,
            commit := m.args.lastIncludedIndex, applied := m.args.lastIncludedIndex)
  }

  function DoInstall(s: State, m: InstallReq, rep: InstallRep): State
    requires CanDeliverInstall(s, m, rep)
  {
    var n := s.nodes[m.to];
    if n.term > m.args.term then s.(net := s.net.(installReps := s.net.installReps + {rep}))
    else if HoldsMore(n, m) then Put(s, m.to, Adopt(n, m.args.term))
    else
      Put(s, m.to, Install(Adopt(n, m.args.term), m)).(
        net := s.net.(installReps := s.net.installReps + {rep}),
        h := RecordAck(s.h, m.to, m.args.term, |m.prefix|))
  }

  predicate CanDeliverInstallRep(s: State, r: InstallRep) {
    r in s.net.installReps && r.to in s.nodes
  }

  /** Guards G3 and G4: a success counts only in its own term, a failure only from a newer one. */
  function DoInstallRep(s: State, r: InstallRep): State
    requires CanDeliverInstallRep(s, r)
  {
    var n := s.nodes[r.to];
    if n.role != Leader then s
    else if !r.resp.success then Put(s, r.to, Adopt(n, r.resp.term))
    else if r.resp.term != n.term then s
    else Put(s, r.to, n.(matchIndex := n.matchIndex[r.resp.id := r.resp.lastIncludedIndex]))
  }

  predicate CanRestart(s: State, x: ServerID) {
    x in s.nodes
  }

  /** A crash keeps term, vote, log and snapshot; everything else starts afresh. */
  function Reborn(x: ServerID, n: Server, servers: set<ServerID>): Server {
    n.(role := Follower, commit := n.base - 1, applied := n.base - 1, votes := 0, voters := {},
       matchIndex := map p | p in servers && p != x :: -1)
  }

  function DoRestart(s: State, x: ServerID): State
    requires CanRestart(s, x)
  {
    Put(s, x, Reborn(x, s.nodes[x], s.servers))
  }

  /** A node may take over a newer term at any time, */
  predicate CanLearn(s: State, x: ServerID, term: int) {
    x in s.nodes && term > s.nodes[x].term
  }

  function DoLearn(s: State, x: ServerID, term: int): State
    requires CanLearn(s, x, term)
  {
    Put(s, x, Adopt(s.nodes[x], term))
  }

  /** and may step down without one. */
  predicate CanYield(s: State, x: ServerID) {
    x in s.nodes
  }

  function DoYield(s: State, x: ServerID, votes: int): State
    requires CanYield(s, x)
  {
    Put(s, x, s.nodes[x].(role := Follower, votes := votes))
  }

  // ---- runs ----

  predicate Enabled(s: State, e: Event) {
    match e
    case Timeout(n) => CanTimeout(s, n)
    case DeliverVoteReq(vq) => CanDeliverVoteReq(s, vq)
    case DeliverVoteRep(vr, room) => CanDeliverVoteRep(s, vr)
    case WinAlone(n, room) => CanWinAlone(s, n)
    case ClientAppend(n, entry) => CanClientAppend(s, n, entry)
    case SendAppend(n, ap) => CanSendAppend(s, n, ap)
    case DeliverAppend(ap, apRep, full) => CanDeliverAppend(s, ap, apRep, full)
    case DeliverAppendRep(apRep) => CanDeliverAppendRep(s, apRep)
    case AdvanceCommit(n, index) => CanAdvanceCommit(s, n, index)
    case ApplyNext(n) => CanApply(s, n)
    case Compact(n) => CanCompact(s, n)
    case SendInstall(n, ins) => CanSendInstall(s, n, ins)
    case DeliverInstall(ins, insRep) => CanDeliverInstall(s, ins, insRep)
    case DeliverInstallRep(insRep) => CanDeliverInstallRep(s, insRep)
    case Restart(n) => CanRestart(s, n)
    case Learn(n, term) => CanLearn(s, n, term)
    case Yield(n, votes) => CanYield(s, n)
  }

  /** One event; an event that is not enabled changes nothing. */
  function Step(s: State, e: Event): State {
    if !Enabled(s, e) then s
    else match e
      case Timeout(n) => DoTimeout(s, n)
      case DeliverVoteReq(vq) => DoVoteReq(s, vq)
      case DeliverVoteRep(vr, room) => DoVoteRep(s, vr, room)
      case WinAlone(n, room) => DoWinAlone(s, n, room)
      case ClientAppend(n, entry) => DoClientAppend(s, n, entry)
      case SendAppend(n, ap) => DoSendAppend(s, ap)
      case DeliverAppend(ap, apRep, full) => DoAppend(s, ap, apRep, full)
      case DeliverAppendRep(apRep) => DoAppendRep(s, apRep)
      case AdvanceCommit(n, index) => DoAdvanceCommit(s, n, index)
      case ApplyNext(n) => DoApply(s, n)
      case Compact(n) => DoCompact(s, n)
      case SendInstall(n, ins) => DoSendInstall(s, ins)
      case DeliverInstall(ins, insRep) => DoInstall(s, ins, insRep)
      case DeliverInstallRep(insRep) => DoInstallRep(s, insRep)
      case Restart(n) => DoRestart(s, n)
      case Learn(n, term) => DoLearn(s, n, term)
      case Yield(n, votes) => DoYield(s, n, votes)
  }

  function Execute(s: State, events: seq<Event>): State
    decreases |events|
  {
    if events == [] then s else Execute(Step(s, events[0]), events[1..])
  }

  function Newborn(x: ServerID, servers: set<ServerID>): Server {
    Server(0, None, Follower, [], 0, -1, -1, 0, {}, map p | p in servers && p != x :: -1)
  }

  function Start(servers: set<ServerID>): State {
    State(
      servers,
      map x | x in servers :: Newborn(x, servers),
      Net({}, {}, {}, {}, {}, {}),
      History(map[], map[], map[], map[], map[], map[], map[], map[], map[]))
  }
}
