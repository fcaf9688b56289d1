/** The inductive invariant of the cluster. Every conjunct speaks of the history and one node, or
    of the history and one message, so that a step has to re-establish only what its own node and
    its own message need. */
module Invariant {
  import opened Types
  import opened Agreement
  import opened Cluster

  // ---- the history by itself ----

  /** The log of each term's leader: what it had when elected, then entries of its own term. */
  ghost predicate TermLogOk(h: History, t: int) {
    && 0 < t && t in h.logs && t in h.elected
    && Traced(h.logs[t], h.logs)
    && Agree(h.elected[t], h.logs[t], |h.elected[t]|)
    && (forall i :: 0 <= i < |h.elected[t]| ==> h.elected[t][i].term < t)
    && (forall i :: |h.elected[t]| <= i < |h.logs[t]| ==> h.logs[t][i].term == t)
  }

  /** The leader of each term was chosen by a majority that had seen its bid. */
  ghost predicate TermVoteOk(servers: set<ServerID>, h: History, t: int) {
    && t in h.elected && t in h.leader && t in h.quorum
    && IsMajority(h.quorum[t], servers)
    && Stand(t, h.leader[t]) in h.bids
    && h.bids[Stand(t, h.leader[t])] == PositionOf(h.elected[t])
    && forall v :: v in h.quorum[t] ==> VotedFor(h, Stand(t, v), h.leader[t]) && Stand(t, v) in h.voterLogs
  }

  ghost predicate VotedFor(h: History, key: Stand, cand: ServerID) {
    key in h.votes && h.votes[key] == cand
  }

  ghost predicate VoterLogOk(h: History, key: Stand) {
    && key in h.voterLogs && key in h.votes
    && Stand(key.term, h.votes[key]) in h.bids
    && Traced(h.voterLogs[key], h.logs)
    && UpToDate(h.bids[Stand(key.term, h.votes[key])], h.voterLogs[key])
  }

  ghost predicate AckedAtLeast(h: History, t: int, x: ServerID, len: int) {
    Stand(t, x) in h.acked && len <= h.acked[Stand(t, x)]
  }

  ghost predicate PointOk(servers: set<ServerID>, h: History, p: Point) {
    && p in h.committed
    && p.term in h.logs
    && 0 < p.len <= |h.logs[p.term]|
    && h.logs[p.term][p.len - 1].term == p.term
    && IsMajority(h.committed[p], servers)
    && forall v :: v in h.committed[p] ==> AckedAtLeast(h, p.term, v, p.len)
  }

  /** The log still has the first m entries that the leader of term t had, or a later leader up to
      `bound` took office without them. */
  ghost predicate Held(h: History, log: seq<RaftLog>, t: int, m: int, bound: int) {
    t in h.logs && (Agree(log, h.logs[t], m) || Superseded(h, t, m, bound))
  }

  ghost predicate Superseded(h: History, t: int, m: int, bound: int) {
    t in h.logs && exists u :: u in h.elected && t < u <= bound && !Agree(h.elected[u], h.logs[t], m)
  }

  ghost predicate KeepsAll(h: History, log: seq<RaftLog>, t: int, len: int, bound: int) {
    forall m :: 0 <= m <= len ==> Held(h, log, t, m, bound)
  }

  ghost predicate AckedOk(h: History, key: Stand) {
    && key in h.acked
    && key.term in h.logs
    && h.acked[key] <= |h.logs[key.term]|
  }

  /** The log a node showed at a vote still held what it had acknowledged in an earlier term. */
  ghost predicate ShownOk(h: History, key: Stand, vote: Stand) {
    key in h.acked && vote in h.voterLogs && vote.server == key.server && vote.term > key.term ==>
      KeepsAll(h, h.voterLogs[vote], key.term, h.acked[key], vote.term - 1)
  }

  ghost predicate HistoryOk(servers: set<ServerID>, h: History) {
    && h.logs.Keys == h.elected.Keys == h.quorum.Keys == h.leader.Keys
    && (forall key :: key in h.acked ==> AckedOk(h, key))
    && (forall key, vote :: key in h.acked && vote in h.voterLogs ==> ShownOk(h, key, vote))
    && (forall t :: t in h.logs ==> TermLogOk(h, t))
    && (forall t {:trigger h.quorum[t]} :: t in h.logs ==> TermVoteOk(servers, h, t))
    && (forall key :: key in h.voterLogs ==> VoterLogOk(h, key))
    && (forall key :: key in h.votes ==> 0 < key.term && (key.term in h.logs || key in h.voterLogs))
    && (forall key :: key in h.bids ==> 0 < key.term)
    && (forall p :: p in h.committed ==> PointOk(servers, h, p))
  }

  // ---- a node ----

  ghost predicate LogOk(h: History, term: int, log: seq<RaftLog>) {
    && Traced(log, h.logs)
    && forall i :: 0 <= i < |log| ==> log[i].term <= term
  }

  /** One vote per term, remembered while the term lasts. */
  ghost predicate VoteOk(h: History, x: ServerID, term: int, votedFor: Option<ServerID>) {
    && term >= 0
    && (forall t :: Stand(t, x) in h.votes ==>
          t <= term && (t == term ==> votedFor == Some(h.votes[Stand(t, x)])))
    && (votedFor.Some? ==> Stand(term, x) in h.votes)
    && (forall t :: Stand(t, x) in h.bids ==> t <= term)
    && (forall t :: t in h.leader && h.leader[t] == x ==> t <= term)
  }

  /** What a node acknowledged, its log still holds. */
  ghost predicate AckOk(h: History, x: ServerID, term: int, log: seq<RaftLog>) {
    forall t :: Stand(t, x) in h.acked ==>
      t <= term && KeepsAll(h, log, t, h.acked[Stand(t, x)], term)
  }

  /** The first len entries of the log are committed by some leader no later than the term. */
  ghost predicate Known(h: History, log: seq<RaftLog>, term: int, len: int) {
    len <= 0 || exists p :: p in h.committed && KnownBy(h, log, term, len, p)
  }

  ghost predicate KnownBy(h: History, log: seq<RaftLog>, term: int, len: int, p: Point) {
    p.term <= term && len <= p.len && p.term in h.logs && Agree(log, h.logs[p.term], len)
  }

  ghost predicate CommitOk(h: History, term: int, log: seq<RaftLog>, base: int, applied: int, commit: int) {
    && 0 <= base <= applied + 1
    && applied <= commit < |log|
    && Known(h, log, term, commit + 1)
  }

  ghost predicate CandidateOk(servers: set<ServerID>, h: History, x: ServerID, n: Server) {
    n.role == Candidate ==>
      && 0 < n.term && n.votes == |n.voters| && x in n.voters && n.voters <= servers
      && n.votedFor == Some(x)
      && Stand(n.term, x) in h.bids
      && (n.term in h.leader ==> h.leader[n.term] != x)
      && (n.term in h.logs || h.bids[Stand(n.term, x)] == PositionOf(n.log))
      && forall v :: v in n.voters ==>
           VotedFor(h, Stand(n.term, v), x) && (n.term in h.logs || Stand(n.term, v) in h.voterLogs)
  }

  ghost predicate LeaderOk(h: History, x: ServerID, n: Server) {
    n.role == Leader ==>
      && n.term in h.logs && h.logs[n.term] == n.log
      && n.term in h.leader && h.leader[n.term] == x
      && (forall p :: p in n.matchIndex && n.matchIndex[p] >= 0 ==> AckedAtLeast(h, n.term, p, n.matchIndex[p] + 1))
  }

  ghost predicate NodeOk(servers: set<ServerID>, h: History, x: ServerID, n: Server) {
    && LogOk(h, n.term, n.log)
    && VoteOk(h, x, n.term, n.votedFor)
    && AckOk(h, x, n.term, n.log)
    && CommitOk(h, n.term, n.log, n.base, n.applied, n.commit)
    && CandidateOk(servers, h, x, n)
    && LeaderOk(h, x, n)
    && n.matchIndex.Keys <= servers
  }

  // ---- a message ----

  ghost predicate AppendReqOk(h: History, m: AppendReq) {
    && m.args.term in h.logs
    && var log := h.logs[m.args.term];
       && -1 <= m.args.prevLogIndex < |log|
       && IsSlice(m.args.entries, log, m.args.prevLogIndex + 1)
       && (m.args.prevLogIndex >= 0 ==> m.args.prevLogTerm == log[m.args.prevLogIndex].term)
       && m.args.leaderCommit <= Covers(m.args)
       && Known(h, log, m.args.term, m.args.leaderCommit + 1)
  }

  ghost predicate AppendRepOk(servers: set<ServerID>, h: History, r: AppendRep) {
    r.resp.success ==> r.resp.id in servers && AckedAtLeast(h, r.resp.term, r.resp.id, r.covered + 1)
  }

  ghost predicate InstallReqOk(h: History, m: InstallReq) {
    && m.args.term in h.logs
    && m.prefix != []
    && m.args.lastIncludedIndex == |m.prefix| - 1
    && m.args.lastIncludedTerm == LastTerm(m.prefix)
    && Agree(m.prefix, h.logs[m.args.term], |m.prefix|)
    && Known(h, m.prefix, m.args.term, |m.prefix|)
  }

  ghost predicate InstallRepOk(servers: set<ServerID>, h: History, r: InstallRep) {
    r.resp.success ==>
      r.resp.id in servers && AckedAtLeast(h, r.resp.term, r.resp.id, r.resp.lastIncludedIndex + 1)
  }

  ghost predicate MessagesOk(servers: set<ServerID>, h: History, net: Net) {
    && (forall m :: m in net.appends ==> AppendReqOk(h, m))
    && (forall r :: r in net.appendReps ==> AppendRepOk(servers, h, r))
    && (forall m :: m in net.installs ==> InstallReqOk(h, m))
    && (forall r :: r in net.installReps ==> InstallRepOk(servers, h, r))
  }

  // ---- vote requests and replies: each voter is counted at most once ----

  /** x is still waiting for the voter's answer in this term. */
  ghost predicate Awaits(nodes: map<ServerID, Server>, x: ServerID, term: int, voter: ServerID) {
    && x in nodes && voter != x
    && term <= nodes[x].term
    && (nodes[x].role == Candidate && nodes[x].term == term ==> voter !in nodes[x].voters)
  }

  ghost predicate VoteReqOk(nodes: map<ServerID, Server>, h: History, m: VoteReq) {
    && m.to in nodes
    && Awaits(nodes, m.args.candidateID, m.args.term, m.to)
    && Stand(m.args.term, m.args.candidateID) in h.bids
    && h.bids[Stand(m.args.term, m.args.candidateID)] == Position(m.args.lastLogTerm, m.args.lastLogIndex)
  }

  ghost predicate VoteRepOk(nodes: map<ServerID, Server>, h: History, r: VoteRep) {
    r.resp.voteGranted ==>
      && r.resp.id in nodes
      && Awaits(nodes, r.to, r.resp.term, r.resp.id)
      && VotedFor(h, Stand(r.resp.term, r.resp.id), r.to)
      && (r.resp.term in h.logs || Stand(r.resp.term, r.resp.id) in h.voterLogs)
  }

  /** A request and a granted reply of the same candidacy and voter are never in flight together. */
  ghost predicate Exclusive(m: VoteReq, r: VoteRep) {
    !(r.resp.voteGranted && r.to == m.args.candidateID && r.resp.id == m.to && r.resp.term == m.args.term)
  }

  ghost predicate BallotsOk(nodes: map<ServerID, Server>, h: History, net: Net) {
    && (forall m :: m in net.voteReqs ==> VoteReqOk(nodes, h, m))
    && (forall r :: r in net.voteReps ==> VoteRepOk(nodes, h, r))
    && (forall m, r :: m in net.voteReqs && r in net.voteReps ==> Exclusive(m, r))
  }

  ghost predicate NodesOk(servers: set<ServerID>, h: History, nodes: map<ServerID, Server>) {
    forall x {:trigger nodes[x]} :: x in nodes ==> NodeOk(servers, h, x, nodes[x])
  }

  ghost predicate Inv(s: State) {
    && s.nodes.Keys == s.servers
    && HistoryOk(s.servers, s.h)
    && NodesOk(s.servers, s.h, s.nodes)
    && MessagesOk(s.servers, s.h, s.net)
    && BallotsOk(s.nodes, s.h, s.net)
  }

  lemma StartInv(servers: set<ServerID>)
    ensures Inv(Start(servers))
  {
  }
}
