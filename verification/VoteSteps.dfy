/** Elections: starting a candidacy, answering a vote request, counting a reply, winning. */
module VoteSteps {
  import opened Types
  import opened Agreement
  import opened Cluster
  import opened Invariant
  import opened Growth
  import opened QuietSteps

  /** A step of node x, assembled from what it owes. */
  lemma ActorStep(s: State, x: ServerID, n': Server, h': History, net': Net, s': State)
    requires Inv(s) && x in s.nodes && Grows(s.h, h', x)
    requires HistoryOk(s.servers, h') && NodeOk(s.servers, h', x, n')
    requires MessagesOk(s.servers, h', net') && BallotsOk(s.nodes[x := n'], h', net')
    requires s' == State(s.servers, s.nodes[x := n'], net', h')
    ensures Inv(s')
  {
    OtherNodes(s.servers, s.h, h', x, s.nodes, n');
  }

  // ---- recording a vote ----

  /** A log shown before its term has a leader keeps everything acknowledged in earlier terms. */
  lemma ShowsAll(h: History, x: ServerID, term: int, log: seq<RaftLog>, vote: int, t: int)
    requires h.logs.Keys == h.elected.Keys
    requires AckOk(h, x, term, log) && term <= vote && vote !in h.logs
    requires Stand(t, x) in h.acked && t < vote
    ensures KeepsAll(h, log, t, h.acked[Stand(t, x)], vote - 1)
  {
    var bound := vote - 1;
    forall m | 0 <= m <= h.acked[Stand(t, x)] ensures Held(h, log, t, m, bound) {
      assert Held(h, log, t, m, term);
      if !Agree(log, h.logs[t], m) {
        var u :| u in h.elected && t < u <= term && !Agree(h.elected[u], h.logs[t], m);
        assert u != vote;
      }
    }
  }

  lemma RecordVoteGrows(h: History, x: ServerID, vote: int, cand: ServerID, log: seq<RaftLog>)
    requires Stand(vote, x) in h.voterLogs ==> Stand(vote, x) in h.votes
    ensures Grows(h, RecordVote(h, x, vote, cand, log), x)
  {
  }

  lemma NewVoteShown(h: History, h': History, x: ServerID, term: int, vote: int, log: seq<RaftLog>, key: Stand)
    requires Grows(h, h', x) && AckOk(h, x, term, log) && term <= vote && vote !in h.logs
    requires h.logs.Keys == h.elected.Keys && AckedOk(h, key)
    requires key in h'.acked && h'.acked[key] == h.acked[key]
    requires Stand(vote, x) in h'.voterLogs && h'.voterLogs[Stand(vote, x)] == log
    ensures ShownOk(h', key, Stand(vote, x))
  {
    if x == key.server && vote > key.term {
      assert key == Stand(key.term, x);
      ShowsAll(h, x, term, log, vote, key.term);
      KeepsGrows(h, h', x, log, key.term, h.acked[key], vote - 1, vote - 1);
    }
  }

  lemma RecordVoteNews(
      servers: set<ServerID>, h: History, x: ServerID, vote: int, cand: ServerID, log: seq<RaftLog>)
    requires h.logs.Keys == h.elected.Keys == h.quorum.Keys == h.leader.Keys && Traced(log, h.logs)
    requires Stand(vote, cand) in h.bids && UpToDate(h.bids[Stand(vote, cand)], log) && 0 < vote
    requires Stand(vote, x) in h.voterLogs ==> Stand(vote, x) in h.votes
    requires var h' := RecordVote(h, x, vote, cand, log);
             forall k :: k in h.acked && Stand(vote, x) in h'.voterLogs && Stand(vote, x) !in h.voterLogs ==>
               ShownOk(h', k, Stand(vote, x))
    ensures NewsOk(servers, h, RecordVote(h, x, vote, cand, log))
  {
  }

  lemma RecordVoteOk(
      servers: set<ServerID>, h: History, x: ServerID, term: int, vote: int, cand: ServerID, log: seq<RaftLog>)
    requires HistoryOk(servers, h) && Traced(log, h.logs)
    requires AckOk(h, x, term, log) && term <= vote
    requires Stand(vote, cand) in h.bids && UpToDate(h.bids[Stand(vote, cand)], log)
    ensures Grows(h, RecordVote(h, x, vote, cand, log), x)
    ensures HistoryOk(servers, RecordVote(h, x, vote, cand, log))
  {
    var h' := RecordVote(h, x, vote, cand, log);
    var key := Stand(vote, x);
    assert key in h.voterLogs ==> VoterLogOk(h, key);
    RecordVoteGrows(h, x, vote, cand, log);
    forall k | k in h.acked && key in h'.voterLogs && key !in h.voterLogs ensures ShownOk(h', k, key) {
      assert AckedOk(h, k);
      NewVoteShown(h, h', x, term, vote, log, k);
    }
    RecordVoteNews(servers, h, x, vote, cand, log);
    HistoryGrows(servers, h, h', x);
  }

  // ---- starting a candidacy ----

  function Candidacy(x: ServerID, n: Server): Server {
    n.(term := n.term + 1, role := Candidate, votedFor := Some(x), votes := 1, voters := {x})
  }

  function Bid(h: History, x: ServerID, n: Server): History {
    h.(bids := h.bids[Stand(n.term + 1, x) := PositionOf(n.log)])
  }

  lemma BidNews(servers: set<ServerID>, h: History, x: ServerID, n: Server)
    requires h.logs.Keys == h.elected.Keys == h.quorum.Keys == h.leader.Keys && VoteOk(h, x, n.term, n.votedFor)
    ensures Grows(h, Bid(h, x, n), x) && NewsOk(servers, h, Bid(h, x, n))
  {
  }

  lemma BidOk(servers: set<ServerID>, h: History, x: ServerID, n: Server)
    requires HistoryOk(servers, h) && VoteOk(h, x, n.term, n.votedFor)
    ensures Grows(h, Bid(h, x, n), x) && HistoryOk(servers, Bid(h, x, n))
  {
    BidNews(servers, h, x, n);
    HistoryGrows(servers, h, Bid(h, x, n), x);
  }

  lemma GrowsTrans(h: History, h1: History, h2: History, x: ServerID)
    requires Grows(h, h1, x) && Grows(h1, h2, x)
    requires h1 == h.(bids := h1.bids) && h2 == h1.(votes := h2.votes, voterLogs := h2.voterLogs)
    ensures Grows(h, h2, x)
  {
  }

  lemma TimeoutHistory(servers: set<ServerID>, h: History, x: ServerID, n: Server)
    requires HistoryOk(servers, h) && NodeOk(servers, h, x, n)
    ensures var h' := RecordVote(Bid(h, x, n), x, n.term + 1, x, n.log);
            Grows(h, h', x) && HistoryOk(servers, h')
  {
    var h1 := Bid(h, x, n);
    BidOk(servers, h, x, n);
    AckGrows(servers, h, h1, x, x, n.term, n.term, n.log);
    RecordVoteOk(servers, h1, x, n.term, n.term + 1, x, n.log);
    GrowsTrans(h, h1, RecordVote(h1, x, n.term + 1, x, n.log), x);
  }

  lemma TimeoutStand(servers: set<ServerID>, h: History, x: ServerID, n: Server, h': History, n': Server)
    requires x in servers && VoteOk(h, x, n.term, n.votedFor)
    requires h' == RecordVote(Bid(h, x, n), x, n.term + 1, x, n.log) && n' == Candidacy(x, n)
    ensures VoteOk(h', x, n'.term, n'.votedFor) && CandidateOk(servers, h', x, n') && LeaderOk(h', x, n')
  {
  }

  lemma TimeoutNode(servers: set<ServerID>, h: History, x: ServerID, n: Server, h': History, n': Server)
    requires x in servers && HistoryOk(servers, h) && NodeOk(servers, h, x, n) && Grows(h, h', x)
    requires h' == RecordVote(Bid(h, x, n), x, n.term + 1, x, n.log) && n' == Candidacy(x, n)
    ensures NodeOk(servers, h', x, n')
  {
    BodyGrows(servers, h, h', x, x, n.term, n'.term, n.log, n.base, n.applied, n.commit);
    TimeoutStand(servers, h, x, n, h', n');
    NodeOfParts(servers, h', x, n');
  }

  lemma TimeoutBallots(
      servers: set<ServerID>, nodes: map<ServerID, Server>, h: History, x: ServerID, n: Server, h': History, net: Net)
    requires BallotsOk(nodes, h, net) && Grows(h, h', x) && nodes.Keys == servers && x in nodes && nodes[x] == n
    requires h'.bids == Bid(h, x, n).bids
    ensures var n' := Candidacy(x, n);
            BallotsOk(nodes[x := n'], h', net.(voteReqs := net.voteReqs + VoteRequests(x, n', servers)))
  {
    var n' := Candidacy(x, n);
    var nodes' := nodes[x := n'];
    var reqs := net.voteReqs + VoteRequests(x, n', servers);
    forall m | m in reqs ensures VoteReqOk(nodes', h', m) {
      if m in net.voteReqs {
        assert VoteReqOk(nodes, h, m);
      }
    }
    forall r | r in net.voteReps ensures VoteRepOk(nodes', h', r) {
      assert VoteRepOk(nodes, h, r);
    }
    forall m, r | m in reqs && r in net.voteReps ensures Exclusive(m, r) {
      assert VoteRepOk(nodes, h, r);
    }
  }

  lemma TimeoutInv(s: State, x: ServerID)
    requires Inv(s) && CanTimeout(s, x)
    ensures Inv(DoTimeout(s, x))
  {
    var n := s.nodes[x];
    var h' := RecordVote(Bid(s.h, x, n), x, n.term + 1, x, n.log);
    var net' := s.net.(voteReqs := s.net.voteReqs + VoteRequests(x, Candidacy(x, n), s.servers));
    NodeOf(s, x);
    TimeoutHistory(s.servers, s.h, x, n);
    TimeoutNode(s.servers, s.h, x, n, h', Candidacy(x, n));
    TimeoutBallots(s.servers, s.nodes, s.h, x, n, h', s.net);
    MessagesGrow(s.servers, s.h, h', x, s.net);
    ActorStep(s, x, Candidacy(x, n), h', net', DoTimeout(s, x));
  }

  // ---- answering a vote request ----

  function Granted(n: Server, cand: ServerID): Server {
    n.(role := Follower, votedFor := Some(cand))
  }

  /** The node that grants: its vote is its only news. */
  lemma GrantNode(
      servers: set<ServerID>, h: History, x: ServerID, n: Server, cand: ServerID, h': History)
    requires HistoryOk(servers, h) && NodeOk(servers, h, x, n) && Grows(h, h', x)
    requires n.votedFor == None || n.votedFor == Some(cand)
    requires h' == RecordVote(h, x, n.term, cand, n.log)
    ensures NodeOk(servers, h', x, Granted(n, cand))
  {
    BodyGrows(servers, h, h', x, x, n.term, n.term, n.log, n.base, n.applied, n.commit);
    GrantStand(h, x, n, cand, h');
  }

  lemma GrantStand(h: History, x: ServerID, n: Server, cand: ServerID, h': History)
    requires VoteOk(h, x, n.term, n.votedFor)
    requires n.votedFor == None || n.votedFor == Some(cand)
    requires h' == RecordVote(h, x, n.term, cand, n.log)
    ensures VoteOk(h', x, n.term, Some(cand)) && VotedFor(h', Stand(n.term, x), cand)
  {
  }

  lemma VoteReqBallots(
      nodes: map<ServerID, Server>, h: History, h': History, x: ServerID, n': Server, net: Net, m: VoteReq, rep: VoteRep)
    requires BallotsOk(nodes, h, net) && Grows(h, h', x) && m in net.voteReqs && x == m.to && x in nodes
    requires n'.term >= nodes[x].term
    requires n'.role == Candidate ==>
               nodes[x].role == Candidate && n'.term == nodes[x].term && n'.voters == nodes[x].voters
    requires rep.to == m.args.candidateID && rep.resp.id == m.to
    requires rep.resp.voteGranted ==>
               && rep.resp.term == m.args.term
               && VotedFor(h', Stand(m.args.term, x), rep.to)
               && (m.args.term in h'.logs || Stand(m.args.term, x) in h'.voterLogs)
    ensures BallotsOk(nodes[x := n'], h', net.(voteReqs := net.voteReqs - {m}, voteReps := net.voteReps + {rep}))
  {
    var net1 := net.(voteReqs := net.voteReqs - {m});
    assert BallotsOk(nodes, h, net1);
    BallotsKept(nodes, h, h', x, n', net1, net1);
    assert VoteReqOk(nodes, h, m);
    forall m' | m' in net1.voteReqs ensures Exclusive(m', rep) {
      assert VoteReqOk(nodes, h, m');
    }
  }

  lemma VoteReqInv(s: State, m: VoteReq)
    requires Inv(s) && CanDeliverVoteReq(s, m)
    ensures Inv(DoVoteReq(s, m))
  {
    var x, n0 := m.to, s.nodes[m.to];
    var n := Adopt(n0, m.args.term);
    var grant := GrantsVote(n, m.args);
    var rep := VoteRep(m.args.candidateID, RequestVoteResponse(x, n.term, grant));
    var net' := s.net.(voteReqs := s.net.voteReqs - {m}, voteReps := s.net.voteReps + {rep});
    NodeOf(s, x);
    AdoptedNode(s.servers, s.h, x, n0, m.args.term);
    if grant {
      var h' := GrantHistory(s, m, n);
      VoteReqBallots(s.nodes, s.h, h', x, Granted(n, m.args.candidateID), s.net, m, rep);
      MessagesGrow(s.servers, s.h, h', x, s.net);
      ActorStep(s, x, Granted(n, m.args.candidateID), h', net', DoVoteReq(s, m));
    } else {
      SelfGrows(s.h, x);
      VoteReqBallots(s.nodes, s.h, s.h, x, n, s.net, m, rep);
      ActorStep(s, x, n, s.h, net', DoVoteReq(s, m));
    }
  }

  lemma AdoptedNode(servers: set<ServerID>, h: History, x: ServerID, n: Server, term: int)
    requires HistoryOk(servers, h) && NodeOk(servers, h, x, n)
    ensures NodeOk(servers, h, x, Adopt(n, term)) && NodeOk(servers, h, x, Adopt(n, term).(role := Follower))
  {
    AdoptQuiet(servers, h, x, n, term);
    QuietNode(servers, h, x, n, Adopt(n, term));
    QuietNode(servers, h, x, n, Adopt(n, term).(role := Follower));
  }

  lemma GrantHistory(s: State, m: VoteReq, n: Server) returns (h': History)
    requires Inv(s) && CanDeliverVoteReq(s, m) && NodeOk(s.servers, s.h, m.to, n)
    requires GrantsVote(n, m.args)
    ensures h' == RecordVote(s.h, m.to, n.term, m.args.candidateID, n.log)
    ensures Grows(s.h, h', m.to) && HistoryOk(s.servers, h')
    ensures NodeOk(s.servers, h', m.to, Granted(n, m.args.candidateID))
    ensures VotedFor(h', Stand(n.term, m.to), m.args.candidateID)
    ensures n.term in h'.logs || Stand(n.term, m.to) in h'.voterLogs
  {
    var cand := m.args.candidateID;
    h' := RecordVote(s.h, m.to, n.term, cand, n.log);
    assert VoteReqOk(s.nodes, s.h, m);
    RecordVoteOk(s.servers, s.h, m.to, n.term, n.term, cand, n.log);
    GrantNode(s.servers, s.h, m.to, n, cand, h');
    GrantStand(s.h, m.to, n, cand, h');
  }
}
