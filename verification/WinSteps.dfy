/** Counting a vote, taking office, and appending as leader. */
module WinSteps {
  import opened Types
  import opened Agreement
  import opened Cluster
  import opened Invariant
  import opened Growth
  import opened QuietSteps
  import opened VoteSteps
  import opened Completeness

  // ---- the leader's log grows by an entry of its own term ----

  lemma TracedAppend(log: seq<RaftLog>, e: RaftLog, tlog: map<int, seq<RaftLog>>, tlog': map<int, seq<RaftLog>>)
    requires Traced(log, tlog) && Extends(tlog, tlog')
    requires e.index == |log| && e.term in tlog' && tlog'[e.term] == log + [e]
    ensures Traced(log + [e], tlog')
  {
    TracedExtends(log, tlog, tlog');
    forall i | 0 <= i < |log + [e]| ensures TracedAt(log + [e], tlog', i) {
      if i < |log| {
        assert TracedAt(log, tlog', i);
      }
    }
  }

  lemma KeepsExtended(h: History, log: seq<RaftLog>, log': seq<RaftLog>, t: int, len: int, bound: int)
    requires KeepsAll(h, log, t, len, bound) && Agree(log, log', |log|)
    ensures KeepsAll(h, log', t, len, bound)
  {
    forall m | 0 <= m <= len ensures Held(h, log', t, m, bound) {
      assert Held(h, log, t, m, bound);
    }
  }

  lemma KeepsOwn(h: History, t: int, bound: int)
    requires t in h.logs
    ensures KeepsAll(h, h.logs[t], t, |h.logs[t]|, bound)
  {
    forall m | 0 <= m <= |h.logs[t]| ensures Held(h, h.logs[t], t, m, bound) {
    }
  }

  lemma LeaderAcks(
      servers: set<ServerID>, h: History, x: ServerID, term: int, log: seq<RaftLog>, log': seq<RaftLog>, h': History)
    requires HistoryOk(servers, h) && Grows(h, h', x) && AckOk(h, x, term, log)
    requires term in h'.logs && h'.logs[term] == log' && Agree(log, log', |log|)
    requires h'.acked == h.acked[Stand(term, x) := |log'|]
    ensures AckOk(h', x, term, log')
  {
    forall t | Stand(t, x) in h'.acked
      ensures t <= term && KeepsAll(h', log', t, h'.acked[Stand(t, x)], term)
    {
      if t == term {
        KeepsOwn(h', t, term);
      } else {
        assert AckedOk(h, Stand(t, x));
        KeepsGrows(h, h', x, log, t, h.acked[Stand(t, x)], term, term);
        KeepsExtended(h', log, log', t, h.acked[Stand(t, x)], term);
      }
    }
  }

  /** A leader whose log grew at the end still has its body in order. */
  lemma LeaderBody(h: History, x: ServerID, n: Server, log': seq<RaftLog>, h': History)
    requires Grows(h, h', x) && Agree(n.log, log', |n.log|)
    requires CommitOk(h, n.term, n.log, n.base, n.applied, n.commit)
    requires LogOk(h', n.term, log') && AckOk(h', x, n.term, log')
    ensures BodyOk(h', x, n.term, log', n.base, n.applied, n.commit)
  {
    KnownGrows(h, h', x, n.log, n.term, n.commit + 1);
    KnownExtends(h', n.log, log', n.term, n.commit + 1);
  }

  /** A new acknowledgement of the present term meets no later vote of the same node. */
  lemma OwnAckShown(h: History, x: ServerID, term: int, votedFor: Option<ServerID>, h': History)
    requires VoteOk(h, x, term, votedFor)
    requires forall k :: k in h.voterLogs ==> k in h.votes
    requires h'.voterLogs == h.voterLogs
    requires forall k :: Fresh(h.acked, h'.acked, k) ==> k == Stand(term, x)
    ensures forall k, v :: Fresh(h.acked, h'.acked, k) && v in h'.voterLogs ==> ShownOk(h', k, v)
  {
    forall k, v | Fresh(h.acked, h'.acked, k) && v in h'.voterLogs ensures ShownOk(h', k, v) {
      if v.server == x && v.term > term {
        assert false;
      }
    }
  }

  // ---- client commands ----

  function ClientNode(x: ServerID, n: Server, entry: RaftLog): Server {
    n.(log := n.log + [entry], matchIndex := n.matchIndex[x := entry.index])
  }

  function ClientHistory(h: History, x: ServerID, n: Server, entry: RaftLog): History {
    h.(logs := h.logs[n.term := n.log + [entry]], acked := h.acked[Stand(n.term, x) := |n.log + [entry]|])
  }

  lemma ClientGrows(servers: set<ServerID>, h: History, x: ServerID, n: Server, entry: RaftLog)
    requires LeaderOk(h, x, n) && n.role == Leader
    requires Stand(n.term, x) in h.acked ==> AckedOk(h, Stand(n.term, x))
    ensures Grows(h, ClientHistory(h, x, n, entry), x)
  {
  }

  lemma ClientTermLog(h: History, x: ServerID, n: Server, entry: RaftLog, h': History)
    requires LogOk(h, n.term, n.log) && LeaderOk(h, x, n) && n.role == Leader && TermLogOk(h, n.term)
    requires entry.index == |n.log| && entry.term == n.term
    requires Grows(h, h', x) && h' == ClientHistory(h, x, n, entry)
    ensures TermLogOk(h', n.term)
  {
    TracedAppend(n.log, entry, h.logs, h'.logs);
  }

  lemma ClientNews(servers: set<ServerID>, h: History, x: ServerID, n: Server, entry: RaftLog, h': History)
    requires h.logs.Keys == h.elected.Keys == h.quorum.Keys == h.leader.Keys && n.term in h.logs
    requires TermLogOk(h', n.term) && h' == ClientHistory(h, x, n, entry)
    requires forall k, v :: Fresh(h.acked, h'.acked, k) && v in h'.voterLogs ==> ShownOk(h', k, v)
    ensures NewsOk(servers, h, h')
  {
  }

  lemma ClientLeader(h: History, x: ServerID, n: Server, entry: RaftLog)
    requires LeaderOk(h, x, n) && n.role == Leader && entry.index == |n.log|
    requires Grows(h, ClientHistory(h, x, n, entry), x)
    ensures LeaderOk(ClientHistory(h, x, n, entry), x, ClientNode(x, n, entry))
  {
    var h' := ClientHistory(h, x, n, entry);
    forall p | p in n.matchIndex && n.matchIndex[p] >= 0 && p != x
      ensures AckedAtLeast(h', n.term, p, n.matchIndex[p] + 1)
    {
      assert AckedAtLeast(h, n.term, p, n.matchIndex[p] + 1);
    }
  }

  lemma VoterLogsVoted(servers: set<ServerID>, h: History)
    requires HistoryOk(servers, h)
    ensures forall k :: k in h.voterLogs ==> k in h.votes
  {
    forall k | k in h.voterLogs ensures k in h.votes {
      assert VoterLogOk(h, k);
    }
  }

  lemma ClientHistoryOk(servers: set<ServerID>, h: History, x: ServerID, n: Server, entry: RaftLog)
    requires HistoryOk(servers, h) && NodeOk(servers, h, x, n) && n.role == Leader
    requires entry.index == |n.log| && entry.term == n.term
    ensures Grows(h, ClientHistory(h, x, n, entry), x) && HistoryOk(servers, ClientHistory(h, x, n, entry))
  {
    VoterLogsVoted(servers, h);
    ClientGrows(servers, h, x, n, entry);
    var h' := ClientHistory(h, x, n, entry);
    ClientTermLog(h, x, n, entry, h');
    OwnAckShown(h, x, n.term, n.votedFor, h');
    ClientNews(servers, h, x, n, entry, h');
    HistoryGrows(servers, h, h', x);
  }

  lemma ClientBody(servers: set<ServerID>, h: History, x: ServerID, n: Server, entry: RaftLog, h': History)
    requires HistoryOk(servers, h) && BodyOk(h, x, n.term, n.log, n.base, n.applied, n.commit)
    requires entry.index == |n.log| && entry.term == n.term
    requires Grows(h, h', x) && h' == ClientHistory(h, x, n, entry)
    ensures BodyOk(h', x, n.term, n.log + [entry], n.base, n.applied, n.commit)
  {
    TracedAppend(n.log, entry, h.logs, h'.logs);
    LeaderAcks(servers, h, x, n.term, n.log, n.log + [entry], h');
    LeaderBody(h, x, n, n.log + [entry], h');
  }

  lemma ClientStep(servers: set<ServerID>, h: History, x: ServerID, n: Server, entry: RaftLog)
    requires HistoryOk(servers, h) && NodeOk(servers, h, x, n) && n.role == Leader && x in servers
    requires entry.index == |n.log| && entry.term == n.term
    ensures var h' := ClientHistory(h, x, n, entry);
            Grows(h, h', x) && HistoryOk(servers, h') && NodeOk(servers, h', x, ClientNode(x, n, entry))
  {
    ClientHistoryOk(servers, h, x, n, entry);
    ClientBody(servers, h, x, n, entry, ClientHistory(h, x, n, entry));
    ClientLeader(h, x, n, entry);
  }

  lemma ClientAppendInv(s: State, x: ServerID, entry: RaftLog)
    requires Inv(s) && CanClientAppend(s, x, entry)
    ensures Inv(DoClientAppend(s, x, entry))
  {
    var n := s.nodes[x];
    var h' := ClientHistory(s.h, x, n, entry);
    NodeOf(s, x);
    ClientStep(s.servers, s.h, x, n, entry);
    MessagesGrow(s.servers, s.h, h', x, s.net);
    BallotsKept(s.nodes, s.h, h', x, ClientNode(x, n, entry), s.net, s.net);
    ActorStep(s, x, ClientNode(x, n, entry), h', s.net, DoClientAppend(s, x, entry));
  }

  // ---- counting a vote ----

  function Counted(n: Server, voter: ServerID): Server {
    n.(votes := n.votes + 1, voters := n.voters + {voter})
  }

  lemma CountNode(
      servers: set<ServerID>, nodes: map<ServerID, Server>, h: History, x: ServerID, n: Server, r: VoteRep)
    requires NodeOk(servers, h, x, n) && n.role == Candidate && nodes.Keys == servers
    requires VoteRepOk(nodes, h, r) && r.resp.voteGranted && r.to == x && r.resp.term == n.term
    requires x in nodes && nodes[x] == n
    ensures NodeOk(servers, h, x, Counted(n, r.resp.id))
  {
    assert r.resp.id !in n.voters;
  }

  lemma CountBallots(nodes: map<ServerID, Server>, h: History, x: ServerID, n: Server, net: Net, r: VoteRep)
    requires BallotsOk(nodes, h, net) && r in net.voteReps && r.resp.voteGranted && r.to == x
    requires x in nodes && nodes[x] == n && r.resp.term == n.term
    ensures BallotsOk(nodes[x := Counted(n, r.resp.id)], h, net.(voteReps := net.voteReps - {r}))
  {
    var nodes' := nodes[x := Counted(n, r.resp.id)];
    forall m | m in net.voteReqs ensures VoteReqOk(nodes', h, m) {
      assert VoteReqOk(nodes, h, m) && Exclusive(m, r);
    }
    forall r' | r' in net.voteReps - {r} ensures VoteRepOk(nodes', h, r') {
      assert VoteRepOk(nodes, h, r');
    }
  }

  // ---- taking office ----

  /** A majority of votes in a term that has a leader went to that leader. */
  lemma SameWinner(servers: set<ServerID>, h: History, x: ServerID, term: int, voters: set<ServerID>)
    requires HistoryOk(servers, h) && term in h.logs && IsMajority(voters, servers)
    requires forall v :: v in voters ==> VotedFor(h, Stand(term, v), x)
    ensures h.leader[term] == x
  {
    var q := h.quorum[term];
    assert TermVoteOk(servers, h, term);
    var v := MajoritiesMeet(q, voters, servers);
    assert VotedFor(h, Stand(term, v), h.leader[term]) && VotedFor(h, Stand(term, v), x);
  }

  /** Nobody else leads the term of a candidate with a majority. */
  lemma TermIsFree(servers: set<ServerID>, h: History, x: ServerID, n: Server)
    requires HistoryOk(servers, h) && CandidateOk(servers, h, x, n) && n.role == Candidate
    requires n.votes > |servers| / 2
    ensures n.term !in h.logs
  {
    if n.term in h.logs {
      SameWinner(servers, h, x, n.term, n.voters);
    }
  }

  lemma WinGrows(h: History, x: ServerID, n: Server, crowned: Server)
    requires n.term !in h.logs && n.term !in h.leader && n.term !in h.quorum && n.term !in h.elected
    requires Stand(n.term, x) !in h.acked
    ensures Grows(h, RecordWin(h, x, n, crowned), x)
  {
  }

  /** The elected log has only earlier terms: the new term has no entries yet. */
  lemma ElectedEarlier(h: History, n: Server)
    requires LogOk(h, n.term, n.log) && n.term !in h.logs
    ensures forall i :: 0 <= i < |n.log| ==> n.log[i].term < n.term
  {
    forall i | 0 <= i < |n.log| ensures n.log[i].term < n.term {
      assert TracedAt(n.log, h.logs, i);
    }
  }

  lemma CrownedTraced(h: History, x: ServerID, n: Server, room: bool, h': History)
    requires LogOk(h, n.term, n.log) && Grows(h, h', x)
    requires h' == RecordWin(h, x, n, Crown(x, n, room))
    ensures LogOk(h', n.term, Crown(x, n, room).log)
  {
    TracedExtends(n.log, h.logs, h'.logs);
    if room {
      var entry := Crown(x, n, room).log[|n.log|];
      TracedAppend(n.log, entry, h.logs, h'.logs);
    }
  }

  lemma WinTermLog(h: History, x: ServerID, n: Server, room: bool, h': History)
    requires LogOk(h, n.term, n.log) && n.term !in h.logs && 0 < n.term
    requires Grows(h, h', x) && h' == RecordWin(h, x, n, Crown(x, n, room))
    ensures TermLogOk(h', n.term)
  {
    ElectedEarlier(h, n);
    CrownedTraced(h, x, n, room, h');
  }

  lemma WinTermVote(servers: set<ServerID>, h: History, x: ServerID, n: Server, room: bool, h': History)
    requires n.term !in h.logs
    requires CandidateOk(servers, h, x, n) && n.role == Candidate && n.votes > |servers| / 2
    requires Grows(h, h', x) && h' == RecordWin(h, x, n, Crown(x, n, room))
    ensures TermVoteOk(servers, h', n.term)
  {
  }

  lemma WinNews(servers: set<ServerID>, h: History, x: ServerID, n: Server, room: bool, h': History)
    requires h.logs.Keys == h.elected.Keys == h.quorum.Keys == h.leader.Keys
    requires TermLogOk(h', n.term) && TermVoteOk(servers, h', n.term)
    requires forall k, v :: Fresh(h.acked, h'.acked, k) && v in h'.voterLogs ==> ShownOk(h', k, v)
    requires h' == RecordWin(h, x, n, Crown(x, n, room))
    ensures NewsOk(servers, h, h')
  {
  }

  lemma WinnerGrows(servers: set<ServerID>, h: History, x: ServerID, n: Server, room: bool)
    requires HistoryOk(servers, h) && NodeOk(servers, h, x, n)
    requires n.role == Candidate && n.votes > |servers| / 2
    ensures n.term !in h.logs && Grows(h, RecordWin(h, x, n, Crown(x, n, room)), x)
  {
    TermIsFree(servers, h, x, n);
    assert Stand(n.term, x) in h.acked ==> AckedOk(h, Stand(n.term, x));
    WinGrows(h, x, n, Crown(x, n, room));
  }

  lemma WinHistoryOk(servers: set<ServerID>, h: History, x: ServerID, n: Server, room: bool) returns (h': History)
    requires HistoryOk(servers, h) && NodeOk(servers, h, x, n)
    requires n.role == Candidate && n.votes > |servers| / 2
    ensures h' == RecordWin(h, x, n, Crown(x, n, room))
    ensures n.term !in h.logs && Grows(h, h', x) && HistoryOk(servers, h')
  {
    h' := RecordWin(h, x, n, Crown(x, n, room));
    WinnerGrows(servers, h, x, n, room);
    VoterLogsVoted(servers, h);
    WinTermLog(h, x, n, room, h');
    WinTermVote(servers, h, x, n, room, h');
    OwnAckShown(h, x, n.term, n.votedFor, h');
    WinNews(servers, h, x, n, room, h');
    HistoryGrows(servers, h, h', x);
  }

  lemma WinStand(servers: set<ServerID>, h: History, x: ServerID, n: Server, room: bool, h': History)
    requires VoteOk(h, x, n.term, n.votedFor) && n.matchIndex.Keys <= servers && x in servers
    requires h' == RecordWin(h, x, n, Crown(x, n, room))
    ensures var crowned := Crown(x, n, room);
            VoteOk(h', x, n.term, n.votedFor) && LeaderOk(h', x, crowned) && crowned.matchIndex.Keys <= servers
  {
  }

  lemma WinNode(servers: set<ServerID>, h: History, x: ServerID, n: Server, room: bool, h': History)
    requires HistoryOk(servers, h) && NodeOk(servers, h, x, n) && x in servers
    requires Grows(h, h', x) && h' == RecordWin(h, x, n, Crown(x, n, room))
    ensures NodeOk(servers, h', x, Crown(x, n, room))
  {
    var crowned := Crown(x, n, room);
    CrownedTraced(h, x, n, room, h');
    LeaderAcks(servers, h, x, n.term, n.log, crowned.log, h');
    LeaderBody(h, x, n, crowned.log, h');
    WinStand(servers, h, x, n, room, h');
  }

  lemma WinInv(s: State, x: ServerID, n: Server, net: Net, room: bool, s': State)
    requires Inv(s) && x in s.nodes && NodeOk(s.servers, s.h, x, n)
    requires n.role == Candidate && n.votes > |s.servers| / 2 && s.nodes[x].term == n.term
    requires net == s.net.(voteReps := net.voteReps) && net.voteReps <= s.net.voteReps
    requires s' == DoWin(s.(net := net), x, n, room)
    ensures Inv(s')
  {
    var h' := WinHistoryOk(s.servers, s.h, x, n, room);
    WinNode(s.servers, s.h, x, n, room, h');
    MessagesGrow(s.servers, s.h, h', x, s.net);
    BallotsKept(s.nodes, s.h, h', x, Crown(x, n, room), s.net, net);
    ActorStep(s, x, Crown(x, n, room), h', net, s');
  }

  lemma WinAloneInv(s: State, x: ServerID, room: bool)
    requires Inv(s) && CanWinAlone(s, x)
    ensures Inv(DoWinAlone(s, x, room))
  {
    NodeOf(s, x);
    AloneVotes(s, x);
    WinInv(s, x, s.nodes[x], s.net, room, DoWinAlone(s, x, room));
  }

  lemma AloneVotes(s: State, x: ServerID)
    requires CanWinAlone(s, x) && NodeOk(s.servers, s.h, x, s.nodes[x])
    ensures s.nodes[x].votes > |s.servers| / 2
  {
  }

  lemma DropReply(s: State, r: VoteRep, s': State)
    requires Inv(s) && s' == s.(net := s.net.(voteReps := s.net.voteReps - {r}))
    ensures Inv(s')
  {
  }

  lemma DeposedMove(s: State, s1: State, r: VoteRep) returns (n': Server)
    requires CanDeliverVoteRep(s, r) && NodeOk(s.servers, s.h, r.to, s.nodes[r.to])
    requires s.nodes[r.to].role == Candidate && r.resp.term > s.nodes[r.to].term
    requires s1 == s.(net := s.net.(voteReps := s.net.voteReps - {r}))
    ensures Quiet(s.servers, s.h, r.to, s.nodes[r.to], n') && DoVoteRep(s, r, false) == Put(s1, r.to, n')
    ensures DoVoteRep(s, r, true) == DoVoteRep(s, r, false)
  {
    AdoptQuiet(s.servers, s.h, r.to, s.nodes[r.to], r.resp.term);
    n' := Adopt(s.nodes[r.to], r.resp.term).(votes := 0);
  }

  lemma VoteRepInv(s: State, r: VoteRep, room: bool)
    requires Inv(s) && CanDeliverVoteRep(s, r)
    ensures Inv(DoVoteRep(s, r, room))
  {
    var x, n := r.to, s.nodes[r.to];
    var net := s.net.(voteReps := s.net.voteReps - {r});
    DropReply(s, r, s.(net := net));
    if n.role == Candidate {
      NodeOf(s, x);
      if r.resp.term > n.term {
        var n' := DeposedMove(s, s.(net := net), r);
        QuietStep(s.(net := net), x, n', DoVoteRep(s, r, room));
      } else if r.resp.term == n.term && r.resp.voteGranted {
        CountInv(s, r, room);
      }
    }
  }

  lemma CountInv(s: State, r: VoteRep, room: bool)
    requires Inv(s) && CanDeliverVoteRep(s, r) && NodeOk(s.servers, s.h, r.to, s.nodes[r.to])
    requires s.nodes[r.to].role == Candidate && r.resp.term == s.nodes[r.to].term && r.resp.voteGranted
    ensures Inv(DoVoteRep(s, r, room))
  {
    var x, n := r.to, s.nodes[r.to];
    var net := s.net.(voteReps := s.net.voteReps - {r});
    assert VoteRepOk(s.nodes, s.h, r);
    CountNode(s.servers, s.nodes, s.h, x, n, r);
    var n' := Counted(n, r.resp.id);
    if n'.votes > |s.servers| / 2 {
      WinInv(s, x, n', net, room, DoVoteRep(s, r, room));
    } else {
      CountBallots(s.nodes, s.h, x, n, s.net, r);
      SelfGrows(s.h, x);
      ActorStep(s, x, n', s.h, net, DoVoteRep(s, r, room));
    }
  }
}
