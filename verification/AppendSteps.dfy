/** Following a leader: merging its entries, installing its snapshot, and, for the leader,
    advancing the commit index. */
module AppendSteps {
  import opened Types
  import opened Agreement
  import opened Cluster
  import opened Invariant
  import opened Growth
  import opened QuietSteps
  import opened VoteSteps
  import opened WinSteps
  import opened Completeness

  lemma PointInLater(servers: set<ServerID>, h: History, p: Point, t: int)
    requires HistoryOk(servers, h) && p in h.committed && p.term <= t && t in h.logs
    ensures p.term in h.logs && Agree(h.logs[t], h.logs[p.term], p.len)
  {
    assert PointOk(servers, h, p);
    if p.term < t {
      LeaderCompleteness(servers, h, p, t);
      assert TermLogOk(h, t);
    }
  }

  /** What is known to be committed is in the log of every leader of that term or a later one. */
  lemma KnownInLater(servers: set<ServerID>, h: History, log: seq<RaftLog>, term: int, len: int, t: int)
    requires HistoryOk(servers, h) && Known(h, log, term, len) && term <= t && t in h.logs
    ensures Agree(log, h.logs[t], len)
  {
    if len > 0 {
      var p :| p in h.committed && KnownBy(h, log, term, len, p);
      PointInLater(servers, h, p, t);
    }
  }

  // ---- replacing a log by one that still agrees with the leader ----

  /** Whatever agreed with the leader's log still does. */
  ghost predicate Retains(log: seq<RaftLog>, log': seq<RaftLog>, leaderLog: seq<RaftLog>) {
    forall m :: Agree(log, leaderLog, m) ==> Agree(log', leaderLog, m)
  }

  lemma RetainedHeld(
      h: History, log: seq<RaftLog>, log': seq<RaftLog>, t: int, m: int, bound: int, term: int)
    requires term in h.logs && TermLogOk(h, term) && Retains(log, log', h.logs[term])
    requires Held(h, log, t, m, bound) && bound <= term && t <= term
    ensures Held(h, log', t, m, term)
  {
    if Agree(log, h.logs[t], m) && t < term && Agree(h.elected[term], h.logs[t], m) {
      assert Agree(log, h.logs[term], m);
    }
  }

  lemma RetainedAcks(
      h: History, x: ServerID, term: int, log: seq<RaftLog>, term': int, log': seq<RaftLog>)
    requires term' in h.logs && TermLogOk(h, term') && Retains(log, log', h.logs[term'])
    requires AckOk(h, x, term, log) && term <= term'
    ensures AckOk(h, x, term', log')
  {
    forall t | Stand(t, x) in h.acked ensures t <= term' && KeepsAll(h, log', t, h.acked[Stand(t, x)], term') {
      forall m | 0 <= m <= h.acked[Stand(t, x)] ensures Held(h, log', t, m, term') {
        assert Held(h, log, t, m, term);
        RetainedHeld(h, log, log', t, m, term, term');
      }
    }
  }

  // ---- recording an acknowledgement ----

  lemma NewAckGrows(h: History, x: ServerID, term: int, len: int, h': History)
    requires h' == h.(acked := h.acked[Stand(term, x) := len])
    requires Stand(term, x) in h.acked ==> h.acked[Stand(term, x)] <= len
    ensures Grows(h, h', x)
  {
  }

  lemma RecordAckNews(servers: set<ServerID>, h: History, x: ServerID, term: int, len: int, h': History)
    requires h.logs.Keys == h.elected.Keys == h.quorum.Keys == h.leader.Keys
    requires term in h.logs && len <= |h.logs[term]| && h' == h.(acked := h.acked[Stand(term, x) := len])
    requires forall k, v :: Fresh(h.acked, h'.acked, k) && v in h'.voterLogs ==> ShownOk(h', k, v)
    ensures NewsOk(servers, h, h')
  {
  }

  lemma RecordAckOk(servers: set<ServerID>, h: History, x: ServerID, term: int, len: int, votedFor: Option<ServerID>)
    requires HistoryOk(servers, h) && VoteOk(h, x, term, votedFor) && term in h.logs && len <= |h.logs[term]|
    ensures Grows(h, RecordAck(h, x, term, len), x) && HistoryOk(servers, RecordAck(h, x, term, len))
    ensures AckedAtLeast(RecordAck(h, x, term, len), term, x, len)
  {
    var h' := RecordAck(h, x, term, len);
    if Stand(term, x) in h.acked && h.acked[Stand(term, x)] >= len {
      SelfGrows(h, x);
    } else {
      NewAckGrows(h, x, term, len, h');
      VoterLogsVoted(servers, h);
      OwnAckShown(h, x, term, votedFor, h');
      RecordAckNews(servers, h, x, term, len, h');
      HistoryGrows(servers, h, h', x);
    }
  }

  lemma RecordedAcks(servers: set<ServerID>, h: History, x: ServerID, term: int, log: seq<RaftLog>, len: int, h': History)
    requires HistoryOk(servers, h) && AckOk(h, x, term, log) && Grows(h, h', x)
    requires term in h.logs && Agree(log, h.logs[term], len) && h' == RecordAck(h, x, term, len)
    ensures AckOk(h', x, term, log)
  {
    forall t | Stand(t, x) in h'.acked ensures t <= term && KeepsAll(h', log, t, h'.acked[Stand(t, x)], term) {
      if h' == h {
      } else if t == term {
        forall m | 0 <= m <= len ensures Held(h', log, t, m, term) {
          assert Agree(log, h.logs[t], m);
        }
      } else {
        assert AckedOk(h, Stand(t, x));
        KeepsGrows(h, h', x, log, t, h.acked[Stand(t, x)], term, term);
      }
    }
  }

  // ---- the merge ----

  lemma RestIsSlice(n: Server, args: AppendEntriesArgs, leaderLog: seq<RaftLog>)
    requires -1 <= args.prevLogIndex && IsSlice(args.entries, leaderLog, args.prevLogIndex + 1)
    requires 0 <= MergeStart(n, args) <= |leaderLog|
    ensures IsSlice(MergeRest(n, args), leaderLog, MergeStart(n, args))
  {
  }

  /** The receiver's log agrees with the leader's up to where the merge starts. */
  lemma MergePoint(h: History, n: Server, m: AppendReq)
    requires n.term == m.args.term && n.term in h.logs && TermLogOk(h, n.term)
    requires LogOk(h, n.term, n.log) && Agree(n.log, h.logs[n.term], n.commit + 1)
    requires AppendReqOk(h, m) && PrevMatches(n, m.args) && 0 <= n.base <= n.commit + 1
    ensures 0 <= MergeStart(n, m.args) && Agree(n.log, h.logs[n.term], MergeStart(n, m.args))
  {
    var prev := m.args.prevLogIndex;
    if prev >= n.base {
      TracedMatch(n.log, h.logs[n.term], h.logs, prev);
    }
  }

  /** The merged log: it reaches what the request covers and loses nothing that agreed. */
  lemma MergeResult(h: History, n: Server, m: AppendReq)
    requires n.term == m.args.term && n.term in h.logs && TermLogOk(h, n.term)
    requires LogOk(h, n.term, n.log) && Agree(n.log, h.logs[n.term], n.commit + 1)
    requires AppendReqOk(h, m) && PrevMatches(n, m.args) && 0 <= n.base <= n.commit + 1 <= |n.log|
    ensures var log', L := Follow(n, m.args).log, h.logs[n.term];
            Traced(log', h.logs) && Agree(log', L, Covers(m.args) + 1) && Retains(n.log, log', L)
            && (log' == n.log || Agree(log', L, |log'|))
  {
    MergePoint(h, n, m);
    RestIsSlice(n, m.args, h.logs[n.term]);
    MergeAgrees(n.log, h.logs[n.term], h.logs, MergeStart(n, m.args), MergeRest(n, m.args));
  }

  lemma MergedTerms(h: History, term: int, log: seq<RaftLog>, log': seq<RaftLog>)
    requires LogOk(h, term, log) && Traced(log', h.logs) && term in h.logs && TermLogOk(h, term)
    requires log' == log || Agree(log', h.logs[term], |log'|)
    ensures LogOk(h, term, log')
  {
  }

  /** The commit index a follower ends with is one it has matched and the leader had committed. */
  lemma FollowedCommit(h: History, n: Server, m: AppendReq, log': seq<RaftLog>, commit': int)
    requires AppendReqOk(h, m) && n.term == m.args.term && TermLogOk(h, n.term)
    requires CommitOk(h, n.term, n.log, n.base, n.applied, n.commit)
    requires Agree(n.log, h.logs[n.term], n.commit + 1) && Retains(n.log, log', h.logs[n.term])
    requires Agree(log', h.logs[n.term], Covers(m.args) + 1)
    requires commit' == FollowCommit(n.commit, m.args, MergeRest(n, m.args))
    ensures CommitOk(h, n.term, log', n.base, n.applied, commit')
    ensures commit' == if m.args.leaderCommit > n.commit then m.args.leaderCommit else n.commit
  {
    assert Agree(log', h.logs[n.term], n.commit + 1);
    KnownExtends(h, n.log, log', n.term, n.commit + 1);
    if m.args.leaderCommit > n.commit {
      if MergeRest(n, m.args) != [] {
        LastCovered(h, n, m);
      }
      KnownExtends(h, h.logs[n.term], log', n.term, m.args.leaderCommit + 1);
    }
  }

  lemma LastCovered(h: History, n: Server, m: AppendReq)
    requires AppendReqOk(h, m) && TermLogOk(h, m.args.term) && MergeRest(n, m.args) != []
    ensures var rest := MergeRest(n, m.args); rest[|rest| - 1].index == Covers(m.args)
  {
    var rest, last := MergeRest(n, m.args), |m.args.entries| - 1;
    assert rest[|rest| - 1] == m.args.entries[last];
    assert TracedAt(h.logs[m.args.term], h.logs, m.args.prevLogIndex + 1 + last);
  }

  lemma FollowBody(servers: set<ServerID>, h: History, x: ServerID, n: Server, m: AppendReq)
    requires HistoryOk(servers, h) && BodyOk(h, x, n.term, n.log, n.base, n.applied, n.commit)
    requires AppendReqOk(h, m) && PrevMatches(n, m.args) && 0 <= n.base <= |n.log| && n.term == m.args.term
    ensures var n' := Follow(n, m.args);
            BodyOk(h, x, n.term, n'.log, n'.base, n'.applied, n'.commit)
            && Agree(n'.log, h.logs[n.term], Covers(m.args) + 1)
  {
    var log' := Follow(n, m.args).log;
    assert TermLogOk(h, n.term);
    KnownInLater(servers, h, n.log, n.term, n.commit + 1, n.term);
    MergeResult(h, n, m);
    MergedTerms(h, n.term, n.log, log');
    RetainedAcks(h, x, n.term, n.log, n.term, log');
    FollowedCommit(h, n, m, log', Follow(n, m.args).commit);
  }

  /** A body and a new acknowledgement within it. */
  lemma AckedBody(
      servers: set<ServerID>, h: History, x: ServerID, term: int, log: seq<RaftLog>, base: int, applied: int,
      commit: int, len: int, h': History)
    requires HistoryOk(servers, h) && AckOk(h, x, term, log) && Grows(h, h', x)
    requires LogOk(h, term, log) && CommitOk(h, term, log, base, applied, commit)
    requires term in h.logs && Agree(log, h.logs[term], len) && h' == RecordAck(h, x, term, len)
    ensures BodyOk(h', x, term, log, base, applied, commit)
  {
    RecordedAcks(servers, h, x, term, log, len, h');
    AckedRest(h, x, term, log, base, applied, commit, h');
  }

  lemma AckedRest(
      h: History, x: ServerID, term: int, log: seq<RaftLog>, base: int, applied: int, commit: int, h': History)
    requires LogOk(h, term, log) && CommitOk(h, term, log, base, applied, commit) && Grows(h, h', x)
    ensures LogOk(h', term, log) && CommitOk(h', term, log, base, applied, commit)
  {
    TracedExtends(log, h.logs, h'.logs);
    KnownGrows(h, h', x, log, term, commit + 1);
  }

  lemma FollowNode(servers: set<ServerID>, h: History, x: ServerID, n: Server, m: AppendReq, n': Server, h': History)
    requires HistoryOk(servers, h) && NodeOk(servers, h, x, n) && n.role == Follower
    requires AppendReqOk(h, m) && PrevMatches(n, m.args) && 0 <= n.base <= |n.log| && n.term == m.args.term
    requires n' == Follow(n, m.args) && h' == RecordAck(h, x, n.term, Covers(m.args) + 1) && Grows(h, h', x)
    ensures NodeOk(servers, h', x, n')
  {
    FollowBody(servers, h, x, n, m);
    AckedBody(servers, h, x, n.term, n'.log, n'.base, n'.applied, n'.commit, Covers(m.args) + 1, h');
    FollowStand(h, x, n, h');
    NodeOfParts(servers, h', x, n');
  }

  lemma FollowStand(h: History, x: ServerID, n: Server, h': History)
    requires VoteOk(h, x, n.term, n.votedFor) && h' == h.(acked := h'.acked)
    ensures VoteOk(h', x, n.term, n.votedFor)
  {
  }

  lemma AddAppendRep(servers: set<ServerID>, h: History, net: Net, r: AppendRep)
    requires MessagesOk(servers, h, net) && AppendRepOk(servers, h, r)
    ensures MessagesOk(servers, h, net.(appendReps := net.appendReps + {r}))
  {
  }

  /** What an accepted request makes of the node and the history. */
  lemma AcceptMove(servers: set<ServerID>, h: History, x: ServerID, n: Server, m: AppendReq)
      returns (n': Server, h': History)
    requires HistoryOk(servers, h) && AppendReqOk(h, m) && NodeOk(servers, h, x, n)
    requires n.role == Follower && n.term == m.args.term && PrevMatches(n, m.args) && 0 <= n.base <= |n.log|
    ensures n' == Follow(n, m.args) && h' == RecordAck(h, x, m.args.term, Covers(m.args) + 1)
    ensures Grows(h, h', x) && HistoryOk(servers, h') && NodeOk(servers, h', x, n')
    ensures AckedAtLeast(h', m.args.term, x, Covers(m.args) + 1)
  {
    n', h' := Follow(n, m.args), RecordAck(h, x, n.term, Covers(m.args) + 1);
    RecordAckOk(servers, h, x, n.term, Covers(m.args) + 1, n.votedFor);
    FollowNode(servers, h, x, n, m, n', h');
  }

  lemma AcceptMessages(s: State, m: AppendReq, rep: AppendRep, h': History)
    requires MessagesOk(s.servers, s.h, s.net) && Grows(s.h, h', m.to) && m.to in s.servers
    requires rep.resp.id == m.to && rep.resp.term == m.args.term && rep.covered == Covers(m.args)
    requires AckedAtLeast(h', m.args.term, m.to, Covers(m.args) + 1)
    ensures MessagesOk(s.servers, h', s.net.(appendReps := s.net.appendReps + {rep}))
  {
    MessagesGrow(s.servers, s.h, h', m.to, s.net);
    AddAppendRep(s.servers, h', s.net, rep);
  }

  lemma AcceptInv(s: State, m: AppendReq, rep: AppendRep, full: bool)
    requires Inv(s) && CanDeliverAppend(s, m, rep, full) && AcceptsAppend(s.nodes[m.to], m.args, full)
    ensures Inv(DoAppend(s, m, rep, full))
  {
    var n := AdoptMove(s, m.to, m.args.term);
    assert AppendReqOk(s.h, m);
    var n', h' := AcceptMove(s.servers, s.h, m.to, n, m);
    AcceptMessages(s, m, rep, h');
    AcceptState(s, m, rep, full, n', h');
    FollowerStep(s, m.to, n', h', s.net.(appendReps := s.net.appendReps + {rep}), DoAppend(s, m, rep, full));
  }

  lemma AdoptMove(s: State, x: ServerID, term: int) returns (n: Server)
    requires Inv(s) && x in s.nodes
    ensures n == Adopt(s.nodes[x], term).(role := Follower) && NodeOk(s.servers, s.h, x, n)
  {
    NodeOf(s, x);
    AdoptedNode(s.servers, s.h, x, s.nodes[x], term);
    n := Adopt(s.nodes[x], term).(role := Follower);
  }

  lemma AcceptState(s: State, m: AppendReq, rep: AppendRep, full: bool, n': Server, h': History)
    requires CanDeliverAppend(s, m, rep, full) && AcceptsAppend(s.nodes[m.to], m.args, full)
    requires n' == Follow(Adopt(s.nodes[m.to], m.args.term).(role := Follower), m.args)
    requires h' == RecordAck(s.h, m.to, m.args.term, Covers(m.args) + 1)
    ensures n'.role == Follower && n'.term >= s.nodes[m.to].term
    ensures DoAppend(s, m, rep, full) ==
            State(s.servers, s.nodes[m.to := n'], s.net.(appendReps := s.net.appendReps + {rep}), h')
  {
  }

  /** A step that turns its node into a follower and adds an append reply. */
  lemma FollowerStep(s: State, x: ServerID, n': Server, h': History, net': Net, s': State)
    requires Inv(s) && x in s.nodes && n'.role == Follower && n'.term >= s.nodes[x].term
    requires Grows(s.h, h', x) && HistoryOk(s.servers, h') && NodeOk(s.servers, h', x, n')
    requires MessagesOk(s.servers, h', net')
    requires net'.voteReqs == s.net.voteReqs && net'.voteReps == s.net.voteReps
    requires s' == State(s.servers, s.nodes[x := n'], net', h')
    ensures Inv(s')
  {
    BallotsKept(s.nodes, s.h, h', x, n', s.net, net');
    ActorStep(s, x, n', h', net', s');
  }

  lemma RefuseInv(s: State, m: AppendReq, rep: AppendRep, full: bool)
    requires Inv(s) && CanDeliverAppend(s, m, rep, full) && !AcceptsAppend(s.nodes[m.to], m.args, full)
    ensures Inv(DoAppend(s, m, rep, full))
  {
    var x, n0 := m.to, s.nodes[m.to];
    var net := s.net.(appendReps := s.net.appendReps + {rep});
    AddAppendRep(s.servers, s.h, s.net, rep);
    NetStep(s, net, s.(net := net));
    if n0.term <= m.args.term {
      NodeOf(s, x);
      AdoptQuiet(s.servers, s.h, x, n0, m.args.term);
      QuietStep(s.(net := net), x, Adopt(n0, m.args.term).(role := Follower), DoAppend(s, m, rep, full));
    }
  }

  lemma AppendInv(s: State, m: AppendReq, rep: AppendRep, full: bool)
    requires Inv(s) && CanDeliverAppend(s, m, rep, full)
    ensures Inv(DoAppend(s, m, rep, full))
  {
    if AcceptsAppend(s.nodes[m.to], m.args, full) {
      AcceptInv(s, m, rep, full);
    } else {
      RefuseInv(s, m, rep, full);
    }
  }

  // ---- installing a snapshot ----

  /** The installed log: the snapshot's prefix of the leader's log. */
  lemma InstallBody(servers: set<ServerID>, h: History, x: ServerID, n: Server, m: InstallReq)
    requires HistoryOk(servers, h) && BodyOk(h, x, n.term, n.log, n.base, n.applied, n.commit)
    requires InstallReqOk(h, m) && n.term == m.args.term && !HoldsMore(n, m)
    ensures var n' := Install(n, m);
            BodyOk(h, x, n.term, n'.log, n'.base, n'.applied, n'.commit)
            && Agree(n'.log, h.logs[n.term], |m.prefix|)
  {
    assert TermLogOk(h, n.term);
    if m.args.lastIncludedIndex <= n.applied {
      KnownInLater(servers, h, n.log, n.term, n.commit + 1, n.term);
    } else {
      InstalledBody(h, x, n, m);
    }
  }

  lemma InstalledBody(h: History, x: ServerID, n: Server, m: InstallReq)
    requires n.term in h.logs && TermLogOk(h, n.term)
    requires AckOk(h, x, n.term, n.log) && InstallReqOk(h, m) && n.term == m.args.term && |n.log| <= |m.prefix|
    ensures BodyOk(h, x, n.term, m.prefix, |m.prefix|, |m.prefix| - 1, |m.prefix| - 1)
  {
    TracedPrefix(h.logs[n.term], m.prefix, h.logs);
    RetainedAcks(h, x, n.term, n.log, n.term, m.prefix);
    InstalledTerms(h, n.term, m.prefix);
  }

  lemma InstalledTerms(h: History, term: int, prefix: seq<RaftLog>)
    requires term in h.logs && TermLogOk(h, term) && Agree(prefix, h.logs[term], |prefix|)
    ensures forall i :: 0 <= i < |prefix| ==> prefix[i].term <= term
  {
  }

  /** A leader can only be sent what it already has. */
  lemma InstallStand(servers: set<ServerID>, h: History, x: ServerID, n: Server, m: InstallReq, h': History)
    requires VoteOk(h, x, n.term, n.votedFor) && CandidateOk(servers, h, x, n) && LeaderOk(h, x, n)
    requires InstallReqOk(h, m) && n.term == m.args.term && !HoldsMore(n, m)
    requires Grows(h, h', x) && h' == h.(acked := h'.acked)
    ensures var n' := Install(n, m);
            VoteOk(h', x, n'.term, n'.votedFor) && CandidateOk(servers, h', x, n') && LeaderOk(h', x, n')
  {
    if n.role == Leader {
      if m.args.lastIncludedIndex > n.applied {
        assert m.prefix == n.log;
      }
      forall p | p in n.matchIndex && n.matchIndex[p] >= 0 ensures AckedAtLeast(h', n.term, p, n.matchIndex[p] + 1) {
        assert AckedAtLeast(h, n.term, p, n.matchIndex[p] + 1);
      }
    }
  }

  lemma InstallNode(servers: set<ServerID>, h: History, x: ServerID, n: Server, m: InstallReq, n': Server, h': History)
    requires HistoryOk(servers, h) && NodeOk(servers, h, x, n) && InstallReqOk(h, m)
    requires n.term == m.args.term && !HoldsMore(n, m) && Grows(h, h', x)
    requires n' == Install(n, m) && h' == RecordAck(h, x, n.term, |m.prefix|)
    ensures NodeOk(servers, h', x, n')
  {
    InstallBody(servers, h, x, n, m);
    AckedBody(servers, h, x, n.term, n'.log, n'.base, n'.applied, n'.commit, |m.prefix|, h');
    InstallStand(servers, h, x, n, m, h');
    NodeOfParts(servers, h', x, n');
  }

  lemma AddInstallRep(servers: set<ServerID>, h: History, net: Net, r: InstallRep)
    requires MessagesOk(servers, h, net) && InstallRepOk(servers, h, r)
    ensures MessagesOk(servers, h, net.(installReps := net.installReps + {r}))
  {
  }

  lemma InstallMove(servers: set<ServerID>, h: History, x: ServerID, n: Server, m: InstallReq)
      returns (n': Server, h': History)
    requires HistoryOk(servers, h) && InstallReqOk(h, m) && NodeOk(servers, h, x, n)
    requires n.term == m.args.term && !HoldsMore(n, m)
    ensures n' == Install(n, m) && h' == RecordAck(h, x, m.args.term, |m.prefix|)
    ensures Grows(h, h', x) && HistoryOk(servers, h') && NodeOk(servers, h', x, n')
    ensures AckedAtLeast(h', m.args.term, x, |m.prefix|)
  {
    n', h' := Install(n, m), RecordAck(h, x, n.term, |m.prefix|);
    RecordAckOk(servers, h, x, n.term, |m.prefix|, n.votedFor);
    InstallNode(servers, h, x, n, m, n', h');
  }

  lemma InstallMessages(s: State, m: InstallReq, rep: InstallRep, h': History)
    requires MessagesOk(s.servers, s.h, s.net) && Grows(s.h, h', m.to) && m.to in s.servers
    requires rep.resp.id == m.to && rep.resp.term == m.args.term
    requires rep.resp.lastIncludedIndex == |m.prefix| - 1
    requires AckedAtLeast(h', m.args.term, m.to, |m.prefix|)
    ensures MessagesOk(s.servers, h', s.net.(installReps := s.net.installReps + {rep}))
  {
    MessagesGrow(s.servers, s.h, h', m.to, s.net);
    AddInstallRep(s.servers, h', s.net, rep);
  }

  lemma InstallAcceptInv(s: State, m: InstallReq, rep: InstallRep)
    requires Inv(s) && CanDeliverInstall(s, m, rep)
    requires s.nodes[m.to].term <= m.args.term && !HoldsMore(s.nodes[m.to], m)
    ensures Inv(DoInstall(s, m, rep))
  {
    var n0 := s.nodes[m.to];
    NodeOf(s, m.to);
    AdoptedNode(s.servers, s.h, m.to, n0, m.args.term);
    assert InstallReqOk(s.h, m);
    var n', h' := InstallMove(s.servers, s.h, m.to, Adopt(n0, m.args.term), m);
    InstallEnd(s, m, rep, n', h');
  }

  lemma InstallEnd(s: State, m: InstallReq, rep: InstallRep, n': Server, h': History)
    requires Inv(s) && CanDeliverInstall(s, m, rep) && InstallReqOk(s.h, m)
    requires s.nodes[m.to].term <= m.args.term && !HoldsMore(s.nodes[m.to], m)
    requires n' == Install(Adopt(s.nodes[m.to], m.args.term), m) && h' == RecordAck(s.h, m.to, m.args.term, |m.prefix|)
    requires Grows(s.h, h', m.to) && HistoryOk(s.servers, h') && NodeOk(s.servers, h', m.to, n')
    requires AckedAtLeast(h', m.args.term, m.to, |m.prefix|)
    ensures Inv(DoInstall(s, m, rep))
  {
    var net' := s.net.(installReps := s.net.installReps + {rep});
    InstallMessages(s, m, rep, h');
    BallotsKept(s.nodes, s.h, h', m.to, n', s.net, net');
    ActorStep(s, m.to, n', h', net', DoInstall(s, m, rep));
  }

  lemma InstallInv(s: State, m: InstallReq, rep: InstallRep)
    requires Inv(s) && CanDeliverInstall(s, m, rep)
    ensures Inv(DoInstall(s, m, rep))
  {
    var x, n0 := m.to, s.nodes[m.to];
    NodeOf(s, x);
    if n0.term > m.args.term {
      AddInstallRep(s.servers, s.h, s.net, rep);
      NetStep(s, s.net.(installReps := s.net.installReps + {rep}), DoInstall(s, m, rep));
    } else if HoldsMore(n0, m) {
      AdoptQuiet(s.servers, s.h, x, n0, m.args.term);
      QuietStep(s, x, Adopt(n0, m.args.term), DoInstall(s, m, rep));
    } else {
      InstallAcceptInv(s, m, rep);
    }
  }

  // ---- committing ----

  function CommitHistory(h: History, n: Server, index: int): History {
    h.(committed := h.committed[Point(n.term, index + 1) := Replicated(n, index)])
  }

  lemma CommitPoint(servers: set<ServerID>, h: History, x: ServerID, n: Server, index: int, h': History)
    requires LeaderOk(h, x, n) && n.role == Leader && n.matchIndex.Keys <= servers
    requires 0 <= index < |n.log| && n.log[index].term == n.term && |Replicated(n, index)| > |servers| / 2
    requires h' == CommitHistory(h, n, index)
    ensures PointOk(servers, h', Point(n.term, index + 1))
  {
    forall v | v in Replicated(n, index) ensures AckedAtLeast(h', n.term, v, index + 1) {
      assert AckedAtLeast(h, n.term, v, n.matchIndex[v] + 1);
    }
  }

  lemma CommitNews(servers: set<ServerID>, h: History, x: ServerID, n: Server, index: int, h': History)
    requires h.logs.Keys == h.elected.Keys == h.quorum.Keys == h.leader.Keys
    requires h' == CommitHistory(h, n, index) && PointOk(servers, h', Point(n.term, index + 1))
    ensures Grows(h, h', x) && NewsOk(servers, h, h')
  {
  }

  lemma CommitNode(
      servers: set<ServerID>, h: History, x: ServerID, n: Server, index: int, n': Server, h': History)
    requires HistoryOk(servers, h) && NodeOk(servers, h, x, n) && n.role == Leader && Grows(h, h', x)
    requires n.commit < index < |n.log| && h' == CommitHistory(h, n, index) && n' == n.(commit := index)
    ensures NodeOk(servers, h', x, n')
  {
    BodyGrows(servers, h, h', x, x, n.term, n.term, n.log, n.base, n.applied, n.commit);
    assert KnownBy(h', n.log, n.term, index + 1, Point(n.term, index + 1));
    CommitStand(h, x, n, n', h');
    NodeOfParts(servers, h', x, n');
  }

  lemma CommitStand(h: History, x: ServerID, n: Server, n': Server, h': History)
    requires VoteOk(h, x, n.term, n.votedFor) && LeaderOk(h, x, n) && n.role == Leader
    requires h' == h.(committed := h'.committed) && n' == n.(commit := n'.commit)
    ensures VoteOk(h', x, n'.term, n'.votedFor) && LeaderOk(h', x, n')
  {
    forall p | p in n.matchIndex && n.matchIndex[p] >= 0 ensures AckedAtLeast(h', n.term, p, n.matchIndex[p] + 1) {
      assert AckedAtLeast(h, n.term, p, n.matchIndex[p] + 1);
    }
  }

  lemma CommitMove(s: State, x: ServerID, index: int) returns (n': Server, h': History)
    requires HistoryOk(s.servers, s.h) && CanAdvanceCommit(s, x, index) && NodeOk(s.servers, s.h, x, s.nodes[x])
    ensures Grows(s.h, h', x) && HistoryOk(s.servers, h') && NodeOk(s.servers, h', x, n')
    ensures n'.role == Leader && n'.term == s.nodes[x].term
    ensures DoAdvanceCommit(s, x, index) == State(s.servers, s.nodes[x := n'], s.net, h')
  {
    var n := s.nodes[x];
    n', h' := n.(commit := index), CommitHistory(s.h, n, index);
    CommitPoint(s.servers, s.h, x, n, index, h');
    CommitNews(s.servers, s.h, x, n, index, h');
    HistoryGrows(s.servers, s.h, h', x);
    CommitNode(s.servers, s.h, x, n, index, n', h');
  }

  lemma AdvanceCommitInv(s: State, x: ServerID, index: int)
    requires Inv(s) && CanAdvanceCommit(s, x, index)
    ensures Inv(DoAdvanceCommit(s, x, index))
  {
    NodeOf(s, x);
    var n', h' := CommitMove(s, x, index);
    MessagesGrow(s.servers, s.h, h', x, s.net);
    BallotsKept(s.nodes, s.h, h', x, n', s.net, s.net);
    ActorStep(s, x, n', h', s.net, DoAdvanceCommit(s, x, index));
  }
}
