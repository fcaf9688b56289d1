/** Steps that leave every log and every record of the history alone: sending, refusing, stepping
    down, crediting acknowledgements, applying, compacting and restarting. */
module QuietSteps {
  import opened Types
  import opened Agreement
  import opened Cluster
  import opened Invariant
  import opened Growth

  lemma SelfGrows(h: History, x: ServerID)
    ensures Grows(h, h, x)
  {
  }

  lemma KnownShorter(h: History, log: seq<RaftLog>, term: int, len: int, term': int, len': int)
    requires Known(h, log, term, len) && term <= term' && len' <= len
    ensures Known(h, log, term', len')
  {
    if len' > 0 {
      var p :| p in h.committed && KnownBy(h, log, term, len, p);
      assert KnownBy(h, log, term', len', p);
    }
  }

  /** Vote traffic is untouched by a node that does not become a candidate or count a vote. */
  lemma BallotsKept(nodes: map<ServerID, Server>, h: History, h': History, x: ServerID, n': Server, net: Net, net': Net)
    requires BallotsOk(nodes, h, net) && Grows(h, h', x) && x in nodes
    requires net'.voteReqs == net.voteReqs && net'.voteReps <= net.voteReps
    requires n'.term >= nodes[x].term
    requires n'.role == Candidate ==>
               nodes[x].role == Candidate && n'.term == nodes[x].term && n'.voters == nodes[x].voters
    ensures BallotsOk(nodes[x := n'], h', net')
  {
    var nodes' := nodes[x := n'];
    forall m | m in net'.voteReqs ensures VoteReqOk(nodes', h', m) {
      assert VoteReqOk(nodes, h, m);
    }
    forall r | r in net'.voteReps ensures VoteRepOk(nodes', h', r) {
      assert VoteRepOk(nodes, h, r);
    }
  }

  /** What a step of node x owes when log and history stay. */
  ghost predicate Quiet(servers: set<ServerID>, h: History, x: ServerID, n: Server, n': Server) {
    && n'.log == n.log
    && n.term <= n'.term
    && (n'.term == n.term ==> n'.votedFor == n.votedFor)
    && (n.term < n'.term ==> n'.votedFor == None)
    && CommitOk(h, n'.term, n'.log, n'.base, n'.applied, n'.commit)
    && (n'.role == Candidate ==>
          n.role == Candidate && n'.term == n.term && n'.voters == n.voters && n'.votes == n.votes)
    && LeaderOk(h, x, n')
    && n'.matchIndex.Keys <= servers
  }

  lemma QuietNode(servers: set<ServerID>, h: History, x: ServerID, n: Server, n': Server)
    requires HistoryOk(servers, h) && NodeOk(servers, h, x, n) && Quiet(servers, h, x, n, n')
    ensures NodeOk(servers, h, x, n')
  {
    SelfGrows(h, x);
    AckGrows(servers, h, h, x, x, n.term, n'.term, n.log);
  }

  lemma QuietStep(s: State, x: ServerID, n': Server, s': State)
    requires Inv(s) && x in s.nodes && Quiet(s.servers, s.h, x, s.nodes[x], n')
    requires s' == Put(s, x, n')
    ensures Inv(s')
  {
    SelfGrows(s.h, x);
    QuietNode(s.servers, s.h, x, s.nodes[x], n');
    OtherNodes(s.servers, s.h, s.h, x, s.nodes, n');
    BallotsKept(s.nodes, s.h, s.h, x, n', s.net, s.net);
  }

  lemma NodeOf(s: State, x: ServerID)
    requires Inv(s) && x in s.nodes
    ensures NodeOk(s.servers, s.h, x, s.nodes[x])
  {
  }

  lemma AdoptQuiet(servers: set<ServerID>, h: History, x: ServerID, n: Server, term: int)
    requires NodeOk(servers, h, x, n)
    ensures Quiet(servers, h, x, n, Adopt(n, term))
    ensures Quiet(servers, h, x, n, Adopt(n, term).(role := Follower))
  {
    if term > n.term {
      KnownShorter(h, n.log, n.term, n.commit + 1, term, n.commit + 1);
    }
  }

  /** What each quiet event makes of its node. */
  lemma ApplyMove(s: State, x: ServerID) returns (n': Server)
    requires CanApply(s, x) && NodeOk(s.servers, s.h, x, s.nodes[x])
    ensures Quiet(s.servers, s.h, x, s.nodes[x], n') && DoApply(s, x) == Put(s, x, n')
  {
    n' := s.nodes[x].(applied := s.nodes[x].applied + 1);
  }

  lemma CompactMove(s: State, x: ServerID) returns (n': Server)
    requires CanCompact(s, x) && NodeOk(s.servers, s.h, x, s.nodes[x])
    ensures Quiet(s.servers, s.h, x, s.nodes[x], n') && DoCompact(s, x) == Put(s, x, n')
  {
    n' := s.nodes[x].(base := s.nodes[x].applied + 1);
  }

  lemma RestartMove(s: State, x: ServerID) returns (n': Server)
    requires CanRestart(s, x) && NodeOk(s.servers, s.h, x, s.nodes[x])
    ensures Quiet(s.servers, s.h, x, s.nodes[x], n') && DoRestart(s, x) == Put(s, x, n')
  {
    var n := s.nodes[x];
    n' := Reborn(x, n, s.servers);
    KnownShorter(s.h, n.log, n.term, n.commit + 1, n.term, n.base);
  }

  lemma AppendRepMove(s: State, r: AppendRep) returns (n': Server)
    requires CanDeliverAppendRep(s, r) && NodeOk(s.servers, s.h, r.to, s.nodes[r.to])
    requires AppendRepOk(s.servers, s.h, r) && s.nodes[r.to].role == Leader
    ensures Quiet(s.servers, s.h, r.to, s.nodes[r.to], n') && DoAppendRep(s, r) == Put(s, r.to, n')
  {
    var n := s.nodes[r.to];
    n' := if !r.resp.success then Adopt(n, r.resp.term)
          else if r.resp.term != n.term then n
          else n.(matchIndex := n.matchIndex[r.resp.id := r.covered]);
    AdoptQuiet(s.servers, s.h, r.to, n, r.resp.term);
    assert s.nodes == s.nodes[r.to := n];
  }

  lemma InstallRepMove(s: State, r: InstallRep) returns (n': Server)
    requires CanDeliverInstallRep(s, r) && NodeOk(s.servers, s.h, r.to, s.nodes[r.to])
    requires InstallRepOk(s.servers, s.h, r) && s.nodes[r.to].role == Leader
    ensures Quiet(s.servers, s.h, r.to, s.nodes[r.to], n') && DoInstallRep(s, r) == Put(s, r.to, n')
  {
    var n := s.nodes[r.to];
    n' := if !r.resp.success then Adopt(n, r.resp.term)
          else if r.resp.term != n.term then n
          else n.(matchIndex := n.matchIndex[r.resp.id := r.resp.lastIncludedIndex]);
    AdoptQuiet(s.servers, s.h, r.to, n, r.resp.term);
    assert s.nodes == s.nodes[r.to := n];
  }

  lemma ApplyInv(s: State, x: ServerID)
    requires Inv(s) && CanApply(s, x)
    ensures Inv(DoApply(s, x))
  {
    NodeOf(s, x);
    var n' := ApplyMove(s, x);
    QuietStep(s, x, n', DoApply(s, x));
  }

  lemma CompactInv(s: State, x: ServerID)
    requires Inv(s) && CanCompact(s, x)
    ensures Inv(DoCompact(s, x))
  {
    NodeOf(s, x);
    var n' := CompactMove(s, x);
    QuietStep(s, x, n', DoCompact(s, x));
  }

  lemma RestartInv(s: State, x: ServerID)
    requires Inv(s) && CanRestart(s, x)
    ensures Inv(DoRestart(s, x))
  {
    NodeOf(s, x);
    var n' := RestartMove(s, x);
    QuietStep(s, x, n', DoRestart(s, x));
  }

  lemma LearnInv(s: State, x: ServerID, term: int)
    requires Inv(s) && CanLearn(s, x, term)
    ensures Inv(DoLearn(s, x, term))
  {
    NodeOf(s, x);
    AdoptQuiet(s.servers, s.h, x, s.nodes[x], term);
    QuietStep(s, x, Adopt(s.nodes[x], term), DoLearn(s, x, term));
  }

  lemma YieldMove(s: State, x: ServerID, votes: int) returns (n': Server)
    requires CanYield(s, x) && NodeOk(s.servers, s.h, x, s.nodes[x])
    ensures Quiet(s.servers, s.h, x, s.nodes[x], n') && DoYield(s, x, votes) == Put(s, x, n')
  {
    n' := s.nodes[x].(role := Follower, votes := votes);
  }

  lemma YieldInv(s: State, x: ServerID, votes: int)
    requires Inv(s) && CanYield(s, x)
    ensures Inv(DoYield(s, x, votes))
  {
    NodeOf(s, x);
    var n' := YieldMove(s, x, votes);
    QuietStep(s, x, n', DoYield(s, x, votes));
  }

  lemma AppendRepInv(s: State, r: AppendRep)
    requires Inv(s) && CanDeliverAppendRep(s, r)
    ensures Inv(DoAppendRep(s, r))
  {
    if s.nodes[r.to].role == Leader {
      NodeOf(s, r.to);
      var n' := AppendRepMove(s, r);
      QuietStep(s, r.to, n', DoAppendRep(s, r));
    }
  }

  lemma InstallRepInv(s: State, r: InstallRep)
    requires Inv(s) && CanDeliverInstallRep(s, r)
    ensures Inv(DoInstallRep(s, r))
  {
    if s.nodes[r.to].role == Leader {
      NodeOf(s, r.to);
      var n' := InstallRepMove(s, r);
      QuietStep(s, r.to, n', DoInstallRep(s, r));
    }
  }

  lemma SendAppendOk(h: History, x: ServerID, n: Server, m: AppendReq)
    requires LeaderOk(h, x, n) && n.role == Leader
    requires n.commit < |n.log| && Known(h, n.log, n.term, n.commit + 1)
    requires m.args.term == n.term && m.args.leaderCommit == n.commit && -1 <= m.args.prevLogIndex < |n.log|
    requires IsSlice(m.args.entries, n.log, m.args.prevLogIndex + 1)
    requires m.args.prevLogIndex + 1 + |m.args.entries| == |n.log|
    requires m.args.prevLogIndex >= 0 ==> m.args.prevLogTerm == n.log[m.args.prevLogIndex].term
    ensures AppendReqOk(h, m)
  {
  }

  /** Only the append and install traffic changes. */
  lemma NetStep(s: State, net: Net, s': State)
    requires Inv(s) && MessagesOk(s.servers, s.h, net)
    requires net.voteReqs == s.net.voteReqs && net.voteReps == s.net.voteReps
    requires s' == s.(net := net)
    ensures Inv(s')
  {
  }

  lemma AddAppend(servers: set<ServerID>, h: History, net: Net, m: AppendReq)
    requires MessagesOk(servers, h, net) && AppendReqOk(h, m)
    ensures MessagesOk(servers, h, net.(appends := net.appends + {m}))
  {
  }

  lemma SendAppendInv(s: State, x: ServerID, m: AppendReq)
    requires Inv(s) && CanSendAppend(s, x, m)
    ensures Inv(DoSendAppend(s, m))
  {
    NodeOf(s, x);
    SendAppendOk(s.h, x, s.nodes[x], m);
    AddAppend(s.servers, s.h, s.net, m);
    NetStep(s, DoSendAppend(s, m).net, DoSendAppend(s, m));
  }

  lemma SendInstallOk(servers: set<ServerID>, h: History, x: ServerID, n: Server, m: InstallReq)
    requires NodeOk(servers, h, x, n) && n.role == Leader && 0 < n.base <= |n.log|
    requires m.args.term == n.term && m.prefix == n.log[..n.base]
    requires m.args.lastIncludedIndex == n.base - 1 && m.args.lastIncludedTerm == n.log[n.base - 1].term
    ensures InstallReqOk(h, m)
  {
    KnownShorter(h, n.log, n.term, n.commit + 1, n.term, n.base);
    KnownExtends(h, n.log, m.prefix, n.term, n.base);
  }

  lemma AddInstall(servers: set<ServerID>, h: History, net: Net, m: InstallReq)
    requires MessagesOk(servers, h, net) && InstallReqOk(h, m)
    ensures MessagesOk(servers, h, net.(installs := net.installs + {m}))
  {
  }

  lemma SendInstallInv(s: State, x: ServerID, m: InstallReq)
    requires Inv(s) && CanSendInstall(s, x, m)
    ensures Inv(DoSendInstall(s, m))
  {
    NodeOf(s, x);
    SendInstallOk(s.servers, s.h, x, s.nodes[x], m);
    AddInstall(s.servers, s.h, s.net, m);
    NetStep(s, DoSendInstall(s, m).net, DoSendInstall(s, m));
  }
}
