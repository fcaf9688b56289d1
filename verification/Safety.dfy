/** The safety properties of Figure 3 of "In Search of an Understandable Consensus Algorithm",
    over every run of a cluster of fixed membership. */
module Safety {
  import opened Types
  import opened Agreement
  import opened Cluster
  import opened Invariant
  import opened Growth
  import opened QuietSteps
  import opened VoteSteps
  import opened WinSteps
  import opened AppendSteps

  lemma StepInv(s: State, e: Event)
    requires Inv(s)
    ensures Inv(Step(s, e))
  {
    if Enabled(s, e) {
      match e
      case Timeout(n) => TimeoutInv(s, n);
      case DeliverVoteReq(vq) => VoteReqInv(s, vq);
      case DeliverVoteRep(vr, room) => VoteRepInv(s, vr, room);
      case WinAlone(n, room) => WinAloneInv(s, n, room);
      case ClientAppend(n, entry) => ClientAppendInv(s, n, entry);
      case SendAppend(n, ap) => SendAppendInv(s, n, ap);
      case DeliverAppend(ap, apRep, full) => AppendInv(s, ap, apRep, full);
      case DeliverAppendRep(apRep) => AppendRepInv(s, apRep);
      case AdvanceCommit(n, index) => AdvanceCommitInv(s, n, index);
      case ApplyNext(n) => ApplyInv(s, n);
      case Compact(n) => CompactInv(s, n);
      case SendInstall(n, ins) => SendInstallInv(s, n, ins);
      case DeliverInstall(ins, insRep) => InstallInv(s, ins, insRep);
      case DeliverInstallRep(insRep) => InstallRepInv(s, insRep);
      case Restart(n) => RestartInv(s, n);
      case Learn(n, term) => LearnInv(s, n, term);
      case Yield(n, votes) => YieldInv(s, n, votes);
    }
  }

  /** The invariant holds in every reachable state. */
  lemma {:induction false} ExecuteInv(s: State, events: seq<Event>)
    requires Inv(s)
    ensures Inv(Execute(s, events))
    decreases |events|
  {
    if events != [] {
      StepInv(s, events[0]);
      ExecuteInv(Step(s, events[0]), events[1..]);
    }
  }

  // ---- what a run never takes back ----

  /** Votes, leaders and the logs they were elected with stay on record, leaders' logs only get longer,
      and nothing committed is forgotten. */
  ghost predicate Later(h: History, h': History) {
    && KeptBy(h.votes, h'.votes)
    && KeptBy(h.leader, h'.leader)
    && KeptBy(h.elected, h'.elected)
    && Extends(h.logs, h'.logs)
    && forall p :: p in h.committed ==> p in h'.committed
  }

  ghost predicate SameRecord(h: History, h': History) {
    && KeptBy(h.votes, h'.votes)
    && h'.leader == h.leader && h'.elected == h.elected && h'.logs == h.logs && h'.committed == h.committed
  }

  lemma WinLater(s: State, x: ServerID, n: Server, room: bool)
    requires HistoryOk(s.servers, s.h) && CandidateOk(s.servers, s.h, x, n) && n.role == Candidate
    requires n.votes > |s.servers| / 2
    ensures Later(s.h, DoWin(s, x, n, room).h)
  {
    TermIsFree(s.servers, s.h, x, n);
  }

  lemma CandidateOf(s: State, x: ServerID)
    requires Inv(s) && x in s.nodes
    ensures CandidateOk(s.servers, s.h, x, s.nodes[x]) && LeaderOk(s.h, x, s.nodes[x])
  {
    NodeOf(s, x);
  }

  lemma VoteRepLater(s: State, r: VoteRep, room: bool)
    requires Inv(s) && CanDeliverVoteRep(s, r)
    ensures Later(s.h, DoVoteRep(s, r, room).h)
  {
    var n := s.nodes[r.to];
    if n.role == Candidate && r.resp.term == n.term && r.resp.voteGranted {
      NodeOf(s, r.to);
      assert VoteRepOk(s.nodes, s.h, r);
      CountNode(s.servers, s.nodes, s.h, r.to, n, r);
      if n.votes + 1 > |s.servers| / 2 {
        WinLater(s.(net := s.net.(voteReps := s.net.voteReps - {r})), r.to, Counted(n, r.resp.id), room);
      }
    }
  }

  lemma ClientLater(s: State, x: ServerID, entry: RaftLog)
    requires CanClientAppend(s, x, entry) && LeaderOk(s.h, x, s.nodes[x])
    ensures Later(s.h, DoClientAppend(s, x, entry).h)
  {
  }

  lemma VotingLater(s: State, e: Event)
    requires Enabled(s, e) && (e.Timeout? || e.DeliverVoteReq?)
    ensures SameRecord(s.h, Step(s, e).h)
  {
  }

  lemma OtherLater(s: State, e: Event)
    requires Enabled(s, e)
    requires !e.DeliverVoteRep? && !e.WinAlone? && !e.ClientAppend? && !e.AdvanceCommit?
    requires !e.Timeout? && !e.DeliverVoteReq?
    ensures SameRecord(s.h, Step(s, e).h)
  {
  }

  lemma StepLater(s: State, e: Event)
    requires Inv(s)
    ensures Later(s.h, Step(s, e).h)
  {
    if !Enabled(s, e) {
    } else if e.DeliverVoteRep? {
      VoteRepLater(s, e.vr, e.room);
    } else if e.WinAlone? {
      NodeOf(s, e.n);
      AloneVotes(s, e.n);
      CandidateOf(s, e.n);
      WinLater(s, e.n, s.nodes[e.n], e.room);
    } else if e.ClientAppend? {
      CandidateOf(s, e.n);
      ClientLater(s, e.n, e.entry);
    } else if e.AdvanceCommit? {
    } else if e.Timeout? || e.DeliverVoteReq? {
      VotingLater(s, e);
    } else {
      OtherLater(s, e);
    }
  }

  lemma LaterTrans(h: History, h1: History, h2: History)
    requires Later(h, h1) && Later(h1, h2)
    ensures Later(h, h2)
  {
  }

  lemma {:induction false} ExecuteLater(s: State, events: seq<Event>)
    requires Inv(s)
    ensures Later(s.h, Execute(s, events).h)
    decreases |events|
  {
    if events != [] {
      var s1 := Step(s, events[0]);
      StepInv(s, events[0]);
      StepLater(s, events[0]);
      ExecuteLater(s1, events[1..]);
      LaterTrans(s.h, s1.h, Execute(s1, events[1..]).h);
    }
  }

  lemma {:induction false} ExecuteServers(s: State, events: seq<Event>)
    ensures Execute(s, events).servers == s.servers
    decreases |events|
  {
    if events != [] {
      StepServers(s, events[0]);
      ExecuteServers(Step(s, events[0]), events[1..]);
    }
  }

  lemma StepServers(s: State, e: Event)
    ensures Step(s, e).servers == s.servers
  {
  }

  /** Two moments of one run. */
  lemma Moments(servers: set<ServerID>, past: seq<Event>, next: seq<Event>) returns (s: State, s': State)
    ensures s == Execute(Start(servers), past) && s' == Execute(s, next)
    ensures Inv(s) && Inv(s') && Later(s.h, s'.h)
    ensures s.nodes.Keys == servers && s'.nodes.Keys == servers
  {
    s := Execute(Start(servers), past);
    s' := Execute(s, next);
    StartInv(servers);
    ExecuteInv(Start(servers), past);
    ExecuteInv(s, next);
    ExecuteLater(s, next);
    ExecuteServers(Start(servers), past);
    ExecuteServers(s, next);
  }

  // ---- Figure 3 ----

  /** Election safety: whoever leads a term at two moments of a run is one and the same node. */
  lemma ElectionSafety(servers: set<ServerID>, past: seq<Event>, next: seq<Event>, x: ServerID, y: ServerID)
    requires x in servers && y in servers
    ensures var s, s' := Execute(Start(servers), past), Execute(Execute(Start(servers), past), next);
            && x in s.nodes && y in s'.nodes
            && (s.nodes[x].role == Leader && s'.nodes[y].role == Leader && s.nodes[x].term == s'.nodes[y].term
                ==> x == y)
  {
    var s, s' := Moments(servers, past, next);
    CandidateOf(s, x);
    CandidateOf(s', y);
  }

  /** One vote per term: after voting in a term, a node is never again in an earlier one, and never
      gives that term's vote to anyone else. */
  lemma VotesNeverChange(servers: set<ServerID>, past: seq<Event>, next: seq<Event>, x: ServerID)
    requires x in servers
    ensures var s, s' := Execute(Start(servers), past), Execute(Execute(Start(servers), past), next);
            && x in s.nodes && x in s'.nodes
            && (s.nodes[x].votedFor.Some? ==>
                  && s.nodes[x].term <= s'.nodes[x].term
                  && (s.nodes[x].term == s'.nodes[x].term ==> s'.nodes[x].votedFor == s.nodes[x].votedFor))
  {
    var s, s' := Moments(servers, past, next);
    VoteOf(s, x);
    VoteOf(s', x);
  }

  lemma VoteOf(s: State, x: ServerID)
    requires Inv(s) && x in s.nodes
    ensures VoteOk(s.h, x, s.nodes[x].term, s.nodes[x].votedFor)
  {
    NodeOf(s, x);
  }

  /** Leader append-only: during a term the leader's log only gets longer. */
  lemma LeaderAppendOnly(servers: set<ServerID>, past: seq<Event>, next: seq<Event>, x: ServerID)
    requires x in servers
    ensures var s, s' := Execute(Start(servers), past), Execute(Execute(Start(servers), past), next);
            && x in s.nodes && x in s'.nodes
            && (s.nodes[x].role == Leader && s'.nodes[x].role == Leader && s.nodes[x].term == s'.nodes[x].term
                ==> s.nodes[x].log <= s'.nodes[x].log)
  {
    var s, s' := Moments(servers, past, next);
    CandidateOf(s, x);
    CandidateOf(s', x);
  }

  /** Log matching: two entries of equal index and term have equal histories, at any two moments. */
  lemma LogMatching(
      servers: set<ServerID>, past: seq<Event>, next: seq<Event>, x: ServerID, y: ServerID, i: nat)
    requires x in servers && y in servers
    ensures var s, s' := Execute(Start(servers), past), Execute(Execute(Start(servers), past), next);
            && x in s.nodes && y in s'.nodes
            && (i < |s.nodes[x].log| && i < |s'.nodes[y].log| && s.nodes[x].log[i].term == s'.nodes[y].log[i].term
                ==> Agree(s.nodes[x].log, s'.nodes[y].log, i + 1))
  {
    var s, s' := Moments(servers, past, next);
    LogOf(s, x);
    LogOf(s', y);
    TracedExtends(s.nodes[x].log, s.h.logs, s'.h.logs);
    var a, b := s.nodes[x].log, s'.nodes[y].log;
    if i < |a| && i < |b| && a[i].term == b[i].term {
      TracedMatch(a, b, s'.h.logs, i);
    }
  }

  lemma LogOf(s: State, x: ServerID)
    requires Inv(s) && x in s.nodes
    ensures Traced(s.nodes[x].log, s.h.logs)
    ensures CommitOf(s, x)
  {
    NodeOf(s, x);
  }

  ghost predicate CommitOf(s: State, x: ServerID)
    requires x in s.nodes
  {
    var n := s.nodes[x];
    CommitOk(s.h, n.term, n.log, n.base, n.applied, n.commit)
  }

  lemma KnownLater(h: History, h': History, log: seq<RaftLog>, term: int, len: int)
    requires Later(h, h') && Known(h, log, term, len)
    ensures Known(h', log, term, len)
  {
    if len > 0 {
      var p :| p in h.committed && KnownBy(h, log, term, len, p);
      assert KnownBy(h', log, term, len, p);
    }
  }

  /** Leader completeness: whatever any node knows to be committed is in the log of every leader
      of that term or a later one, from then on. */
  lemma LeaderHoldsCommitted(
      servers: set<ServerID>, past: seq<Event>, next: seq<Event>, x: ServerID, y: ServerID)
    requires x in servers && y in servers
    ensures var s, s' := Execute(Start(servers), past), Execute(Execute(Start(servers), past), next);
            && x in s.nodes && y in s'.nodes
            && (s'.nodes[y].role == Leader && s'.nodes[y].term >= s.nodes[x].term
                ==> Agree(s.nodes[x].log, s'.nodes[y].log, s.nodes[x].commit + 1))
  {
    var s, s' := Moments(servers, past, next);
    LogOf(s, x);
    CandidateOf(s', y);
    CommittedIsHeld(s.h, s'.servers, s'.h, s.nodes[x], y, s'.nodes[y]);
  }

  lemma CommittedIsHeld(h: History, servers: set<ServerID>, h': History, n: Server, y: ServerID, l: Server)
    requires HistoryOk(servers, h') && Later(h, h') && Known(h, n.log, n.term, n.commit + 1) && LeaderOk(h', y, l)
    ensures l.role == Leader && l.term >= n.term ==> Agree(n.log, l.log, n.commit + 1)
  {
    KnownLater(h, h', n.log, n.term, n.commit + 1);
    if l.role == Leader && l.term >= n.term {
      KnownInLater(servers, h', n.log, n.term, n.commit + 1, l.term);
    }
  }

  /** Two committed prefixes never differ, whatever the terms they were learned in. */
  lemma KnownTogether(
      servers: set<ServerID>, h: History, a: seq<RaftLog>, ta: int, la: int, b: seq<RaftLog>, tb: int, lb: int)
    requires HistoryOk(servers, h) && Known(h, a, ta, la) && Known(h, b, tb, lb)
    ensures Agree(a, b, if la < lb then la else lb)
  {
    if la > 0 && lb > 0 {
      var p :| p in h.committed && KnownBy(h, a, ta, la, p);
      var q :| q in h.committed && KnownBy(h, b, tb, lb, q);
      PointsTogether(servers, h, p, q);
    }
  }

  lemma PointsTogether(servers: set<ServerID>, h: History, p: Point, q: Point)
    requires HistoryOk(servers, h) && p in h.committed && q in h.committed
    ensures p.term in h.logs && q.term in h.logs
    ensures Agree(h.logs[p.term], h.logs[q.term], if p.len < q.len then p.len else q.len)
  {
    if p.term <= q.term {
      PointInLater(servers, h, p, q.term);
      PointInLater(servers, h, q, q.term);
    } else {
      PointInLater(servers, h, q, p.term);
      PointInLater(servers, h, p, p.term);
    }
  }

  lemma AppliedTogether(servers: set<ServerID>, h: History, h': History, n: Server, n': Server, i: nat)
    requires HistoryOk(servers, h') && Later(h, h')
    requires CommitOk(h, n.term, n.log, n.base, n.applied, n.commit)
    requires CommitOk(h', n'.term, n'.log, n'.base, n'.applied, n'.commit)
    requires i <= n.applied && i <= n'.applied
    ensures i < |n.log| && i < |n'.log| && n.log[i] == n'.log[i]
  {
    KnownLater(h, h', n.log, n.term, n.commit + 1);
    KnownTogether(servers, h', n.log, n.term, n.commit + 1, n'.log, n'.term, n'.commit + 1);
  }

  /** State machine safety: entries applied at one index, by any two nodes at any two moments of
      a run, are equal. */
  lemma StateMachineSafety(
      servers: set<ServerID>, past: seq<Event>, next: seq<Event>, x: ServerID, y: ServerID, i: nat)
    requires x in servers && y in servers
    ensures var s, s' := Execute(Start(servers), past), Execute(Execute(Start(servers), past), next);
            && x in s.nodes && y in s'.nodes
            && (i <= s.nodes[x].applied && i <= s'.nodes[y].applied
                ==> i < |s.nodes[x].log| && i < |s'.nodes[y].log| && s.nodes[x].log[i] == s'.nodes[y].log[i])
  {
    var s, s' := Moments(servers, past, next);
    LogOf(s, x);
    LogOf(s', y);
    if i <= s.nodes[x].applied && i <= s'.nodes[y].applied {
      AppliedTogether(s'.servers, s.h, s'.h, s.nodes[x], s'.nodes[y], i);
    }
  }

  /** Acknowledgement soundness: as long as a peer has not moved to another term, it holds the
      leader's log as far as the leader's matchIndex says. */
  lemma AckSoundness(servers: set<ServerID>, events: seq<Event>, x: ServerID, p: ServerID)
    requires x in servers && p in servers
    ensures var s := Execute(Start(servers), events);
            && x in s.nodes && p in s.nodes
            && (s.nodes[x].role == Leader && p in s.nodes[x].matchIndex && s.nodes[p].term <= s.nodes[x].term
                ==> Agree(s.nodes[p].log, s.nodes[x].log, s.nodes[x].matchIndex[p] + 1))
  {
    var s, _ := Moments(servers, events, []);
    CandidateOf(s, x);
    AckOf(s, p);
    MatchHeld(s.h, x, s.nodes[x], p, s.nodes[p].term, s.nodes[p].log);
  }

  lemma MatchHeld(h: History, x: ServerID, n: Server, p: ServerID, term: int, log: seq<RaftLog>)
    requires LeaderOk(h, x, n) && AckOk(h, p, term, log)
    ensures n.role == Leader && p in n.matchIndex && term <= n.term ==> Agree(log, n.log, n.matchIndex[p] + 1)
  {
    if n.role == Leader && p in n.matchIndex && term <= n.term && n.matchIndex[p] >= 0 {
      assert AckedAtLeast(h, n.term, p, n.matchIndex[p] + 1);
      assert Held(h, log, n.term, n.matchIndex[p] + 1, term);
    }
  }

  lemma AckOf(s: State, p: ServerID)
    requires Inv(s) && p in s.nodes
    ensures AckOk(s.h, p, s.nodes[p].term, s.nodes[p].log)
  {
    NodeOf(s, p);
  }

  /** Terms never decrease along a log, and none is newer than the node's own. */
  lemma TermsInOrder(servers: set<ServerID>, events: seq<Event>, x: ServerID, i: nat, j: nat)
    requires x in servers
    ensures var s := Execute(Start(servers), events);
            x in s.nodes && (i <= j < |s.nodes[x].log| ==>
              s.nodes[x].log[i].term <= s.nodes[x].log[j].term <= s.nodes[x].term)
  {
    var s, _ := Moments(servers, events, []);
    NodeOf(s, x);
    OrderedLog(s.servers, s.h, s.nodes[x].term, s.nodes[x].log, i, j);
  }

  lemma OrderedLog(servers: set<ServerID>, h: History, term: int, log: seq<RaftLog>, i: nat, j: nat)
    requires HistoryOk(servers, h) && LogOk(h, term, log)
    ensures i <= j < |log| ==> log[i].term <= log[j].term <= term
  {
    if i <= j < |log| {
      var t := log[j].term;
      assert TracedAt(log, h.logs, j);
      assert TermLogOk(h, t);
      assert log[i] == h.logs[t][i];
    }
  }

  /** A candidate's vote count is the number of its distinct voters, each of whom voted for it in
      this term. */
  lemma VotesAreVoters(servers: set<ServerID>, events: seq<Event>, x: ServerID)
    requires x in servers
    ensures var s := Execute(Start(servers), events);
            x in s.nodes
            && var n := s.nodes[x];
               n.role == Candidate ==>
                 n.votes == |n.voters| && x in n.voters && n.voters <= servers
                 && forall v :: v in n.voters ==> VotedFor(s.h, Stand(n.term, v), x)
  {
    var s, _ := Moments(servers, events, []);
    ExecuteServers(Start(servers), events);
    CandidateOf(s, x);
  }
}
