/** What a deposed leader's old match indices still say. Once a majority holds an entry of its own term,
    everything a majority holds of its log is in the log of every later leader; and a majority
    holds one as soon as it holds anything, if the leader stored its no-op. */
module Deposition {
  import opened Types
  import opened Agreement
  import opened Cluster
  import opened Invariant
  import opened Growth
  import opened QuietSteps
  import opened VoteSteps
  import opened WinSteps
  import opened AppendSteps
  import opened Safety

  ghost predicate Leads(s: State, x: ServerID) {
    x in s.nodes && s.nodes[x].role == Leader
  }

  /** By the leader's match indices a majority holds its log through the index. */
  predicate Reached(s: State, n: Server, i: int) {
    |Replicated(n, i)| > |s.servers| / 2
  }

  lemma ReachBound(s: State, x: ServerID, i: int)
    requires Inv(s) && Leads(s, x) && Reached(s, s.nodes[x], i) && i >= 0
    ensures i < |s.nodes[x].log|
  {
    CandidateOf(s, x);
    AcksOf(s);
    HeldBound(s.h, x, s.nodes[x], i);
  }

  lemma AcksOf(s: State)
    requires Inv(s)
    ensures HistoryOk(s.servers, s.h) && forall key :: key in s.h.acked ==> AckedOk(s.h, key)
  {
  }

  lemma HeldBound(h: History, x: ServerID, n: Server, i: int)
    requires (forall key :: key in h.acked ==> AckedOk(h, key)) && LeaderOk(h, x, n) && n.role == Leader
    requires Replicated(n, i) != {} && i >= 0
    ensures i < |n.log|
  {
    var p :| p in Replicated(n, i);
    assert AckedAtLeast(h, n.term, p, n.matchIndex[p] + 1);
    assert AckedOk(h, Stand(n.term, p));
  }

  /** An entry of the leader's own term that a majority holds could be committed, so every later
      leader has it. */
  lemma OwnReachedAgrees(s: State, x: ServerID, t: int, i: int)
    requires Inv(s) && Leads(s, x) && t in s.h.logs && t > s.nodes[x].term
    requires 0 <= i < |s.nodes[x].log| && s.nodes[x].log[i].term == s.nodes[x].term && Reached(s, s.nodes[x], i)
    ensures Agree(s.nodes[x].log, s.h.logs[t], i + 1)
  {
    CandidateOf(s, x);
    if i <= s.nodes[x].commit {
      CommittedAgrees(s, x, t);
    } else {
      var h' := Advanced(s, x, i);
      PointInLater(s.servers, h', Point(s.nodes[x].term, i + 1), t);
    }
  }

  lemma CommittedAgrees(s: State, x: ServerID, t: int)
    requires Inv(s) && x in s.nodes && t in s.h.logs && t >= s.nodes[x].term
    ensures Agree(s.nodes[x].log, s.h.logs[t], s.nodes[x].commit + 1)
  {
    LogOf(s, x);
    AcksOf(s);
    KnownInLater(s.servers, s.h, s.nodes[x].log, s.nodes[x].term, s.nodes[x].commit + 1, t);
  }

  /** The history as it would be, had the leader committed. */
  lemma Advanced(s: State, x: ServerID, i: int) returns (h': History)
    requires Inv(s) && CanAdvanceCommit(s, x, i)
    ensures h' == s.h.(committed := h'.committed) && Point(s.nodes[x].term, i + 1) in h'.committed
    ensures HistoryOk(s.servers, h')
  {
    AdvanceCommitInv(s, x, i);
    h' := DoAdvanceCommit(s, x, i).h;
  }

  /** An entry of its own term is committed, or held by a majority. */
  ghost predicate OwnInReach(s: State, n: Server) {
    exists r :: 0 <= r < |n.log| && OwnHeld(s, n, r)
  }

  ghost predicate OwnHeld(s: State, n: Server, r: int)
    requires 0 <= r < |n.log|
  {
    n.log[r].term == n.term && (r <= n.commit || Reached(s, n, r))
  }

  lemma ReachedAgrees(s: State, x: ServerID, t: int, i: int)
    requires Inv(s) && Leads(s, x) && t in s.h.logs && t > s.nodes[x].term
    requires OwnInReach(s, s.nodes[x]) && i >= 0 && Reached(s, s.nodes[x], i)
    ensures Agree(s.nodes[x].log, s.h.logs[t], i + 1)
  {
    var n := s.nodes[x];
    var r :| 0 <= r < |n.log| && OwnHeld(s, n, r);
    ReachBound(s, x, i);
    if i > r {
      OwnAbove(s, x, r, i);
      OwnReachedAgrees(s, x, t, i);
    } else if r <= n.commit {
      CommittedAgrees(s, x, t);
    } else {
      OwnReachedAgrees(s, x, t, r);
    }
  }

  lemma OwnAbove(s: State, x: ServerID, r: nat, i: nat)
    requires Inv(s) && x in s.nodes && r <= i < |s.nodes[x].log| && s.nodes[x].log[r].term == s.nodes[x].term
    ensures s.nodes[x].log[i].term == s.nodes[x].term
  {
    NodeOf(s, x);
    OrderedLog(s.servers, s.h, s.nodes[x].term, s.nodes[x].log, r, i);
  }

  // ---- what the deposing request leaves there ----

  /** The node after an append request of a newer term. */
  function Overtaken(n: Server, args: AppendEntriesArgs, full: bool): Server {
    var n' := Adopt(n, args.term).(role := Follower);
    if AcceptsAppend(n, args, full) then Follow(n', args) else n'
  }

  lemma OvertakenLog(s: State, x: ServerID, m: AppendReq, full: bool)
    requires Inv(s) && x in s.nodes && m in s.net.appends && m.args.term > s.nodes[x].term
    ensures m.args.term in s.h.logs
    ensures var log, log' := s.nodes[x].log, Overtaken(s.nodes[x], m.args, full).log;
            log' == log || Agree(log', s.h.logs[m.args.term], |log'|)
  {
    var n := s.nodes[x];
    NodeOf(s, x);
    assert AppendReqOk(s.h, m);
    if AcceptsAppend(n, m.args, full) {
      var n1 := Adopt(n, m.args.term).(role := Follower);
      AdoptedNode(s.servers, s.h, x, n, m.args.term);
      KnownInLater(s.servers, s.h, n.log, n1.term, n.commit + 1, m.args.term);
      assert TermLogOk(s.h, m.args.term);
      MergeResult(s.h, n1, m);
    }
  }

  /** Where the old log agrees with the new leader's, the node holds no entry of the new term. */
  lemma OldEntryStays(s: State, x: ServerID, m: AppendReq, full: bool, i: int)
    requires Inv(s) && x in s.nodes && m in s.net.appends && m.args.term > s.nodes[x].term
    requires m.args.term in s.h.logs && i >= 0 && Agree(s.nodes[x].log, s.h.logs[m.args.term], i + 1)
    ensures var log' := Overtaken(s.nodes[x], m.args, full).log; i < |log'| ==> log'[i].term < m.args.term
  {
    OvertakenLog(s, x, m, full);
    NodeOf(s, x);
  }

  // ---- with the no-op stored ----

  /** An index acknowledged in a term is past the log its leader was elected with, or committed. */
  ghost predicate Firm(h: History, t: int, m: int) {
    m < 0 || (t in h.logs && t in h.elected && (m >= |h.elected[t]| || Known(h, h.logs[t], t, m + 1)))
  }

  ghost predicate NetFirm(h: History, net: Net) {
    && (forall m :: m in net.appends ==> Firm(h, m.args.term, Covers(m.args)))
    && (forall r :: r in net.appendReps && r.resp.success ==> Firm(h, r.resp.term, r.covered))
    && (forall r :: r in net.installReps && r.resp.success ==> Firm(h, r.resp.term, r.resp.lastIncludedIndex))
  }

  ghost predicate NodeFirm(h: History, n: Server) {
    n.role == Leader ==>
      && n.term in h.elected && |n.log| > |h.elected[n.term]|
      && forall p :: p in n.matchIndex ==> Firm(h, n.term, n.matchIndex[p])
  }

  ghost predicate NodesFirm(h: History, nodes: map<ServerID, Server>) {
    forall x {:trigger nodes[x]} :: x in nodes ==> NodeFirm(h, nodes[x])
  }

  ghost predicate AllFirm(s: State) {
    NetFirm(s.h, s.net) && NodesFirm(s.h, s.nodes)
  }

  /** A victory stores its no-op. */
  predicate Roomy(e: Event) {
    (e.DeliverVoteRep? ==> e.room) && (e.WinAlone? ==> e.room)
  }

  lemma FirmLater(h: History, h': History, t: int, m: int)
    requires Firm(h, t, m) && Later(h, h')
    ensures Firm(h', t, m)
  {
    if m >= 0 && m < |h.elected[t]| {
      KnownLater(h, h', h.logs[t], t, m + 1);
      KnownExtends(h', h.logs[t], h'.logs[t], t, m + 1);
    }
  }

  lemma NodeFirmLater(h: History, h': History, n: Server)
    requires NodeFirm(h, n) && Later(h, h')
    ensures NodeFirm(h', n)
  {
    if n.role == Leader {
      forall p | p in n.matchIndex ensures Firm(h', n.term, n.matchIndex[p]) {
        FirmLater(h, h', n.term, n.matchIndex[p]);
      }
    }
  }

  lemma NetFirmLater(h: History, h': History, net: Net)
    requires NetFirm(h, net) && Later(h, h')
    ensures NetFirm(h', net)
  {
    forall m | m in net.appends ensures Firm(h', m.args.term, Covers(m.args)) {
      FirmLater(h, h', m.args.term, Covers(m.args));
    }
    forall r | r in net.appendReps && r.resp.success ensures Firm(h', r.resp.term, r.covered) {
      FirmLater(h, h', r.resp.term, r.covered);
    }
    forall r | r in net.installReps && r.resp.success ensures Firm(h', r.resp.term, r.resp.lastIncludedIndex) {
      FirmLater(h, h', r.resp.term, r.resp.lastIncludedIndex);
    }
  }

  /** One node moves, and messages are added or taken away. */
  lemma FirmStep(s: State, x: ServerID, n': Server, s': State)
    requires AllFirm(s) && Later(s.h, s'.h) && s'.nodes == s.nodes[x := n']
    requires NodeFirm(s'.h, n')
    requires forall m :: m in s'.net.appends && m !in s.net.appends ==> Firm(s'.h, m.args.term, Covers(m.args))
    requires forall r :: r in s'.net.appendReps && r !in s.net.appendReps && r.resp.success ==>
               Firm(s'.h, r.resp.term, r.covered)
    requires forall r :: r in s'.net.installReps && r !in s.net.installReps && r.resp.success ==>
               Firm(s'.h, r.resp.term, r.resp.lastIncludedIndex)
    ensures AllFirm(s')
  {
    NetFirmLater(s.h, s'.h, s.net);
    forall y | y in s'.nodes ensures NodeFirm(s'.h, s'.nodes[y]) {
      if y != x {
        NodeFirmLater(s.h, s'.h, s.nodes[y]);
      }
    }
  }

  ghost predicate SameLetters(net: Net, net': Net) {
    net'.appends == net.appends && net'.appendReps == net.appendReps && net'.installReps == net.installReps
  }

  /** A node that leads afterwards led before, in the same term, with the same books. */
  ghost predicate SameBooks(n: Server, n': Server) {
    n'.role == Leader ==> n.role == Leader && n'.term == n.term && n'.log == n.log && n'.matchIndex == n.matchIndex
  }

  lemma BooksKept(h: History, h': History, n: Server, n': Server)
    requires NodeFirm(h, n) && Later(h, h') && SameBooks(n, n')
    ensures NodeFirm(h', n')
  {
    if n'.role == Leader {
      NodeFirmLater(h, h', n);
    }
  }

  lemma QuietFirm(s: State, x: ServerID, s': State)
    requires AllFirm(s) && Later(s.h, s'.h) && x in s.nodes && x in s'.nodes && s'.nodes == s.nodes[x := s'.nodes[x]]
    requires SameBooks(s.nodes[x], s'.nodes[x]) && SameLetters(s.net, s'.net)
    ensures AllFirm(s')
  {
    BooksKept(s.h, s'.h, s.nodes[x], s'.nodes[x]);
    FirmStep(s, x, s'.nodes[x], s');
  }

  lemma WonFirm(s: State, x: ServerID, n: Server, s': State)
    requires AllFirm(s) && Later(s.h, s'.h) && x in s.nodes && SameLetters(s.net, s'.net)
    requires s'.nodes == s.nodes[x := Crown(x, n, true)]
    requires n.term in s'.h.elected && n.term in s'.h.logs && s'.h.elected[n.term] == n.log
    ensures AllFirm(s')
  {
    FirmStep(s, x, Crown(x, n, true), s');
  }

  lemma ClientFirm(s: State, x: ServerID, entry: RaftLog)
    requires CanClientAppend(s, x, entry) && LeaderOk(s.h, x, s.nodes[x]) && AllFirm(s)
    ensures AllFirm(DoClientAppend(s, x, entry))
  {
    var n, s' := s.nodes[x], DoClientAppend(s, x, entry);
    var n' := s'.nodes[x];
    ClientLater(s, x, entry);
    NodeFirmLater(s.h, s'.h, n);
    forall p | p in n'.matchIndex ensures Firm(s'.h, n'.term, n'.matchIndex[p]) {
      if p != x {
        assert n'.matchIndex[p] == n.matchIndex[p];
      }
    }
    FirmStep(s, x, n', s');
  }

  lemma SendFirm(s: State, x: ServerID, m: AppendReq)
    requires CanSendAppend(s, x, m) && LeaderOk(s.h, x, s.nodes[x]) && AllFirm(s)
    ensures AllFirm(DoSendAppend(s, m))
  {
    var s' := DoSendAppend(s, m);
    assert s'.nodes == s.nodes[x := s.nodes[x]];
    FirmStep(s, x, s.nodes[x], s');
  }

  lemma CreditFirm(s: State, x: ServerID, n': Server, id: ServerID, m: int, s': State)
    requires AllFirm(s) && Later(s.h, s'.h) && Leads(s, x) && SameLetters(s.net, s'.net) && s'.nodes == s.nodes[x := n']
    requires Firm(s.h, s.nodes[x].term, m) && n' == s.nodes[x].(matchIndex := s.nodes[x].matchIndex[id := m])
    ensures AllFirm(s')
  {
    var n := s.nodes[x];
    NodeFirmLater(s.h, s'.h, n);
    FirmLater(s.h, s'.h, n.term, m);
    forall p | p in n'.matchIndex ensures Firm(s'.h, n'.term, n'.matchIndex[p]) {
      if p != id {
        assert n'.matchIndex[p] == n.matchIndex[p];
      }
    }
    FirmStep(s, x, n', s');
  }

  lemma AppendRepFirm(s: State, r: AppendRep)
    requires AllFirm(s) && CanDeliverAppendRep(s, r)
    ensures AllFirm(DoAppendRep(s, r))
  {
    var n, s' := s.nodes[r.to], DoAppendRep(s, r);
    if n.role == Leader && r.resp.success && r.resp.term == n.term {
      CreditFirm(s, r.to, s'.nodes[r.to], r.resp.id, r.covered, s');
    } else {
      assert s.nodes == s.nodes[r.to := n];
      QuietFirm(s, r.to, s');
    }
  }

  lemma InstallRepFirm(s: State, r: InstallRep)
    requires AllFirm(s) && CanDeliverInstallRep(s, r)
    ensures AllFirm(DoInstallRep(s, r))
  {
    var n, s' := s.nodes[r.to], DoInstallRep(s, r);
    if n.role == Leader && r.resp.success && r.resp.term == n.term {
      CreditFirm(s, r.to, s'.nodes[r.to], r.resp.id, r.resp.lastIncludedIndex, s');
    } else {
      assert s.nodes == s.nodes[r.to := n];
      QuietFirm(s, r.to, s');
    }
  }

  lemma AppendFirm(s: State, m: AppendReq, rep: AppendRep, full: bool)
    requires AllFirm(s) && CanDeliverAppend(s, m, rep, full)
    requires Later(s.h, DoAppend(s, m, rep, full).h)
    ensures AllFirm(DoAppend(s, m, rep, full))
  {
    var s' := DoAppend(s, m, rep, full);
    FirmLater(s.h, s'.h, m.args.term, Covers(m.args));
    assert s.nodes == s.nodes[m.to := s.nodes[m.to]];
    BooksKept(s.h, s'.h, s.nodes[m.to], s'.nodes[m.to]);
    FirmStep(s, m.to, s'.nodes[m.to], s');
  }

  lemma InstallFirm(s: State, m: InstallReq, rep: InstallRep)
    requires AllFirm(s) && CanDeliverInstall(s, m, rep) && Later(s.h, DoInstall(s, m, rep).h)
    requires m.args.lastIncludedIndex == |m.prefix| - 1 && Firm(s.h, m.args.term, |m.prefix| - 1)
    requires SameBooks(s.nodes[m.to], DoInstall(s, m, rep).nodes[m.to])
    ensures AllFirm(DoInstall(s, m, rep))
  {
    var s' := DoInstall(s, m, rep);
    FirmLater(s.h, s'.h, m.args.term, |m.prefix| - 1);
    assert s.nodes == s.nodes[m.to := s.nodes[m.to]];
    BooksKept(s.h, s'.h, s.nodes[m.to], s'.nodes[m.to]);
    FirmStep(s, m.to, s'.nodes[m.to], s');
  }

  lemma PrefixFirm(s: State, m: InstallReq)
    requires Inv(s) && m in s.net.installs
    ensures m.args.lastIncludedIndex == |m.prefix| - 1 && Firm(s.h, m.args.term, |m.prefix| - 1)
  {
    assert InstallReqOk(s.h, m);
    KnownExtends(s.h, m.prefix, s.h.logs[m.args.term], m.args.term, |m.prefix|);
    assert m.args.term in s.h.elected by {
      assert TermLogOk(s.h, m.args.term);
    }
  }

  /** A leader that meets a snapshot of its own term holds all of it already. */
  lemma InstallBooks(s: State, m: InstallReq, rep: InstallRep)
    requires Inv(s) && CanDeliverInstall(s, m, rep)
    ensures SameBooks(s.nodes[m.to], DoInstall(s, m, rep).nodes[m.to])
  {
    var n := s.nodes[m.to];
    CandidateOf(s, m.to);
    assert InstallReqOk(s.h, m);
    if n.role == Leader && n.term == m.args.term && m.args.lastIncludedIndex > n.applied && !HoldsMore(n, m) {
      assert |m.prefix| == |n.log|;
      assert m.prefix == n.log;
    }
  }

  lemma TimeoutFirm(s: State, x: ServerID)
    requires AllFirm(s) && CanTimeout(s, x) && Later(s.h, DoTimeout(s, x).h)
    ensures AllFirm(DoTimeout(s, x))
  {
    QuietFirm(s, x, DoTimeout(s, x));
  }

  lemma VoteReqFirm(s: State, m: VoteReq)
    requires AllFirm(s) && CanDeliverVoteReq(s, m) && Later(s.h, DoVoteReq(s, m).h)
    ensures AllFirm(DoVoteReq(s, m))
  {
    QuietFirm(s, m.to, DoVoteReq(s, m));
  }

  lemma VoteRepFirm(s: State, r: VoteRep)
    requires AllFirm(s) && CanDeliverVoteRep(s, r) && Later(s.h, DoVoteRep(s, r, true).h)
    ensures AllFirm(DoVoteRep(s, r, true))
  {
    var n, s' := s.nodes[r.to], DoVoteRep(s, r, true);
    if n.role == Candidate && r.resp.term == n.term && r.resp.voteGranted && n.votes + 1 > |s.servers| / 2 {
      WonFirm(s, r.to, Counted(n, r.resp.id), s');
    } else {
      assert s.nodes == s.nodes[r.to := n];
      QuietFirm(s, r.to, s');
    }
  }

  lemma AloneFirm(s: State, x: ServerID)
    requires AllFirm(s) && CanWinAlone(s, x) && Later(s.h, DoWinAlone(s, x, true).h)
    ensures AllFirm(DoWinAlone(s, x, true))
  {
    WonFirm(s, x, s.nodes[x], DoWinAlone(s, x, true));
  }

  /** Commit, apply, compaction, restart and stepping down write no books. */
  lemma RestFirm(s: State, e: Event)
    requires AllFirm(s) && Enabled(s, e) && Later(s.h, Step(s, e).h)
    requires e.AdvanceCommit? || e.ApplyNext? || e.Compact? || e.Restart? || e.Learn? || e.Yield?
    ensures AllFirm(Step(s, e))
  {
    QuietFirm(s, e.n, Step(s, e));
  }

  /** What a step needs to know of the invariant. */
  ghost predicate Backed(s: State, e: Event) {
    && Later(s.h, Step(s, e).h)
    && (e.ClientAppend? || e.SendAppend? ==> e.n in s.nodes && LeaderOk(s.h, e.n, s.nodes[e.n]))
    && (e.DeliverInstall? && Enabled(s, e) ==>
          && e.ins.args.lastIncludedIndex == |e.ins.prefix| - 1 && Firm(s.h, e.ins.args.term, |e.ins.prefix| - 1)
          && SameBooks(s.nodes[e.ins.to], DoInstall(s, e.ins, e.insRep).nodes[e.ins.to]))
  }

  lemma BackedStep(s: State, e: Event)
    requires Inv(s) && Enabled(s, e)
    ensures Backed(s, e)
  {
    StepLater(s, e);
    if e.ClientAppend? || e.SendAppend? {
      CandidateOf(s, e.n);
    }
    if e.DeliverInstall? {
      PrefixFirm(s, e.ins);
      InstallBooks(s, e.ins, e.insRep);
    }
  }

  lemma StepFirm(s: State, e: Event)
    requires AllFirm(s) && Roomy(e) && (Enabled(s, e) ==> Backed(s, e))
    ensures AllFirm(Step(s, e))
  {
    if Enabled(s, e) {
      match e
      case Timeout(n) => TimeoutFirm(s, n);
      case DeliverVoteReq(vq) => VoteReqFirm(s, vq);
      case DeliverVoteRep(vr, room) => VoteRepFirm(s, vr);
      case WinAlone(n, room) => AloneFirm(s, n);
      case ClientAppend(n, entry) => ClientFirm(s, n, entry);
      case SendAppend(n, ap) => SendFirm(s, n, ap);
      case DeliverAppend(ap, apRep, full) => AppendFirm(s, ap, apRep, full);
      case DeliverAppendRep(apRep) => AppendRepFirm(s, apRep);
      case SendInstall(n, ins) =>
      case DeliverInstall(ins, insRep) => InstallFirm(s, ins, insRep);
      case DeliverInstallRep(insRep) => InstallRepFirm(s, insRep);
      case _ => RestFirm(s, e);
    }
  }

  lemma {:induction false} ExecuteFirm(s: State, events: seq<Event>)
    requires Inv(s) && AllFirm(s) && forall e :: e in events ==> Roomy(e)
    ensures AllFirm(Execute(s, events))
    decreases |events|
  {
    if events != [] {
      if Enabled(s, events[0]) {
        BackedStep(s, events[0]);
      }
      StepInv(s, events[0]);
      StepFirm(s, events[0]);
      ExecuteFirm(Step(s, events[0]), events[1..]);
    }
  }

  /** With its no-op stored, whatever a majority holds of a leader's log is in the log of every later
      leader, whether or not it is committed. */
  lemma FirmReachAgrees(s: State, x: ServerID, t: int, i: int)
    requires Inv(s) && Leads(s, x) && NodeFirm(s.h, s.nodes[x]) && t in s.h.logs && t > s.nodes[x].term
    requires i >= 0 && Reached(s, s.nodes[x], i)
    ensures Agree(s.nodes[x].log, s.h.logs[t], i + 1)
  {
    CandidateOf(s, x);
    var n := s.nodes[x];
    var e := OwnStart(s, x);
    if p :| p in Replicated(n, i) && n.matchIndex[p] < e {
      FirmKnown(s.h, n, p);
      KnownAgrees(s, x, t, n.matchIndex[p] + 1);
    } else {
      PastStartAgrees(s, x, t, i, e);
    }
  }

  lemma PastStartAgrees(s: State, x: ServerID, t: int, i: int, e: nat)
    requires Inv(s) && Leads(s, x) && t in s.h.logs && t > s.nodes[x].term && i >= 0 && Reached(s, s.nodes[x], i)
    requires forall k :: e <= k < |s.nodes[x].log| ==> s.nodes[x].log[k].term == s.nodes[x].term
    requires forall p :: p in Replicated(s.nodes[x], i) ==> s.nodes[x].matchIndex[p] >= e
    ensures Agree(s.nodes[x].log, s.h.logs[t], i + 1)
  {
    var j := if i < e then e else i;
    SameReach(s.nodes[x], i, j);
    ReachBound(s, x, j);
    OwnReachedAgrees(s, x, t, j);
  }

  lemma SameReach(n: Server, i: int, j: int)
    requires i <= j && forall p :: p in Replicated(n, i) ==> n.matchIndex[p] >= j
    ensures Replicated(n, j) == Replicated(n, i)
  {
  }

  lemma FirmKnown(h: History, n: Server, p: ServerID)
    requires NodeFirm(h, n) && n.role == Leader && n.term in h.logs && h.logs[n.term] == n.log
    requires p in n.matchIndex && 0 <= n.matchIndex[p] < |h.elected[n.term]|
    ensures Known(h, n.log, n.term, n.matchIndex[p] + 1)
  {
    assert Firm(h, n.term, n.matchIndex[p]);
  }

  lemma KnownAgrees(s: State, x: ServerID, t: int, len: int)
    requires Inv(s) && x in s.nodes && t in s.h.logs && t >= s.nodes[x].term
    requires Known(s.h, s.nodes[x].log, s.nodes[x].term, len)
    ensures Agree(s.nodes[x].log, s.h.logs[t], len)
  {
    AcksOf(s);
    KnownInLater(s.servers, s.h, s.nodes[x].log, s.nodes[x].term, len, t);
  }

  /** A leader's own entries start where the log ended that it was elected with. */
  lemma OwnStart(s: State, x: ServerID) returns (e: nat)
    requires Inv(s) && Leads(s, x)
    ensures s.nodes[x].term in s.h.elected && e == |s.h.elected[s.nodes[x].term]|
    ensures forall i :: e <= i < |s.nodes[x].log| ==> s.nodes[x].log[i].term == s.nodes[x].term
  {
    CandidateOf(s, x);
    AcksOf(s);
    assert TermLogOk(s.h, s.nodes[x].term);
    e := |s.h.elected[s.nodes[x].term]|;
  }
}
