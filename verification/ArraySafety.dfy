/** What clients and operators of the array cluster can rely on, in every run, with crashes, restarts,
    compaction, and lost, delayed, reordered and repeated messages: the properties of Figure 3 of
    "In Search of an Understandable Consensus Algorithm", and what the applications hold. */
module ArraySafety {
  import opened Types
  import opened Agreement
  import opened Replica
  import opened Application
  import opened ArrayCluster
  import opened Refinement
  import opened Simulation
  import opened ArrayInvariant
  import F = Safety
  import C = Cluster

  ghost function Lowered<S>(env: Setting<S>, w: World<S>, actions: seq<Action>): seq<C.Event>
    decreases |actions|
  {
    if actions == [] then [] else Lower(env, w, actions[0]) + Lowered(env, Step(env, w, actions[0]), actions[1..])
  }

  lemma {:induction false} ExecuteConcat(s: C.State, a: seq<C.Event>, b: seq<C.Event>)
    ensures C.Execute(s, a + b) == C.Execute(C.Execute(s, a), b)
    decreases |a|
  {
    if a == [] {
      assert a + b == b;
    } else {
      assert (a + b)[1..] == a[1..] + b;
      ExecuteConcat(C.Step(s, a[0]), a[1..], b);
    }
  }

  /** Every run of the array cluster is a run over unbounded logs. */
  lemma {:induction false} RunSimulates<S(!new)>(env: Setting<S>, w: World<S>, h: C.History, actions: seq<Action>)
    requires WorldOk(env, w, h) && Faithful(env.app)
    ensures var s := C.Execute(AbsState(w, h), Lowered(env, w, actions));
            AbsState(Run(env, w, actions), s.h) == s && WorldOk(env, Run(env, w, actions), s.h)
    decreases |actions|
  {
    if actions != [] {
      var first, w1 := Lower(env, w, actions[0]), Step(env, w, actions[0]);
      var s1 := C.Execute(AbsState(w, h), first);
      StepOk(env, w, h, actions[0]);
      RunSimulates(env, w1, s1.h, actions[1..]);
      ExecuteConcat(AbsState(w, h), first, Lowered(env, w1, actions[1..]));
    }
  }

  /** Two moments of one run, and what they look like over unbounded logs. */
  lemma Moments<S(!new)>(env: Setting<S>, servers: set<ServerID>, past: seq<Action>, next: seq<Action>)
      returns (w: World<S>, w': World<S>, h: C.History, h': C.History, before: seq<C.Event>, after: seq<C.Event>)
    requires Faithful(env.app)
    ensures w == Run(env, Boot(env, servers), past) && w' == Run(env, w, next)
    ensures AbsState(w, h) == C.Execute(C.Start(servers), before)
    ensures AbsState(w', h') == C.Execute(AbsState(w, h), after)
    ensures WorldOk(env, w, h) && WorldOk(env, w', h')
    ensures w.peers.Keys == w'.peers.Keys == servers && w.servers == w'.servers == servers
    ensures next == [] ==> after == []
  {
    BootOk(env, servers);
    w := Run(env, Boot(env, servers), past);
    before := Lowered(env, Boot(env, servers), past);
    RunSimulates(env, Boot(env, servers), C.Start(servers).h, past);
    h := C.Execute(C.Start(servers), before).h;
    F.ExecuteServers(C.Start(servers), before);
    w' := Run(env, w, next);
    after := Lowered(env, w, next);
    RunSimulates(env, w, h, next);
    h' := C.Execute(AbsState(w, h), after).h;
    F.ExecuteServers(AbsState(w, h), after);
  }

  lemma PeerAt<S>(env: Setting<S>, w: World<S>, h: C.History, x: ServerID)
    requires WorldOk(env, w, h) && x in w.peers
    ensures PeerFine(env.app, w.servers, w.peers[x])
    ensures Rep(w.peers[x].node, w.peers[x].log) && StateOk(env.app, w.peers[x])
    ensures x in AbsState(w, h).nodes && AbsState(w, h).nodes[x] == DiskImage(w.peers[x])
  {
  }

  /** One peer at the first moment, one at the second, and their images. */
  lemma TwoPeers<S(!new)>(
      env: Setting<S>, servers: set<ServerID>, past: seq<Action>, next: seq<Action>, x: ServerID, y: ServerID)
      returns (p: Peer<S>, q: Peer<S>, before: seq<C.Event>, after: seq<C.Event>)
    requires Faithful(env.app) && x in servers && y in servers
    ensures var w := Run(env, Boot(env, servers), past); var w' := Run(env, w, next);
            x in w.peers && y in w'.peers && p == w.peers[x] && q == w'.peers[y]
    ensures var s := C.Execute(C.Start(servers), before); var s' := C.Execute(s, after);
            x in s.nodes && y in s'.nodes && s.nodes[x] == DiskImage(p) && s'.nodes[y] == DiskImage(q)
    ensures PeerFine(env.app, servers, p) && PeerFine(env.app, servers, q)
    ensures Rep(p.node, p.log) && Rep(q.node, q.log) && StateOk(env.app, p) && StateOk(env.app, q)
    ensures next == [] ==> after == []
  {
    var w, w', h, h', b, a := Moments(env, servers, past, next);
    PeerAt(env, w, h, x);
    PeerAt(env, w', h', y);
    p, q, before, after := w.peers[x], w'.peers[y], b, a;
  }

  /** An application holds what the commands of an applied prefix make of its initial state, one by
      one, and a snapshot what those of the prefix it covers do. */
  ghost predicate FedInOrder<S>(app: App<S>, p: Peer<S>)
    requires Rep(p.node, p.log)
  {
    && p.sm == Fed(app, app.init, Commands(p.log[..p.node.lastApplied + 1]))
    && (p.node.lastSnapshot.Some? ==>
          p.node.lastSnapshot.value.data == app.save(Fed(app, app.init, Commands(p.log[..Base(p.node.lastSnapshot)]))))
  }

  lemma FedPeer<S>(app: App<S>, p: Peer<S>)
    requires Rep(p.node, p.log) && StateOk(app, p)
    ensures FedInOrder(app, p)
  {
    StateIsFed(app, p.log, p.node.lastApplied + 1);
    if p.node.lastSnapshot.Some? {
      StateIsFed(app, p.log, Base(p.node.lastSnapshot));
    }
  }

  /** The representation invariant holds at every node at every moment, the application is fed exactly
      the commands applied, in order, and a snapshot is the state they lead to. */
  lemma AlwaysWellFormed<S(!new)>(env: Setting<S>, servers: set<ServerID>, actions: seq<Action>, x: ServerID)
    requires Faithful(env.app) && x in servers
    ensures var w := Run(env, Boot(env, servers), actions);
            && x in w.peers && PeerFine(env.app, servers, w.peers[x])
            && Rep(w.peers[x].node, w.peers[x].log) && FedInOrder(env.app, w.peers[x])
  {
    var p, q, before, after := TwoPeers(env, servers, actions, [], x, x);
    FedPeer(env.app, p);
  }

  /** Terms never decrease along an array, and none is newer than the node's own. */
  lemma TermsInOrder<S(!new)>(
      env: Setting<S>, servers: set<ServerID>, actions: seq<Action>, x: ServerID, i: nat, j: nat)
    requires Faithful(env.app) && x in servers
    ensures var w := Run(env, Boot(env, servers), actions);
            && x in w.peers
            && var n := w.peers[x].node;
               i <= j < |n.logs| ==> n.logs[i].term <= n.logs[j].term <= n.currentTerm
  {
    var p, q, before, after := TwoPeers(env, servers, actions, [], x, x);
    if i <= j < |p.node.logs| {
      EntryIn(p.node, p.log, i);
      EntryIn(p.node, p.log, j);
      F.TermsInOrder(servers, before, x, p.node.logs[i].index, p.node.logs[j].index);
    }
  }

  /** The integer that counts a candidate's votes is the number of its distinct voters. */
  lemma CountIsVoters<S(!new)>(env: Setting<S>, servers: set<ServerID>, actions: seq<Action>, x: ServerID)
    requires Faithful(env.app) && x in servers
    ensures var w := Run(env, Boot(env, servers), actions);
            && x in w.peers
            && var p := w.peers[x];
               p.node.role == Candidate ==> p.node.electionVotes == |p.voters| && x in p.voters && p.voters <= servers
  {
    var p, q, before, after := TwoPeers(env, servers, actions, [], x, x);
    F.VotesAreVoters(servers, before, x);
  }

  /** At most one leader per term. */
  lemma OneLeader<S(!new)>(
      env: Setting<S>, servers: set<ServerID>, past: seq<Action>, next: seq<Action>, x: ServerID, y: ServerID)
    requires Faithful(env.app) && x in servers && y in servers
    ensures var w := Run(env, Boot(env, servers), past); var w' := Run(env, w, next);
            && x in w.peers && y in w'.peers
            && var n, n' := w.peers[x].node, w'.peers[y].node;
               n.role == Leader && n'.role == Leader && n.currentTerm == n'.currentTerm ==> x == y
  {
    var p, q, before, after := TwoPeers(env, servers, past, next, x, y);
    F.ElectionSafety(servers, before, after, x, y);
  }

  /** A vote outlives a crash: a node that has voted in a term is never again in an earlier one, and
      within the term never gives its vote to another candidate. */
  lemma OneVote<S(!new)>(env: Setting<S>, servers: set<ServerID>, past: seq<Action>, next: seq<Action>, x: ServerID)
    requires Faithful(env.app) && x in servers
    ensures var w := Run(env, Boot(env, servers), past); var w' := Run(env, w, next);
            && x in w.peers && x in w'.peers
            && var n, n' := w.peers[x].node, w'.peers[x].node;
               n.votedFor.Some? ==>
                 && n.currentTerm <= n'.currentTerm
                 && (n.currentTerm == n'.currentTerm ==> n'.votedFor == n.votedFor)
  {
    var p, q, before, after := TwoPeers(env, servers, past, next, x, x);
    F.VotesNeverChange(servers, before, after, x);
  }

  /** Array positions that hold the same index. */
  predicate SameIndex(n: Node, i: nat, n': Node, j: nat) {
    i < |n.logs| && j < |n'.logs| && n.logs[i].index == n'.logs[j].index
  }

  lemma EntryIn(n: Node, log: seq<RaftLog>, i: nat)
    requires Rep(n, log) && i < |n.logs|
    ensures 0 <= n.logs[i].index < |log| && n.logs[i] == log[n.logs[i].index]
    ensures n.logs[i].index == Base(n.lastSnapshot) + i
  {
  }

  lemma SameEntries(n: Node, log: seq<RaftLog>, i: nat, n': Node, log': seq<RaftLog>, j: nat, upTo: int)
    requires Rep(n, log) && Rep(n', log') && SameIndex(n, i, n', j)
    requires Agree(log, log', upTo) && n.logs[i].index < upTo
    ensures n.logs[i] == n'.logs[j]
  {
    EntryIn(n, log, i);
    EntryIn(n', log', j);
  }

  /** Entries of equal index and term are equal, and so is everything before them that both arrays
      still hold. */
  lemma MatchingEntries<S(!new)>(
      env: Setting<S>, servers: set<ServerID>, past: seq<Action>, next: seq<Action>, x: ServerID, y: ServerID,
      i: nat, j: nat, k: nat, l: nat)
    requires Faithful(env.app) && x in servers && y in servers
    ensures var w := Run(env, Boot(env, servers), past); var w' := Run(env, w, next);
            && x in w.peers && y in w'.peers
            && var n, n' := w.peers[x].node, w'.peers[y].node;
               SameIndex(n, i, n', j) && n.logs[i].term == n'.logs[j].term && SameIndex(n, k, n', l) && k <= i
               ==> n.logs[k] == n'.logs[l]
  {
    var p, q, before, after := TwoPeers(env, servers, past, next, x, y);
    if SameIndex(p.node, i, q.node, j) && p.node.logs[i].term == q.node.logs[j].term
       && SameIndex(p.node, k, q.node, l) && k <= i {
      EntryIn(p.node, p.log, i);
      EntryIn(q.node, q.log, j);
      EntryIn(p.node, p.log, k);
      F.LogMatching(servers, before, after, x, y, p.node.logs[i].index);
      SameEntries(p.node, p.log, k, q.node, q.log, l, p.node.logs[i].index + 1);
    }
  }

  /** State machine safety on the arrays: at an index both have applied, both hold the same entry. */
  lemma SameApplied<S(!new)>(
      env: Setting<S>, servers: set<ServerID>, past: seq<Action>, next: seq<Action>, x: ServerID, y: ServerID,
      i: nat, j: nat)
    requires Faithful(env.app) && x in servers && y in servers
    ensures var w := Run(env, Boot(env, servers), past); var w' := Run(env, w, next);
            && x in w.peers && y in w'.peers
            && var n, n' := w.peers[x].node, w'.peers[y].node;
               SameIndex(n, i, n', j) && n.logs[i].index <= n.lastApplied && n'.logs[j].index <= n'.lastApplied
               ==> n.logs[i] == n'.logs[j]
  {
    var p, q, before, after := TwoPeers(env, servers, past, next, x, y);
    if SameIndex(p.node, i, q.node, j) {
      EntryIn(p.node, p.log, i);
      EntryIn(q.node, q.log, j);
      F.StateMachineSafety(servers, before, after, x, y, p.node.logs[i].index);
    }
  }

  /** What the nodes applied is one history: the shorter is a prefix of the longer. */
  lemma OneHistory<S(!new)>(
      env: Setting<S>, servers: set<ServerID>, past: seq<Action>, next: seq<Action>, x: ServerID, y: ServerID)
      returns (p: Peer<S>, q: Peer<S>)
    requires Faithful(env.app) && x in servers && y in servers
    ensures var w := Run(env, Boot(env, servers), past); var w' := Run(env, w, next);
            x in w.peers && y in w'.peers && p == w.peers[x] && q == w'.peers[y]
    ensures PeerFine(env.app, servers, p) && PeerFine(env.app, servers, q)
    ensures Rep(p.node, p.log) && Rep(q.node, q.log) && StateOk(env.app, p) && StateOk(env.app, q)
    ensures forall k: nat :: k <= p.node.lastApplied + 1 && k <= q.node.lastApplied + 1 ==>
              StateAfter(env.app, p.log, k) == StateAfter(env.app, q.log, k)
  {
    var before, after;
    p, q, before, after := TwoPeers(env, servers, past, next, x, y);
    forall k: nat | k <= p.node.lastApplied + 1 && k <= q.node.lastApplied + 1
      ensures StateAfter(env.app, p.log, k) == StateAfter(env.app, q.log, k)
    {
      forall i | 0 <= i < k ensures p.log[i] == q.log[i] {
        F.StateMachineSafety(servers, before, after, x, y, i);
      }
      StateOfAgreeing(env.app, p.log, q.log, k);
    }
  }

  /** Any two applications that have applied as far, at any two moments, before or after a crash, by
      replay or from a snapshot, are in the same state. */
  lemma SameState<S(!new)>(
      env: Setting<S>, servers: set<ServerID>, past: seq<Action>, next: seq<Action>, x: ServerID, y: ServerID)
    requires Faithful(env.app) && x in servers && y in servers
    ensures var w := Run(env, Boot(env, servers), past); var w' := Run(env, w, next);
            && x in w.peers && y in w'.peers
            && (w.peers[x].node.lastApplied == w'.peers[y].node.lastApplied ==> w.peers[x].sm == w'.peers[y].sm)
  {
    var p, q := OneHistory(env, servers, past, next, x, y);
  }

  /** A snapshot is the state of every application that has applied exactly what it covers. */
  lemma SnapshotIsState<S(!new)>(
      env: Setting<S>, servers: set<ServerID>, past: seq<Action>, next: seq<Action>, x: ServerID, y: ServerID)
    requires Faithful(env.app) && x in servers && y in servers
    ensures var w := Run(env, Boot(env, servers), past); var w' := Run(env, w, next);
            && x in w.peers && y in w'.peers
            && var snap := w.peers[x].node.lastSnapshot;
               snap.Some? && snap.value.lastIncludedIndex == w'.peers[y].node.lastApplied
               ==> snap.value.data == env.app.save(w'.peers[y].sm)
  {
    var p, q := OneHistory(env, servers, past, next, x, y);
  }

  /** Leader completeness on the arrays: a committed entry is, at every leader of that term or a
      later one, still in the array as it was, or covered by the leader's snapshot. */
  lemma LeaderKeepsCommitted<S(!new)>(
      env: Setting<S>, servers: set<ServerID>, past: seq<Action>, next: seq<Action>, x: ServerID, y: ServerID, i: nat)
    requires Faithful(env.app) && x in servers && y in servers
    ensures var w := Run(env, Boot(env, servers), past); var w' := Run(env, w, next);
            && x in w.peers && y in w'.peers
            && var n, n' := w.peers[x].node, w'.peers[y].node;
               i < |n.logs| && n.logs[i].index <= n.commitIndex
               && n'.role == Leader && n'.currentTerm >= n.currentTerm
               ==> var at := Find(n'.logs, n.logs[i].index);
                   if at >= 0 then n'.logs[at] == n.logs[i]
                   else n'.lastSnapshot.Some? && n'.lastSnapshot.value.lastIncludedIndex >= n.logs[i].index
  {
    var p, q, before, after := TwoPeers(env, servers, past, next, x, y);
    F.LeaderHoldsCommitted(servers, before, after, x, y);
    var n, n' := p.node, q.node;
    if i < |n.logs| && n.logs[i].index <= n.commitIndex && n'.role == Leader && n'.currentTerm >= n.currentTerm {
      HeldOrCovered(n, p.log, i, n', q.log);
    }
  }

  lemma HeldOrCovered(n: Node, log: seq<RaftLog>, i: nat, n': Node, log': seq<RaftLog>)
    requires Rep(n, log) && Rep(n', log') && i < |n.logs| && n.logs[i].index <= n.commitIndex
    requires Agree(log, log', n.commitIndex + 1)
    ensures var at := Find(n'.logs, n.logs[i].index);
            if at >= 0 then n'.logs[at] == n.logs[i]
            else n'.lastSnapshot.Some? && n'.lastSnapshot.value.lastIncludedIndex >= n.logs[i].index
  {
    EntryIn(n, log, i);
    FindIn(n', log', n.logs[i].index);
  }

  /** A leader's matchIndex tells the truth: a peer not yet in a later term reaches that far, and
      holds the leader's entries there. */
  lemma MatchIndexIsTrue<S(!new)>(
      env: Setting<S>, servers: set<ServerID>, actions: seq<Action>, x: ServerID, y: ServerID, i: nat, j: nat)
    requires Faithful(env.app) && x in servers && y in servers
    ensures var w := Run(env, Boot(env, servers), actions);
            && x in w.peers && y in w.peers
            && var n, f := w.peers[x].node, w.peers[y].node;
               n.role == Leader && y in n.matchIndex && f.currentTerm <= n.currentTerm
               ==> LastIdx(f) >= n.matchIndex[y]
                   && (SameIndex(n, i, f, j) && n.logs[i].index <= n.matchIndex[y] ==> n.logs[i] == f.logs[j])
  {
    var p, q, before, after := TwoPeers(env, servers, actions, [], x, y);
    var n, f := p.node, q.node;
    if n.role == Leader && y in n.matchIndex && f.currentTerm <= n.currentTerm {
      F.AckSoundness(servers, before, x, y);
      LastOfFull(f, q.log);
      if SameIndex(n, i, f, j) && n.logs[i].index <= n.matchIndex[y] {
        SameEntries(f, q.log, j, n, p.log, i, n.matchIndex[y] + 1);
      }
    }
  }
}
