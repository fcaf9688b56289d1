/** How one node's step may extend the history, and why the invariant of every other node and of
    every message in flight survives it. */
module Growth {
  import opened Types
  import opened Agreement
  import opened Cluster
  import opened Invariant

  ghost predicate KeptBy<K, V>(m: map<K, V>, m': map<K, V>) {
    forall k :: k in m ==> k in m' && m'[k] == m[k]
  }

  ghost predicate OwnStands<V>(m: map<Stand, V>, m': map<Stand, V>, x: ServerID) {
    forall k :: k in m' && (k !in m || m'[k] != m[k]) ==> k.server == x
  }

  /** The history after a step of node x: records are kept, new ones are x's own, and only logs of
      terms that x leads get longer. */
  ghost predicate Grows(h: History, h': History, x: ServerID) {
    && KeptBy(h.votes, h'.votes) && OwnStands(h.votes, h'.votes, x)
    && KeptBy(h.bids, h'.bids) && OwnStands(h.bids, h'.bids, x)
    && KeptBy(h.voterLogs, h'.voterLogs) && OwnStands(h.voterLogs, h'.voterLogs, x)
    && KeptBy(h.leader, h'.leader)
    && KeptBy(h.quorum, h'.quorum)
    && KeptBy(h.elected, h'.elected)
    && (forall t :: t in h'.leader && t !in h.leader ==> h'.leader[t] == x)
    && Extends(h.logs, h'.logs)
    && (forall t :: t in h.logs && t in h.leader && h.leader[t] != x ==> h'.logs[t] == h.logs[t])
    && OwnStands(h.acked, h'.acked, x)
    && (forall k :: k in h.acked ==> k in h'.acked && h.acked[k] <= h'.acked[k])
    && (forall p :: p in h.committed ==> p in h'.committed)
  }

  lemma KnownGrows(h: History, h': History, x: ServerID, log: seq<RaftLog>, term: int, len: int)
    requires Grows(h, h', x) && Known(h, log, term, len)
    ensures forall term' :: term' >= term ==> Known(h', log, term', len)
  {
    if len > 0 {
      var p :| p in h.committed && KnownBy(h, log, term, len, p);
      forall term' | term' >= term ensures Known(h', log, term', len) {
        assert p in h'.committed && KnownBy(h', log, term', len, p);
      }
    }
  }

  lemma HeldGrows(h: History, h': History, x: ServerID, log: seq<RaftLog>, t: int, m: int, bound: int, bound': int)
    requires Grows(h, h', x) && Held(h, log, t, m, bound) && m <= |h.logs[t]| && bound <= bound'
    ensures Held(h', log, t, m, bound')
  {
    if !Agree(log, h.logs[t], m) {
      var u :| u in h.elected && t < u <= bound && !Agree(h.elected[u], h.logs[t], m);
      assert u in h'.elected && !Agree(h'.elected[u], h'.logs[t], m);
    }
  }

  lemma KeepsGrows(h: History, h': History, x: ServerID, log: seq<RaftLog>, t: int, len: int, bound: int, bound': int)
    requires Grows(h, h', x) && KeepsAll(h, log, t, len, bound) && t in h.logs && len <= |h.logs[t]| && bound <= bound'
    ensures KeepsAll(h', log, t, len, bound')
  {
    forall m | 0 <= m <= len ensures Held(h', log, t, m, bound') {
      assert Held(h, log, t, m, bound);
      HeldGrows(h, h', x, log, t, m, bound, bound');
    }
  }

  /** Acknowledgements survive as long as this node made no new one. */
  lemma AckGrows(
      servers: set<ServerID>, h: History, h': History, x: ServerID,
      y: ServerID, term: int, term': int, log: seq<RaftLog>)
    requires Grows(h, h', x) && HistoryOk(servers, h) && AckOk(h, y, term, log) && term <= term'
    requires forall t :: Stand(t, y) in h'.acked ==>
               Stand(t, y) in h.acked && h'.acked[Stand(t, y)] == h.acked[Stand(t, y)]
    ensures AckOk(h', y, term', log)
  {
    forall t | Stand(t, y) in h'.acked
      ensures KeepsAll(h', log, t, h'.acked[Stand(t, y)], term')
    {
      assert AckedOk(h, Stand(t, y));
      KeepsGrows(h, h', x, log, t, h.acked[Stand(t, y)], term, term');
    }
  }

  lemma CandidateGrows(servers: set<ServerID>, h: History, h': History, x: ServerID, y: ServerID, n: Server)
    requires Grows(h, h', x) && x != y && CandidateOk(servers, h, y, n)
    ensures CandidateOk(servers, h', y, n)
  {
  }

  lemma LeaderGrows(h: History, h': History, x: ServerID, y: ServerID, n: Server)
    requires Grows(h, h', x) && x != y && LeaderOk(h, y, n)
    ensures LeaderOk(h', y, n)
  {
    if n.role == Leader {
      forall p | p in n.matchIndex && n.matchIndex[p] >= 0 ensures AckedAtLeast(h', n.term, p, n.matchIndex[p] + 1) {
        assert AckedAtLeast(h, n.term, p, n.matchIndex[p] + 1);
      }
    }
  }

  lemma VoteGrows(h: History, h': History, x: ServerID, y: ServerID, term: int, votedFor: Option<ServerID>)
    requires Grows(h, h', x) && x != y && VoteOk(h, y, term, votedFor)
    ensures VoteOk(h', y, term, votedFor)
  {
  }

  /** The three conjuncts that speak of a node's log. */
  ghost predicate BodyOk(h: History, x: ServerID, term: int, log: seq<RaftLog>, base: int, applied: int, commit: int) {
    && LogOk(h, term, log)
    && AckOk(h, x, term, log)
    && CommitOk(h, term, log, base, applied, commit)
  }

  /** They survive a step that adds no acknowledgement of the node, even into a newer term. */
  lemma BodyGrows(
      servers: set<ServerID>, h: History, h': History, x: ServerID, y: ServerID, term: int, term': int,
      log: seq<RaftLog>, base: int, applied: int, commit: int)
    requires Grows(h, h', x) && HistoryOk(servers, h) && term <= term'
    requires BodyOk(h, y, term, log, base, applied, commit)
    requires forall t :: Stand(t, y) in h'.acked ==>
               Stand(t, y) in h.acked && h'.acked[Stand(t, y)] == h.acked[Stand(t, y)]
    ensures BodyOk(h', y, term', log, base, applied, commit)
  {
    TracedExtends(log, h.logs, h'.logs);
    AckGrows(servers, h, h', x, y, term, term', log);
    KnownGrows(h, h', x, log, term, commit + 1);
  }

  lemma NodeOfParts(servers: set<ServerID>, h: History, x: ServerID, n: Server)
    requires BodyOk(h, x, n.term, n.log, n.base, n.applied, n.commit)
    requires VoteOk(h, x, n.term, n.votedFor) && CandidateOk(servers, h, x, n) && LeaderOk(h, x, n)
    requires n.matchIndex.Keys <= servers
    ensures NodeOk(servers, h, x, n)
  {
  }

  lemma OtherNode(servers: set<ServerID>, h: History, h': History, x: ServerID, y: ServerID, n: Server)
    requires Grows(h, h', x) && x != y && HistoryOk(servers, h) && NodeOk(servers, h, y, n)
    ensures NodeOk(servers, h', y, n)
  {
    BodyGrows(servers, h, h', x, y, n.term, n.term, n.log, n.base, n.applied, n.commit);
    VoteGrows(h, h', x, y, n.term, n.votedFor);
    CandidateGrows(servers, h, h', x, y, n);
    LeaderGrows(h, h', x, y, n);
  }

  /** Only x's node and x's records change: the other nodes keep their invariant. */
  lemma OtherNodes(
      servers: set<ServerID>, h: History, h': History, x: ServerID,
      nodes: map<ServerID, Server>, n': Server)
    requires Grows(h, h', x) && HistoryOk(servers, h) && NodesOk(servers, h, nodes)
    requires NodeOk(servers, h', x, n')
    ensures NodesOk(servers, h', nodes[x := n'])
  {
    var nodes' := nodes[x := n'];
    forall y | y in nodes' ensures NodeOk(servers, h', y, nodes'[y]) {
      if y != x {
        OtherNode(servers, h, h', x, y, nodes[y]);
      }
    }
  }

  lemma AppendReqGrows(h: History, h': History, x: ServerID, m: AppendReq)
    requires Grows(h, h', x) && AppendReqOk(h, m)
    ensures AppendReqOk(h', m)
  {
    var log, log' := h.logs[m.args.term], h'.logs[m.args.term];
    KnownGrows(h, h', x, log, m.args.term, m.args.leaderCommit + 1);
    KnownExtends(h', log, log', m.args.term, m.args.leaderCommit + 1);
  }

  lemma KnownExtends(h: History, log: seq<RaftLog>, log': seq<RaftLog>, term: int, len: int)
    requires Known(h, log, term, len) && Agree(log, log', len)
    ensures Known(h, log', term, len)
  {
    if len > 0 {
      var p :| p in h.committed && KnownBy(h, log, term, len, p);
      assert KnownBy(h, log', term, len, p);
    }
  }

  lemma InstallReqGrows(h: History, h': History, x: ServerID, m: InstallReq)
    requires Grows(h, h', x) && InstallReqOk(h, m)
    ensures InstallReqOk(h', m)
  {
    KnownGrows(h, h', x, m.prefix, m.args.term, |m.prefix|);
  }

  lemma MessagesGrow(servers: set<ServerID>, h: History, h': History, x: ServerID, net: Net)
    requires Grows(h, h', x) && MessagesOk(servers, h, net)
    ensures MessagesOk(servers, h', net)
  {
    forall m | m in net.appends ensures AppendReqOk(h', m) {
      AppendReqGrows(h, h', x, m);
    }
    forall m | m in net.installs ensures InstallReqOk(h', m) {
      InstallReqGrows(h, h', x, m);
    }
  }

  // ---- the history invariant itself ----

  lemma PointGrows(servers: set<ServerID>, h: History, h': History, x: ServerID, p: Point)
    requires Grows(h, h', x) && PointOk(servers, h, p)
    requires p in h'.committed && h'.committed[p] == h.committed[p]
    ensures PointOk(servers, h', p)
  {
    forall v | v in h'.committed[p] ensures AckedAtLeast(h', p.term, v, p.len) {
      assert AckedAtLeast(h, p.term, v, p.len);
    }
  }

  lemma ShownGrows(h: History, h': History, x: ServerID, key: Stand, v: Stand)
    requires Grows(h, h', x) && AckedOk(h, key) && ShownOk(h, key, v)
    requires key in h'.acked && h'.acked[key] == h.acked[key] && v in h.voterLogs
    ensures ShownOk(h', key, v)
  {
    if v.server == key.server && v.term > key.term {
      KeepsGrows(h, h', x, h.voterLogs[v], key.term, h.acked[key], v.term - 1, v.term - 1);
    }
  }

  lemma TermGrows(servers: set<ServerID>, h: History, h': History, x: ServerID, t: int)
    requires Grows(h, h', x) && t in h.logs && TermLogOk(h, t) && TermVoteOk(servers, h, t)
    ensures TermVoteOk(servers, h', t)
    ensures h'.logs[t] == h.logs[t] ==> TermLogOk(h', t)
  {
    TracedExtends(h.logs[t], h.logs, h'.logs);
  }

  lemma VoterLogGrows(h: History, h': History, x: ServerID, k: Stand)
    requires Grows(h, h', x) && VoterLogOk(h, k)
    ensures VoterLogOk(h', k)
  {
    TracedExtends(h.voterLogs[k], h.logs, h'.logs);
  }

  ghost predicate Fresh<K, V>(m: map<K, V>, m': map<K, V>, k: K) {
    k in m' && (k !in m || m'[k] != m[k])
  }

  /** Only what is new in the history has to be justified. */
  ghost predicate NewsOk(servers: set<ServerID>, h: History, h': History) {
    && h'.logs.Keys == h'.elected.Keys == h'.quorum.Keys == h'.leader.Keys
    && (forall t :: Fresh(h.logs, h'.logs, t) ==> TermLogOk(h', t))
    && (forall t :: t in h'.logs && t !in h.logs ==> TermVoteOk(servers, h', t))
    && (forall k :: Fresh(h.voterLogs, h'.voterLogs, k) ==> VoterLogOk(h', k))
    && (forall k :: Fresh(h.votes, h'.votes, k) ==> 0 < k.term && (k.term in h'.logs || k in h'.voterLogs))
    && (forall k :: Fresh(h.bids, h'.bids, k) ==> 0 < k.term)
    && (forall k :: Fresh(h.acked, h'.acked, k) ==> AckedOk(h', k))
    && (forall k, v :: k in h'.acked && v in h'.voterLogs && (Fresh(h.acked, h'.acked, k) || v !in h.voterLogs) ==>
          ShownOk(h', k, v))
    && (forall p :: Fresh(h.committed, h'.committed, p) ==> PointOk(servers, h', p))
  }

  lemma TermsGrow(servers: set<ServerID>, h: History, h': History, x: ServerID)
    requires HistoryOk(servers, h) && Grows(h, h', x) && NewsOk(servers, h, h')
    ensures forall t :: t in h'.logs ==> TermLogOk(h', t) && TermVoteOk(servers, h', t)
  {
    forall t | t in h'.logs ensures TermLogOk(h', t) && TermVoteOk(servers, h', t) {
      if t in h.logs {
        var q := h.quorum[t];
        TermGrows(servers, h, h', x, t);
        assert Fresh(h.logs, h'.logs, t) || h'.logs[t] == h.logs[t];
      }
    }
  }

  lemma ShownAllGrow(servers: set<ServerID>, h: History, h': History, x: ServerID)
    requires HistoryOk(servers, h) && Grows(h, h', x) && NewsOk(servers, h, h')
    ensures forall k :: k in h'.acked ==> AckedOk(h', k)
    ensures forall k, v :: k in h'.acked && v in h'.voterLogs ==> ShownOk(h', k, v)
  {
    forall k | k in h'.acked ensures AckedOk(h', k) {
      assert Fresh(h.acked, h'.acked, k) || AckedOk(h, k);
    }
    forall k, v | k in h'.acked && v in h'.voterLogs ensures ShownOk(h', k, v) {
      if !Fresh(h.acked, h'.acked, k) && v in h.voterLogs {
        assert AckedOk(h, k);
        ShownGrows(h, h', x, k, v);
      }
    }
  }

  lemma VotesGrow(servers: set<ServerID>, h: History, h': History, x: ServerID)
    requires HistoryOk(servers, h) && Grows(h, h', x) && NewsOk(servers, h, h')
    ensures forall k :: k in h'.voterLogs ==> VoterLogOk(h', k)
    ensures forall k :: k in h'.votes ==> 0 < k.term && (k.term in h'.logs || k in h'.voterLogs)
    ensures forall k :: k in h'.bids ==> 0 < k.term
  {
    forall k | k in h'.voterLogs ensures VoterLogOk(h', k) {
      if !Fresh(h.voterLogs, h'.voterLogs, k) {
        VoterLogGrows(h, h', x, k);
      }
    }
    forall k | k in h'.votes ensures 0 < k.term && (k.term in h'.logs || k in h'.voterLogs) {
      assert Fresh(h.votes, h'.votes, k) || k in h.votes;
    }
    forall k | k in h'.bids ensures 0 < k.term {
      assert Fresh(h.bids, h'.bids, k) || k in h.bids;
    }
  }

  lemma PointsGrow(servers: set<ServerID>, h: History, h': History, x: ServerID)
    requires HistoryOk(servers, h) && Grows(h, h', x) && NewsOk(servers, h, h')
    ensures forall p :: p in h'.committed ==> PointOk(servers, h', p)
  {
    forall p | p in h'.committed ensures PointOk(servers, h', p) {
      if !Fresh(h.committed, h'.committed, p) {
        PointGrows(servers, h, h', x, p);
      }
    }
  }

  lemma HistoryGrows(servers: set<ServerID>, h: History, h': History, x: ServerID)
    requires HistoryOk(servers, h) && Grows(h, h', x) && NewsOk(servers, h, h')
    ensures HistoryOk(servers, h')
  {
    TermsGrow(servers, h, h', x);
    ShownAllGrow(servers, h, h', x);
    VotesGrow(servers, h, h', x);
    PointsGrow(servers, h, h', x);
  }
}
