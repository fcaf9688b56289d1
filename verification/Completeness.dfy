/** Leader completeness, drawn from the invariant alone: whatever a term's leader committed was in
    the log of every later leader when it took office. */
module Completeness {
  import opened Types
  import opened Agreement
  import opened Cluster
  import opened Invariant

  /** Two majorities share a member. */
  lemma MajoritiesMeet(a: set<ServerID>, b: set<ServerID>, servers: set<ServerID>) returns (v: ServerID)
    requires IsMajority(a, servers) && IsMajority(b, servers)
    ensures v in a && v in b
  {
    if a * b == {} {
      assert |a + b| == |a| + |b|;
      SubsetSize(a + b, servers);
      assert false;
    }
    v :| v in a * b;
  }

  lemma {:induction false} SubsetSize<T>(a: set<T>, b: set<T>)
    requires a <= b
    ensures |a| <= |b|
  {
    if a != {} {
      var x :| x in a;
      SubsetSize(a - {x}, b - {x});
    }
  }

  /** Terms never decrease along a log. */
  lemma LastTermAtLeast(h: History, log: seq<RaftLog>, i: int)
    requires (forall t :: t in h.logs ==> TermLogOk(h, t)) && Traced(log, h.logs)
    requires 0 <= i < |log|
    ensures log[i].term <= LastTerm(log)
  {
    var last := |log| - 1;
    var u := log[last].term;
    assert TracedAt(log, h.logs, last);
    assert TermLogOk(h, u);
    assert log[i] == h.logs[u][i];
  }

  /** A candidate at least as up-to-date as a voter that holds a committed prefix holds it too,
      once every leader between the two terms does. */
  lemma UpToDateHolds(h: History, t: int, m: int, log: seq<RaftLog>, cand: seq<RaftLog>)
    requires forall u :: u in h.logs ==> TermLogOk(h, u)
    requires t in h.logs && 0 < m <= |h.logs[t]| && h.logs[t][m - 1].term == t
    requires Traced(log, h.logs) && Traced(cand, h.logs)
    requires Agree(log, h.logs[t], m) && UpToDate(PositionOf(cand), log)
    requires forall u :: u in h.elected && t < u <= LastTerm(cand) ==> Agree(h.elected[u], h.logs[t], m)
    ensures Agree(cand, h.logs[t], m)
  {
    LastTermAtLeast(h, log, m - 1);
    var u := LastTerm(cand);
    assert cand != [];
    assert TracedAt(cand, h.logs, |cand| - 1) && TermLogOk(h, u);
    if u == LastTerm(log) {
      assert TracedAt(log, h.logs, |log| - 1);
    } else {
      assert Agree(h.elected[u], h.logs[t], m);
      assert cand[|cand| - 1] == h.logs[u][|cand| - 1];
      assert |cand| > |h.elected[u]|;
    }
  }

  lemma {:induction false} LeaderCompleteness(servers: set<ServerID>, h: History, p: Point, t: int)
    requires HistoryOk(servers, h)
    requires p in h.committed && t in h.logs && p.term < t
    ensures p.term in h.logs && Agree(h.elected[t], h.logs[p.term], p.len)
    decreases t - p.term
  {
    var electors := h.quorum[t];
    assert PointOk(servers, h, p) && TermVoteOk(servers, h, t) && TermLogOk(h, t);
    var v := MajoritiesMeet(h.committed[p], electors, servers);
    var vote, key := Stand(t, v), Stand(p.term, v);
    assert AckedAtLeast(h, p.term, v, p.len);
    assert VoterLogOk(h, vote) && VotedFor(h, vote, h.leader[t]);
    assert ShownOk(h, key, vote);
    assert Held(h, h.voterLogs[vote], p.term, p.len, t - 1);
    forall u | u in h.elected && p.term < u < t ensures Agree(h.elected[u], h.logs[p.term], p.len) {
      LeaderCompleteness(servers, h, p, u);
    }
    TracedPrefix(h.logs[t], h.elected[t], h.logs);
    assert LastTerm(h.elected[t]) < t;
    UpToDateHolds(h, p.term, p.len, h.voterLogs[vote], h.elected[t]);
  }
}
