/** Why guard G11 is there: a run of five servers, one of whose victories found no room for its no-op,
    after which the commit scan of a deposed leader commits an entry that only it and the new leader
    hold. */
module DeposedRun {
  import opened Types
  import opened Agreement
  import opened Cluster

  // ---- stretches of a run ----

  function Asked(n: Server, x: ServerID): Server {
    n.(term := n.term + 1, role := Candidate, votedFor := Some(x), votes := 1, voters := {x})
  }

  function Backing(n: Server, term: int, x: ServerID): Server {
    n.(term := term, role := Follower, votedFor := Some(x))
  }

  lemma ExecuteSnoc(s: State, events: seq<Event>, e: Event)
    ensures Execute(s, events + [e]) == Step(Execute(s, events), e)
    decreases |events|
  {
    if events == [] {
      assert [] + [e] == [e] && [e][1..] == [];
      assert Execute(s, [e]) == Execute(Step(s, e), []);
    } else {
      assert (events + [e])[1..] == events[1..] + [e];
      ExecuteSnoc(Step(s, events[0]), events[1..], e);
    }
  }

  /** A run that has come this far. */
  ghost predicate Came(start: State, events: seq<Event>, s: State) {
    Execute(start, events) == s
  }

  lemma Go(start: State, events: seq<Event>, s: State, e: Event, s': State)
    requires Came(start, events, s) && Step(s, e) == s'
    ensures Came(start, events + [e], s')
  {
    ExecuteSnoc(start, events, e);
  }

  lemma AskFor(s: State, x: ServerID) returns (s': State)
    requires CanTimeout(s, x)
    ensures Step(s, Timeout(x)) == s' && s'.servers == s.servers && s'.nodes == s.nodes[x := Asked(s.nodes[x], x)]
    ensures VoteRequests(x, Asked(s.nodes[x], x), s.servers) <= s'.net.voteReqs && s'.net.appends == s.net.appends
  {
    s' := DoTimeout(s, x);
  }

  function Ballot(n: Server, x: ServerID, v: ServerID): VoteReq {
    VoteReq(v, RequestVoteArgs(n.term, x, LastIndex(n.log), LastTerm(n.log)))
  }

  function Support(term: int, x: ServerID, v: ServerID): VoteRep {
    VoteRep(x, RequestVoteResponse(v, term, true))
  }

  lemma Vote(s: State, x: ServerID, c: Server, v: ServerID) returns (s': State)
    requires Ballot(c, x, v) in s.net.voteReqs && v in s.nodes && s.nodes[v].term < c.term
    requires UpToDate(PositionOf(c.log), s.nodes[v].log)
    ensures Step(s, DeliverVoteReq(Ballot(c, x, v))) == s' && s'.servers == s.servers
    ensures s'.nodes == s.nodes[v := Backing(s.nodes[v], c.term, x)]
    ensures s'.net.voteReqs == s.net.voteReqs - {Ballot(c, x, v)} && s'.net.appends == s.net.appends
    ensures s'.net.voteReps == s.net.voteReps + {Support(c.term, x, v)}
  {
    s' := DoVoteReq(s, Ballot(c, x, v));
  }

  lemma Count(s: State, x: ServerID, v: ServerID, room: bool) returns (s': State)
    requires x in s.nodes && s.nodes[x].role == Candidate && Support(s.nodes[x].term, x, v) in s.net.voteReps
    ensures Step(s, DeliverVoteRep(Support(s.nodes[x].term, x, v), room)) == s' && s'.servers == s.servers
    ensures s'.net == s.net.(voteReps := s.net.voteReps - {Support(s.nodes[x].term, x, v)})
    ensures var n := s.nodes[x].(votes := s.nodes[x].votes + 1, voters := s.nodes[x].voters + {v});
            s'.nodes == s.nodes[x := if n.votes > |s.servers| / 2 then Crown(x, n, room) else n]
  {
    s' := DoVoteRep(s, Support(s.nodes[x].term, x, v), room);
  }

  /** The winner of an election with two votes besides its own. */
  function Winner(n: Server, x: ServerID, v: ServerID, w: ServerID, room: bool): Server {
    Crown(x, Asked(n, x).(votes := 3, voters := {x, v, w}), room)
  }

  predicate Supports(n: Server, cand: Server) {
    n.term <= cand.term && UpToDate(PositionOf(cand.log), n.log)
  }

  lemma Campaign(start: State, events: seq<Event>, s: State, x: ServerID, v: ServerID, w: ServerID)
      returns (events': seq<Event>, s': State)
    requires Came(start, events, s) && {x, v, w} <= s.servers && {x, v, w} <= s.nodes.Keys
    requires x != v && x != w && v != w && CanTimeout(s, x)
    requires Supports(s.nodes[v], s.nodes[x]) && Supports(s.nodes[w], s.nodes[x])
    ensures Came(start, events', s') && s'.servers == s.servers && s'.net.appends == s.net.appends
    ensures var t := s.nodes[x].term + 1;
            && s'.nodes == s.nodes[x := Asked(s.nodes[x], x)][v := Backing(s.nodes[v], t, x)][w := Backing(s.nodes[w], t, x)]
            && Support(t, x, v) in s'.net.voteReps && Support(t, x, w) in s'.net.voteReps
  {
    var c := Asked(s.nodes[x], x);
    var s1 := AskFor(s, x);
    Go(start, events, s, Timeout(x), s1);
    var e1 := events + [Timeout(x)];
    assert Ballot(c, x, v) in VoteRequests(x, c, s.servers) && Ballot(c, x, w) in VoteRequests(x, c, s.servers);
    var s2 := Vote(s1, x, c, v);
    Go(start, e1, s1, DeliverVoteReq(Ballot(c, x, v)), s2);
    var e2 := e1 + [DeliverVoteReq(Ballot(c, x, v))];
    s' := Vote(s2, x, c, w);
    Go(start, e2, s2, DeliverVoteReq(Ballot(c, x, w)), s');
    events' := e2 + [DeliverVoteReq(Ballot(c, x, w))];
  }

  lemma Elect(start: State, events: seq<Event>, s: State, x: ServerID, v: ServerID, w: ServerID, room: bool)
      returns (events': seq<Event>, s': State)
    requires Came(start, events, s) && |s.servers| == 5 && {x, v, w} <= s.servers && {x, v, w} <= s.nodes.Keys
    requires x != v && x != w && v != w && CanTimeout(s, x)
    requires Supports(s.nodes[v], s.nodes[x]) && Supports(s.nodes[w], s.nodes[x])
    ensures Came(start, events', s') && s'.servers == s.servers && s'.net.appends == s.net.appends
    ensures var t := s.nodes[x].term + 1;
            s'.nodes == s.nodes[x := Winner(s.nodes[x], x, v, w, room)][v := Backing(s.nodes[v], t, x)][w := Backing(s.nodes[w], t, x)]
  {
    var t := s.nodes[x].term + 1;
    var e3, s3 := Campaign(start, events, s, x, v, w);
    var s4 := Count(s3, x, v, room);
    Go(start, e3, s3, DeliverVoteRep(Support(t, x, v), room), s4);
    var e4 := e3 + [DeliverVoteRep(Support(t, x, v), room)];
    s' := Count(s4, x, w, room);
    Go(start, e4, s4, DeliverVoteRep(Support(t, x, w), room), s');
    events' := e4 + [DeliverVoteRep(Support(t, x, w), room)];
    assert {x} + {v} + {w} == {x, v, w};
  }

  /** A leader sends its whole log to an empty follower and hears back. */
  function Whole(x: ServerID, n: Server, to: ServerID): AppendReq {
    AppendReq(x, to, AppendEntriesArgs(n.term, Some(x), -1, -1, n.log, n.commit))
  }

  function Accepted(m: AppendReq): AppendRep {
    AppendRep(m.from, AppendEntriesResponse(m.to, m.args.term, true, -1), Covers(m.args))
  }

  function Filled(n: Server, m: AppendReq): Server {
    Adopt(n, m.args.term).(role := Follower, log := m.args.entries)
  }

  predicate Empty(n: Server) {
    n.log == [] && n.base == 0 && n.commit == -1
  }

  lemma Send(s: State, x: ServerID, to: ServerID) returns (s': State)
    requires x in s.nodes && s.nodes[x].role == Leader
    ensures var m := Whole(x, s.nodes[x], to);
            Step(s, SendAppend(x, m)) == s' && m in s'.net.appends && s'.nodes == s.nodes && s'.servers == s.servers
  {
    s' := DoSendAppend(s, Whole(x, s.nodes[x], to));
  }

  lemma Fill(s: State, m: AppendReq) returns (s': State)
    requires m in s.net.appends && m.to in s.nodes && Empty(s.nodes[m.to]) && s.nodes[m.to].term <= m.args.term
    requires m.args.prevLogIndex == -1 && m.args.leaderCommit == -1
    ensures Step(s, DeliverAppend(m, Accepted(m), false)) == s' && s'.servers == s.servers
    ensures s'.nodes == s.nodes[m.to := Filled(s.nodes[m.to], m)] && Accepted(m) in s'.net.appendReps
  {
    s' := DoAppend(s, m, Accepted(m), false);
    assert [][..0] + m.args.entries == m.args.entries;
  }

  lemma Hear(s: State, m: AppendReq) returns (s': State)
    requires Accepted(m) in s.net.appendReps && m.from in s.nodes && s.nodes[m.from].role == Leader
    requires s.nodes[m.from].term == m.args.term
    ensures Step(s, DeliverAppendRep(Accepted(m))) == s' && s'.servers == s.servers
    ensures s'.nodes == s.nodes[m.from := s.nodes[m.from].(matchIndex := s.nodes[m.from].matchIndex[m.to := Covers(m.args)])]
  {
    s' := DoAppendRep(s, Accepted(m));
  }

  lemma Copy(start: State, events: seq<Event>, s: State, x: ServerID, v: ServerID)
      returns (events': seq<Event>, s': State)
    requires Came(start, events, s) && x in s.nodes && v in s.nodes && x != v && s.nodes[x].role == Leader
    requires s.nodes[x].commit == -1 && Empty(s.nodes[v]) && s.nodes[v].term <= s.nodes[x].term
    ensures Came(start, events', s') && s'.servers == s.servers
    ensures var n, m := s.nodes[x], Whole(x, s.nodes[x], v);
            s'.nodes == s.nodes[v := Filled(s.nodes[v], m)][x := n.(matchIndex := n.matchIndex[v := |n.log| - 1])]
  {
    var m := Whole(x, s.nodes[x], v);
    var s1 := Send(s, x, v);
    Go(start, events, s, SendAppend(x, m), s1);
    var s2 := Fill(s1, m);
    Go(start, events + [SendAppend(x, m)], s1, DeliverAppend(m, Accepted(m), false), s2);
    s' := Hear(s2, m);
    Go(start, events + [SendAppend(x, m)] + [DeliverAppend(m, Accepted(m), false)], s2, DeliverAppendRep(Accepted(m)), s');
    events' := events + [SendAppend(x, m)] + [DeliverAppend(m, Accepted(m), false)] + [DeliverAppendRep(Accepted(m))];
  }

  lemma Add(start: State, events: seq<Event>, s: State, x: ServerID, e: RaftLog)
      returns (events': seq<Event>, s': State)
    requires Came(start, events, s) && CanClientAppend(s, x, e)
    ensures Came(start, events', s') && s'.servers == s.servers
    ensures var n := s.nodes[x];
            s'.nodes == s.nodes[x := n.(log := n.log + [e], matchIndex := n.matchIndex[x := e.index])]
  {
    s' := DoClientAppend(s, x, e);
    Go(start, events, s, ClientAppend(x, e), s');
    events' := events + [ClientAppend(x, e)];
  }

  lemma Raise(start: State, events: seq<Event>, s: State, x: ServerID, term: int)
      returns (events': seq<Event>, s': State)
    requires Came(start, events, s) && CanLearn(s, x, term)
    ensures Came(start, events', s') && s'.servers == s.servers
    ensures s'.nodes == s.nodes[x := s.nodes[x].(term := term, votedFor := None, role := Follower)]
  {
    s' := DoLearn(s, x, term);
    Go(start, events, s, Learn(x, term), s');
    events' := events + [Learn(x, term)];
  }

  // ---- five servers ----

  datatype Five = Five(a: ServerID, b: ServerID, c: ServerID, d: ServerID, e: ServerID)

  function Members(f: Five): set<ServerID> {
    {f.a, f.b, f.c, f.d, f.e}
  }

  predicate Distinct(f: Five) {
    && f.a != f.b && f.a != f.c && f.a != f.d && f.a != f.e && f.b != f.c && f.b != f.d && f.b != f.e
    && f.c != f.d && f.c != f.e && f.d != f.e
  }

  lemma FiveOf(f: Five)
    requires Distinct(f)
    ensures |Members(f)| == 5
  {
    assert Members(f) == {f.a} + {f.b} + {f.c} + {f.d} + {f.e};
  }

  function Entry(index: int, term: int): RaftLog {
    RaftLog(index, term, LogNoop, [], NO_CHANGE, [], 0)
  }

  /** Entries of a's first tenure, which it will not commit. */
  const MINE: seq<RaftLog> := [Entry(0, 1), Entry(1, 1), Entry(2, 1)]
  /** Entries of e's two tenures. */
  const THEIRS: seq<RaftLog> := [Entry(0, 2), Entry(1, 4)]

  /** A server that has compacted and committed nothing. */
  predicate Is(n: Server, term: int, role: Role, log: seq<RaftLog>) {
    n.term == term && n.role == role && n.log == log && n.base == 0 && n.commit == -1 && n.applied == -1
  }

  predicate At(s: State, f: Five) {
    s.servers == Members(f) == s.nodes.Keys
  }

  /** a wins term 1, with b and c, and stores three entries. */
  lemma FirstTenure(f: Five) returns (events: seq<Event>, s: State)
    requires Distinct(f)
    ensures Came(Start(Members(f)), events, s) && At(s, f)
    ensures Is(s.nodes[f.a], 1, Leader, MINE) && s.nodes[f.a].matchIndex.Keys == Members(f)
    ensures Is(s.nodes[f.b], 1, Follower, []) && Is(s.nodes[f.c], 1, Follower, [])
    ensures Is(s.nodes[f.d], 0, Follower, []) && Is(s.nodes[f.e], 0, Follower, [])
  {
    var start := Start(Members(f));
    FiveOf(f);
    assert Came(start, [], start);
    var e1, s1 := Elect(start, [], start, f.a, f.b, f.c, true);
    var e2, s2 := Add(start, e1, s1, f.a, Entry(1, 1));
    events, s := Add(start, e2, s2, f.a, Entry(2, 1));
  }

  /** e wins term 2, with c and d. */
  lemma SecondTenure(f: Five, events: seq<Event>, s: State) returns (events': seq<Event>, s': State)
    requires Distinct(f) && Came(Start(Members(f)), events, s) && At(s, f)
    requires Is(s.nodes[f.c], 1, Follower, []) && Is(s.nodes[f.d], 0, Follower, []) && Is(s.nodes[f.e], 0, Follower, [])
    ensures Came(Start(Members(f)), events', s') && At(s', f)
    ensures Is(s'.nodes[f.e], 2, Leader, [Entry(0, 2)])
    ensures Is(s'.nodes[f.c], 2, Follower, []) && Is(s'.nodes[f.d], 2, Follower, [])
    ensures s'.nodes[f.a] == s.nodes[f.a] && s'.nodes[f.b] == s.nodes[f.b]
  {
    FiveOf(f);
    var e1, s1 := Raise(Start(Members(f)), events, s, f.e, 1);
    events', s' := Elect(Start(Members(f)), e1, s1, f.e, f.c, f.d, true);
  }

  /** a wins term 3, with b and c, but finds no room for its no-op. */
  lemma ThirdTenure(f: Five, events: seq<Event>, s: State) returns (events': seq<Event>, s': State)
    requires Distinct(f) && Came(Start(Members(f)), events, s) && At(s, f)
    requires Is(s.nodes[f.a], 1, Leader, MINE) && s.nodes[f.a].matchIndex.Keys == Members(f)
    requires Is(s.nodes[f.b], 1, Follower, []) && Is(s.nodes[f.c], 2, Follower, [])
    ensures Came(Start(Members(f)), events', s') && At(s', f)
    ensures s'.nodes[f.a] == Server(3, Some(f.a), Leader, MINE, 0, -1, -1, 0, {f.a, f.b, f.c}, map p | p in Members(f) :: -1)
    ensures Is(s'.nodes[f.b], 3, Follower, []) && Is(s'.nodes[f.c], 3, Follower, [])
    ensures s'.nodes[f.d] == s.nodes[f.d] && s'.nodes[f.e] == s.nodes[f.e]
  {
    FiveOf(f);
    var e1, s1 := Raise(Start(Members(f)), events, s, f.a, 2);
    events', s' := Elect(Start(Members(f)), e1, s1, f.a, f.b, f.c, false);
  }

  /** b and c take over all it has, and then it stores one entry of its own. */
  lemma Acknowledged(f: Five, events: seq<Event>, s: State) returns (events': seq<Event>, s': State)
    requires Distinct(f) && Came(Start(Members(f)), events, s) && At(s, f)
    requires s.nodes[f.a] == Server(3, Some(f.a), Leader, MINE, 0, -1, -1, 0, {f.a, f.b, f.c}, map p | p in Members(f) :: -1)
    requires Is(s.nodes[f.b], 3, Follower, []) && Is(s.nodes[f.c], 3, Follower, [])
    ensures Came(Start(Members(f)), events', s') && At(s', f)
    ensures s'.nodes[f.a] == Deposable(f)
    ensures Is(s'.nodes[f.b], 3, Follower, MINE) && Is(s'.nodes[f.c], 3, Follower, MINE)
    ensures s'.nodes[f.d] == s.nodes[f.d] && s'.nodes[f.e] == s.nodes[f.e]
  {
    var start := Start(Members(f));
    var e1, s1 := Copy(start, events, s, f.a, f.b);
    var e2, s2 := Copy(start, e1, s1, f.a, f.c);
    events', s' := Add(start, e2, s2, f.a, Entry(3, 3));
    assert s'.nodes[f.a].matchIndex == Deposable(f).matchIndex;
  }

  /** The leader the example is about: what two peers acknowledged is all of an earlier term, and the
      one entry of its own term is past that. */
  function Deposable(f: Five): Server {
    Server(3, Some(f.a), Leader, MINE + [Entry(3, 3)], 0, -1, -1, 0, {f.a, f.b, f.c},
           map[f.a := 3, f.b := 2, f.c := 2, f.d := -1, f.e := -1])
  }

  /** e wins term 4, with c and d, and sends its log to a. */
  lemma FourthTenure(f: Five, events: seq<Event>, s: State) returns (events': seq<Event>, s': State)
    requires Distinct(f) && Came(Start(Members(f)), events, s) && At(s, f)
    requires Is(s.nodes[f.e], 2, Leader, [Entry(0, 2)])
    requires Is(s.nodes[f.c], 3, Follower, MINE) && Is(s.nodes[f.d], 2, Follower, [])
    ensures Came(Start(Members(f)), events', s') && At(s', f) && Overtaking(f) in s'.net.appends
    ensures Is(s'.nodes[f.c], 4, Follower, MINE) && Is(s'.nodes[f.d], 4, Follower, [])
    ensures s'.nodes[f.a] == s.nodes[f.a] && s'.nodes[f.b] == s.nodes[f.b]
  {
    var start := Start(Members(f));
    FiveOf(f);
    var e1, s1 := Raise(start, events, s, f.e, 3);
    var e2, s2 := Elect(start, e1, s1, f.e, f.c, f.d, true);
    assert s2.nodes[f.e].log == THEIRS;
    s' := Send(s2, f.e, f.a);
    Go(start, e2, s2, SendAppend(f.e, Whole(f.e, s2.nodes[f.e], f.a)), s');
    events' := e2 + [SendAppend(f.e, Whole(f.e, s2.nodes[f.e], f.a))];
  }

  function Overtaking(f: Five): AppendReq {
    AppendReq(f.e, f.a, AppendEntriesArgs(4, Some(f.e), -1, -1, THEIRS, -1))
  }

  /** A run to where the leader is about to be deposed, while three of the five servers hold no entry
      of e, and can still elect a leader without it. */
  lemma ReachesDeposition(f: Five) returns (events: seq<Event>, s: State)
    requires Distinct(f)
    ensures s == Execute(Start(Members(f)), events) && At(s, f)
    ensures s.nodes[f.a] == Deposable(f) && Overtaking(f) in s.net.appends
    ensures s.nodes[f.b].log == s.nodes[f.c].log == MINE && s.nodes[f.d].log == []
  {
    var e1, s1 := FirstTenure(f);
    var e2, s2 := SecondTenure(f, e1, s1);
    var e3, s3 := ThirdTenure(f, e2, s2);
    var e4, s4 := Acknowledged(f, e3, s3);
    events, s := FourthTenure(f, e4, s4);
  }
}
