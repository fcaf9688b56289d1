/** A node with its application and its storage: saving, applying, the handlers with the save that
    follows each, and recovery. The peer-to-peer side is in `ArrayCluster`; here the same steps are
    taken in place. */
module RaftNode {
  import opened Types
  import opened Replica
  import opened Application
  import opened Refinement
  import opened HandlerRefinement
  import AC = ArrayCluster
  import NS = NodeState

  /** What becomes of a submitted command. */
  datatype Submission = NotLeader(leader: Option<ServerID>) | AlreadyApplied | NoRoom | Stored(index: int)

  /** An entry that a client's book takes note of. */
  predicate Counts(e: RaftLog, client: Bytes) {
    e.kind == LogCommand && e.clientID == client && client != [] && e.seqNum > 0
  }

  /** The last entry of a client among those applied. */
  predicate LastOf(given: seq<RaftLog>, client: Bytes, i: int) {
    0 <= i < |given| && Counts(given[i], client) && forall j :: i < j < |given| ==> !Counts(given[j], client)
  }

  /** After applying some entries a client's book holds the sequence number of the last of them that
      is a command of that client's, or what it held before. */
  ghost predicate BookKept(before: map<Bytes, int>, given: seq<RaftLog>, after: map<Bytes, int>, client: Bytes) {
    && (forall i :: LastOf(given, client, i) ==> client in after && after[client] == given[i].seqNum)
    && ((forall i :: 0 <= i < |given| ==> !Counts(given[i], client)) ==>
          && (client in after <==> client in before)
          && (client in after ==> after[client] == before[client]))
  }

  ghost predicate BooksKept(before: map<Bytes, int>, given: seq<RaftLog>, after: map<Bytes, int>) {
    forall client :: BookKept(before, given, after, client)
  }

  /** A leader that applies a membership change opens the way for the next one. */
  function Unlocked(n: Node, entries: seq<RaftLog>): Membership {
    if n.role == Leader && exists e :: e in entries && e.kind == LogConfiguration
    then UnlockNextConfiguration(n.config) else n.config
  }

  class RaftNode<S> {
    const id: ServerID
    const peers: set<ServerID>
    const app: App<S>
    const state: NS.NodeState

    var sm: S
    var disk: AC.Disk
    var lastPersistedSnapIdx: int
    var clientLastSeq: map<Bytes, int>

    ghost predicate Valid()
      reads this, state
    {
      state.Valid()
    }

    /** The node as a peer of the cluster, less what only the proof keeps. */
    ghost function View(): AC.Peer<S>
      requires Valid()
      reads this, state, state.logs, state.logHashes
    {
      AC.Peer(state.State(), sm, disk, lastPersistedSnapIdx, [], {})
    }

    constructor (digest: Digest, app: App<S>, id: ServerID, peers: set<ServerID>, disk: AC.Disk)
      ensures Valid() && fresh(state) && fresh(state.logs) && fresh(state.logHashes)
      ensures this.id == id && this.peers == peers && this.app == app && this.disk == disk && state.digest == digest
      ensures View() == AC.Peer(NewNode(id, peers), app.init, disk, 0, [], {}) && clientLastSeq == map[]
      ensures forall i :: 0 <= i < CAPACITY ==> state.logHashes[i] == BLANK
    {
      this.id, this.peers, this.app := id, peers, app;
      state := new NS.NodeState(digest, id, peers);
      sm := app.init;
      this.disk := disk;
      lastPersistedSnapIdx := 0;
      clientLastSeq := map[];
    }

    /** Loads what storage holds; the application is restored from the snapshot, if there is one. */
    method Start()
      requires Valid() && state.State() == NewNode(id, peers) && sm == app.init
      requires forall i :: 0 <= i < CAPACITY ==> state.logHashes[i] == BLANK
      modifies this`sm, state, state.logs
      ensures Valid()
      ensures View() == old(View()).(
                node := Recover(id, peers, disk.state, disk.snap),
                sm := if disk.snap.Some? then app.load(disk.snap.value.data) else app.init)
    {
      state.Restore(id, peers, disk.state, disk.snap);
      if disk.snap.Some? {
        sm := app.load(disk.snap.value.data);
      }
    }

    method PersistState()
      requires Valid()
      modifies this`disk, this`lastPersistedSnapIdx
      ensures Valid() && View() == AC.Save(old(View()))
    {
      var ps := state.GetPersistentState();
      disk := AC.Disk(ps, disk.snap);
      var snap := state.lastSnapshot;
      if snap.Some? && snap.value.lastIncludedIndex > lastPersistedSnapIdx {
        disk := AC.Disk(ps, snap);
        lastPersistedSnapIdx := snap.value.lastIncludedIndex;
      }
    }

    // ---- applying ----

    /** Commands go to the application and into the clients' books; a leader's membership change
        lets the next one start. */
    method ApplyLog(entry: RaftLog)
      requires Valid()
      modifies this`sm, this`clientLastSeq, state`inConfigChange
      ensures Valid() && state.State() == old(state.State()).(config := Unlocked(old(state.State()), [entry]))
      ensures state.inConfigChange == (old(state.inConfigChange) && !(state.role == Leader && entry.kind == LogConfiguration))
      ensures sm == if entry.kind == LogCommand then app.apply(old(sm), entry.data) else old(sm)
      ensures sm == ApplyEntry(app, old(sm), entry)
      ensures BooksKept(old(clientLastSeq), [entry], clientLastSeq)
    {
      BooksOne(clientLastSeq, entry);
      if entry.kind == LogCommand {
        sm := app.apply(sm, entry.data);
        if entry.clientID != [] && entry.seqNum > 0 {
          clientLastSeq := clientLastSeq[entry.clientID := entry.seqNum];
        }
      }
      if state.role == Leader && entry.kind == LogConfiguration {
        state.UnlockNextConfiguration();
      }
    }

    /** Applies the next committed entry, if there is one. */
    method ApplyNextLog(ghost log: seq<RaftLog>) returns (arrIdx: int)
      requires Valid() && Rep(state.State(), log)
      modifies this`sm, this`clientLastSeq, state`lastApplied, state`inConfigChange
      ensures Valid() && Rep(state.State(), log)
      ensures arrIdx >= 0 <==> old(state.lastApplied) < state.commitIndex
      ensures arrIdx >= 0 ==>
                && state.lastApplied == old(state.lastApplied) + 1
                && var e := log[state.lastApplied];
                && state.State() == old(state.State()).(
                                      lastApplied := state.lastApplied, config := Unlocked(old(state.State()), [e]))
                && sm == (if e.kind == LogCommand then app.apply(old(sm), e.data) else old(sm))
                && BooksKept(old(clientLastSeq), [e], clientLastSeq)
      ensures arrIdx < 0 ==>
                && state.State() == old(state.State()) && state.lastApplied == state.commitIndex
                && sm == old(sm) && clientLastSeq == old(clientLastSeq)
    {
      ApplyRefines(state.State(), log);
      arrIdx := state.UpdateLastApplied();
      if arrIdx >= 0 {
        ApplyLog(state.logs[arrIdx]);
      }
    }

    /** Applies everything committed: the entries handed over are the log from the first unapplied
        index to the commit index, in order, without gap or repetition; the application is fed their
        commands and nothing else, and each client's book holds its last number among them. The loop
        ends because the distance to the commit index shrinks. */
    method CheckLogsToApply(ghost log: seq<RaftLog>) returns (ghost given: seq<RaftLog>)
      requires Valid() && Rep(state.State(), log)
      modifies this`sm, this`clientLastSeq, state`lastApplied, state`inConfigChange
      ensures Valid() && Rep(state.State(), log)
      ensures state.State() == old(state.State()).(
                                 lastApplied := state.commitIndex, config := Unlocked(old(state.State()), given))
      ensures |given| == state.commitIndex - old(state.lastApplied)
      ensures forall i :: 0 <= i < |given| ==> given[i] == log[old(state.lastApplied) + 1 + i]
      ensures sm == Fed(app, old(sm), Commands(given))
      ensures BooksKept(old(clientLastSeq), given, clientLastSeq)
      ensures old(sm) == StateAfter(app, log, old(state.lastApplied) + 1) ==> sm == StateAfter(app, log, state.commitIndex + 1)
    {
      given := [];
      BooksNone(clientLastSeq);
      ghost var start, n := state.lastApplied + 1, state.State();
      while true
        invariant Valid() && Rep(state.State(), log)
        invariant state.State() == n.(lastApplied := state.lastApplied, config := Unlocked(n, given))
        invariant |given| == state.lastApplied + 1 - start
        invariant forall i :: 0 <= i < |given| ==> given[i] == log[start + i]
        invariant sm == Fed(app, old(sm), Commands(given))
        invariant BooksKept(old(clientLastSeq), given, clientLastSeq)
        decreases state.commitIndex - state.lastApplied
      {
        ghost var before, books := state.State(), clientLastSeq;
        var arrIdx := ApplyNextLog(log);
        if arrIdx < 0 {
          AllGiven(app, log, start, state.commitIndex + 1, given);
          return;
        }
        ghost var e := log[state.lastApplied];
        OneMore(n, before, given, e);
        FedOneMore(app, old(sm), given, e);
        BooksOneMore(old(clientLastSeq), given, books, e, clientLastSeq);
        given := given + [e];
      }
    }

    // ---- one turn of the role loops ----

    method OnAppendEntries(args: AppendEntriesArgs) returns (resp: AppendEntriesResponse)
      requires Valid()
      modifies this`disk, this`lastPersistedSnapIdx, state, state.logs, state.logHashes
      ensures Valid()
      ensures var out := HandleAppendEntries(state.digest, old(state.State()), id, args, app.save(sm));
              resp == out.1 && View() == AC.Save(old(View()).(node := out.0))
    {
      resp := state.HandleAppendEntries(id, args, app.save(sm));
      PersistState();
    }

    method OnRequestVote(args: RequestVoteArgs) returns (resp: RequestVoteResponse)
      requires Valid()
      modifies this`disk, this`lastPersistedSnapIdx, state
      ensures Valid()
      ensures var out := HandleRequestToVote(old(state.State()), id, args);
              resp == out.1 && View() == AC.Save(old(View()).(node := out.0))
    {
      resp := state.HandleRequestToVote(id, args);
      PersistState();
    }

    /** The application is restored on the way, through the snapshot loop. */
    method OnInstallSnapshot(args: InstallSnapshotArgs) returns (resp: InstallSnapshotResponse)
      requires Valid()
      modifies this, state
      ensures Valid()
      ensures var out := HandleInstallSnapshotRequest(old(state.State()), id, args);
              && resp == out.1
              && View() == AC.Save(old(View()).(
                             node := out.0, sm := if out.2.Some? then app.load(out.2.value) else old(sm)))
    {
      var restore;
      resp, restore := state.HandleInstallSnapshotRequest(id, args);
      if restore.Some? {
        sm := app.load(restore.value);
      }
      PersistState();
    }

    /** The election timer of a follower: without peers, the election is won at once. */
    method OnFollowerTimeout()
      requires Valid()
      modifies this`disk, this`lastPersistedSnapIdx, state, state.logs, state.logHashes
      ensures Valid()
      ensures var n := StartElection(old(state.State()), id);
              View() == if peers == {} then AC.Save(AC.Save(old(View()).(node := n)).(node := WinElection(state.digest, n, id)))
                        else AC.Save(old(View()).(node := n))
    {
      state.StartElection(id);
      PersistState();
      if peers == {} {
        state.WinElection(id);
        PersistState();
      }
    }

    /** A candidate counts a reply, and saves only if it has won. */
    method OnVoteReply(resp: RequestVoteResponse) returns (won: bool)
      requires Valid()
      modifies this`disk, this`lastPersistedSnapIdx, state, state.logs, state.logHashes
      ensures Valid()
      ensures var out := UpdateElection(old(state.State()), resp);
              && won == out.1
              && |out.0.logs| == |out.0.hashes|
              && View() == if won then AC.Save(old(View()).(node := WinElection(state.digest, out.0, id)))
                           else old(View()).(node := out.0)
    {
      won := state.UpdateElection(resp);
      if won {
        state.WinElection(id);
        PersistState();
      }
    }

    /** Only a leader takes a command; one whose sequence number was already applied for its client is
        answered at once; otherwise it is stored and saved, or refused when there is no room. */
    method Submit(clientID: Bytes, seqNum: int, data: Bytes) returns (answer: Submission)
      requires Valid()
      modifies this`disk, this`lastPersistedSnapIdx, state, state.logs, state.logHashes
      ensures Valid()
      ensures var n := old(state.State());
              var out := AddCommandLog(state.digest, n, id, clientID, seqNum, data, app.save(sm));
              match answer
              case NotLeader(leader) => n.role != Leader && leader == n.currentLeader && View() == old(View())
              case AlreadyApplied => n.role == Leader && View() == old(View())
              case NoRoom => n.role == Leader && out.1 < 0 && View() == old(View()).(node := out.0)
              case Stored(index) => n.role == Leader && index == out.1 >= 0 && View() == AC.Save(old(View()).(node := out.0))
      ensures answer == AlreadyApplied <==>
                && old(state.role) == Leader && 0 < seqNum
                && clientID in clientLastSeq && seqNum <= clientLastSeq[clientID]
    {
      if state.role != Leader {
        return NotLeader(state.currentLeader);
      }
      if seqNum > 0 && clientID in clientLastSeq && seqNum <= clientLastSeq[clientID] {
        return AlreadyApplied;
      }
      var index := state.AddCommandLog(id, clientID, seqNum, data, app.save(sm));
      if index < 0 {
        return NoRoom;
      }
      PersistState();
      return Stored(index);
    }
  }

  /** What applying one entry in place does to the node is the turn that `ConfigChanges` speaks of. */
  lemma TurnInPlace(n: Node, log: seq<RaftLog>)
    requires Rep(n, log)
    ensures ApplyTurn(n).0 ==
            if n.lastApplied < n.commitIndex
            then n.(lastApplied := n.lastApplied + 1, config := Unlocked(n, [log[n.lastApplied + 1]])) else n
  {
    ApplyRefines(n, log);
    if n.lastApplied < n.commitIndex {
      assert log[n.lastApplied + 1] in [log[n.lastApplied + 1]];
    }
  }

  /** One more entry handed over. */
  lemma OneMore(n: Node, before: Node, given: seq<RaftLog>, e: RaftLog)
    requires before.role == n.role && before.config == Unlocked(n, given)
    ensures Unlocked(before, [e]) == Unlocked(n, given + [e])
  {
    assert (exists x :: x in given + [e] && x.kind == LogConfiguration)
           <==> (exists x :: x in given && x.kind == LogConfiguration) || e.kind == LogConfiguration by {
      assert e in given + [e];
    }
    assert e in [e];
  }

  /** What was handed over, as a stretch of the log. */
  lemma AllGiven<S>(app: App<S>, log: seq<RaftLog>, start: nat, end: nat, given: seq<RaftLog>)
    requires start <= end <= |log| && |given| == end - start
    requires forall i :: 0 <= i < |given| ==> given[i] == log[start + i]
    ensures Fed(app, StateAfter(app, log, start), Commands(given)) == StateAfter(app, log, end)
  {
    assert given == log[start..end];
    FedFrom(app, log, start, end, StateAfter(app, log, start));
  }

  lemma BooksNone(books: map<Bytes, int>)
    ensures BooksKept(books, [], books)
  {
  }

  lemma BooksOne(books: map<Bytes, int>, e: RaftLog)
    ensures var after := if e.kind == LogCommand && e.clientID != [] && e.seqNum > 0 then books[e.clientID := e.seqNum] else books;
            BooksKept(books, [e], after)
  {
    assert [e][0] == e;
  }

  /** One more entry in the books. */
  lemma BooksOneMore(
      before: map<Bytes, int>, given: seq<RaftLog>, books: map<Bytes, int>, e: RaftLog, after: map<Bytes, int>)
    requires BooksKept(before, given, books) && BooksKept(books, [e], after)
    ensures BooksKept(before, given + [e], after)
  {
    var more := given + [e];
    forall client ensures BookKept(before, more, after, client) {
      assert BookKept(before, given, books, client) && BookKept(books, [e], after, client);
      assert forall i :: 0 <= i < |given| ==> more[i] == given[i];
      assert more[|given|] == e && [e][0] == e;
      if Counts(e, client) {
        assert LastOf([e], client, 0);
      } else {
        forall i | LastOf(more, client, i) ensures LastOf(given, client, i) {
        }
      }
    }
  }
}
