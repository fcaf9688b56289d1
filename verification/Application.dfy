/** The application behind the log: a deterministic state machine with a snapshot and its inverse. */
module Application {
  import opened Types

  datatype App<!S> = App(init: S, apply: (S, Bytes) -> S, save: S -> Bytes, load: Bytes -> S)

  /** What types.StateMachine asks of an implementation: restoring a snapshot undoes taking it. */
  ghost predicate Faithful<S(!new)>(app: App<S>) {
    forall s :: app.load(app.save(s)) == s
  }

  /** Only commands reach the application. */
  function ApplyEntry<S>(app: App<S>, s: S, e: RaftLog): S {
    if e.kind == LogCommand then app.apply(s, e.data) else s
  }

  /** The state after the first k entries of a log. */
  function StateAfter<S>(app: App<S>, log: seq<RaftLog>, k: nat): S
    requires k <= |log|
  {
    if k == 0 then app.init else ApplyEntry(app, StateAfter(app, log, k - 1), log[k - 1])
  }

  lemma {:induction false} StateOfAgreeing<S>(app: App<S>, a: seq<RaftLog>, b: seq<RaftLog>, k: nat)
    requires k <= |a| && k <= |b| && forall i :: 0 <= i < k ==> a[i] == b[i]
    ensures StateAfter(app, a, k) == StateAfter(app, b, k)
  {
    if k > 0 {
      StateOfAgreeing(app, a, b, k - 1);
    }
  }

  // ---- the same as one fold over the commands ----

  /** The data of a log's commands, in order. */
  function Commands(log: seq<RaftLog>): seq<Bytes> {
    if log == [] then []
    else if log[|log| - 1].kind == LogCommand then Commands(log[..|log| - 1]) + [log[|log| - 1].data]
    else Commands(log[..|log| - 1])
  }

  /** The application fed one command after the other. */
  function Fed<S>(app: App<S>, s: S, commands: seq<Bytes>): S {
    if commands == [] then s
    else app.apply(Fed(app, s, commands[..|commands| - 1]), commands[|commands| - 1])
  }

  lemma FedOneMore<S>(app: App<S>, s: S, log: seq<RaftLog>, e: RaftLog)
    ensures Fed(app, s, Commands(log + [e]))
            == if e.kind == LogCommand then app.apply(Fed(app, s, Commands(log)), e.data) else Fed(app, s, Commands(log))
  {
    assert (log + [e])[..|log|] == log;
    assert (Commands(log) + [e.data])[..|Commands(log)|] == Commands(log);
  }

  /** From any point on, what the commands make of the state one by one is the state after them. */
  lemma {:induction false} FedFrom<S>(app: App<S>, log: seq<RaftLog>, j: nat, k: nat, s: S)
    requires j <= k <= |log| && s == StateAfter(app, log, j)
    ensures StateAfter(app, log, k) == Fed(app, s, Commands(log[j..k]))
    decreases k
  {
    if j < k {
      FedFrom(app, log, j, k - 1, s);
      assert log[j..k - 1] + [log[k - 1]] == log[j..k];
      FedOneMore(app, s, log[j..k - 1], log[k - 1]);
    }
  }

  /** The state after k entries is what the commands among them make of the initial state. */
  lemma StateIsFed<S>(app: App<S>, log: seq<RaftLog>, k: nat)
    requires k <= |log|
    ensures StateAfter(app, log, k) == Fed(app, app.init, Commands(log[..k]))
  {
    FedFrom(app, log, 0, k, app.init);
    assert log[0..k] == log[..k];
  }

  /** An application that only writes its commands down has, after k entries, written exactly those. */
  lemma {:induction false} RecordsCommands(app: App<seq<Bytes>>, commands: seq<Bytes>)
    requires forall s, c :: app.apply(s, c) == s + [c]
    ensures Fed(app, [], commands) == commands
    decreases |commands|
  {
    if commands != [] {
      RecordsCommands(app, commands[..|commands| - 1]);
    }
  }
}
