/** Logs as unbounded sequences: prefix agreement, where each term's entries come from,
    and the rule by which a follower merges received entries. */
module Agreement {
  import opened Types

  /** The two logs hold the same first k entries. */
  predicate Agree(a: seq<RaftLog>, b: seq<RaftLog>, k: int) {
    && k <= |a|
    && k <= |b|
    && forall j :: 0 <= j < k ==> a[j] == b[j]
  }

  function LastIndex(log: seq<RaftLog>): int {
    |log| - 1
  }

  function LastTerm(log: seq<RaftLog>): int {
    if log == [] then -1 else log[|log| - 1].term
  }

  /** Every entry sits at its own index, and the log up to an entry of term u is the log that
      u's leader had up to there. */
  predicate Traced(log: seq<RaftLog>, tlog: map<int, seq<RaftLog>>) {
    forall i :: 0 <= i < |log| ==> TracedAt(log, tlog, i)
  }

  predicate TracedAt(log: seq<RaftLog>, tlog: map<int, seq<RaftLog>>, i: int)
    requires 0 <= i < |log|
  {
    && log[i].index == i
    && log[i].term in tlog
    && Agree(log, tlog[log[i].term], i + 1)
  }

  /** Leader logs only ever get longer, and new terms may appear. */
  predicate Extends(tlog: map<int, seq<RaftLog>>, tlog': map<int, seq<RaftLog>>) {
    forall t :: t in tlog ==> t in tlog' && Agree(tlog[t], tlog'[t], |tlog[t]|)
  }

  lemma TracedExtends(log: seq<RaftLog>, tlog: map<int, seq<RaftLog>>, tlog': map<int, seq<RaftLog>>)
    requires Traced(log, tlog) && Extends(tlog, tlog')
    ensures Traced(log, tlog')
  {
    forall i | 0 <= i < |log| ensures TracedAt(log, tlog', i) {
      assert TracedAt(log, tlog, i);
    }
  }

  lemma TracedPrefix(log: seq<RaftLog>, other: seq<RaftLog>, tlog: map<int, seq<RaftLog>>)
    requires Traced(log, tlog) && Agree(other, log, |other|)
    ensures Traced(other, tlog)
  {
    forall i | 0 <= i < |other| ensures TracedAt(other, tlog, i) {
      assert TracedAt(log, tlog, i);
    }
  }

  /** Log matching: entries of equal index and term have equal histories. */
  lemma TracedMatch(a: seq<RaftLog>, b: seq<RaftLog>, tlog: map<int, seq<RaftLog>>, i: int)
    requires Traced(a, tlog) && Traced(b, tlog)
    requires 0 <= i < |a| && i < |b| && a[i].term == b[i].term
    ensures Agree(a, b, i + 1)
  {
    assert TracedAt(a, tlog, i) && TracedAt(b, tlog, i);
  }

  // ---- merging received entries ----

  /** The elements from position i on. */
  function From<T>(s: seq<T>, i: nat): (r: seq<T>)
    requires i <= |s|
    ensures |r| == |s| - i && forall k :: 0 <= k < |r| ==> r[k] == s[i + k]
  {
    seq(|s| - i, k requires 0 <= k < |s| - i => s[i + k])
  }

  predicate SameIdTerm(a: RaftLog, b: RaftLog) {
    a.index == b.index && a.term == b.term
  }

  /** The follower's rule: entries already in place stay, the first missing or conflicting one
      replaces everything from its position on. */
  function Merge(log: seq<RaftLog>, start: nat, entries: seq<RaftLog>): seq<RaftLog>
    requires start <= |log|
    decreases |entries|
  {
    if entries == [] then log
    else if start < |log| && SameIdTerm(log[start], entries[0]) then Merge(log, start + 1, entries[1..])
    else log[..start] + entries
  }

  predicate IsSlice(entries: seq<RaftLog>, src: seq<RaftLog>, start: nat) {
    && start + |entries| <= |src|
    && forall i :: 0 <= i < |entries| ==> entries[i] == src[start + i]
  }

  /** Merging a slice of a leader's log reaches the end of the slice, keeps whatever already
      agreed with that leader, and truncates only where the two logs part. */
  lemma {:induction false} MergeAgrees(
      log: seq<RaftLog>, src: seq<RaftLog>, tlog: map<int, seq<RaftLog>>, start: nat, entries: seq<RaftLog>)
    requires Traced(log, tlog) && Traced(src, tlog)
    requires Agree(log, src, start) && IsSlice(entries, src, start)
    ensures var merged := Merge(log, start, entries);
            && Agree(merged, src, start + |entries|)
            && (forall m :: Agree(log, src, m) ==> Agree(merged, src, m))
            && (merged == log || Agree(merged, src, |merged|))
            && Traced(merged, tlog)
    decreases |entries|
  {
    if entries == [] {
    } else if start < |log| && SameIdTerm(log[start], entries[0]) {
      TracedMatch(log, src, tlog, start);
      MergeAgrees(log, src, tlog, start + 1, entries[1..]);
    } else {
      assert src[start] == entries[0];
      SpliceAgrees(log, src, tlog, start, entries);
      forall m | Agree(log, src, m) ensures m <= start {
        if m > start {
          assert false;
        }
      }
    }
  }

  lemma SpliceAgrees(
      log: seq<RaftLog>, src: seq<RaftLog>, tlog: map<int, seq<RaftLog>>, start: nat, entries: seq<RaftLog>)
    requires Traced(src, tlog) && IsSlice(entries, src, start) && Agree(log, src, start)
    ensures var merged := log[..start] + entries;
            |merged| == start + |entries| && Agree(merged, src, |merged|) && Traced(merged, tlog)
  {
    var merged := log[..start] + entries;
    assert forall i :: 0 <= i < |merged| ==> merged[i] == src[i];
    TracedPrefix(src, merged, tlog);
  }
}
