/**
 * What one node's durable state goes through, under any messages at all: it stays
 * well formed, it only moves forward, and the incremental transaction says exactly what
 * changed. Both engines.
 */
module LocalHistory {
  import opened Types
  import opened Checkpoints
  import opened Memberships
  import opened NodeModel

  // ---- Checkpoints.

  /** s differs from d only where a transaction from `from` (and the snapshot, if changed) says so. */
  ghost predicate Delta<V, S>(d: Checkpoint<V, S>, s: Checkpoint<V, S>, from: Option<U64>, changed: bool) {
    && Base(d).index <= Base(s).index
    && (if changed then s.snapshot.Some? else s.snapshot == d.snapshot)
    && forall k: U64 | Base(s).index < k && (from.None? || k < from.value) :: Get(s, k) == Get(d, k)
  }

  /** Terms, votes, the base and the commit index only move forward, and committed entries stay. */
  ghost predicate Advances<V, S>(d: Checkpoint<V, S>, s: Checkpoint<V, S>) {
    && d.hard.term <= s.hard.term
    && (d.hard.term == s.hard.term && d.hard.votedFor.Some? ==> s.hard.votedFor == d.hard.votedFor)
    && Base(d).index <= Base(s).index && d.hard.commit <= s.hard.commit
    && (Base(s).index <= d.hard.commit ==> IdAt(d, Base(s).index) == Some(Base(s)))
    && forall k: U64 | Base(s).index < k <= d.hard.commit :: Get(s, k) == Get(d, k)
  }

  lemma AdvancesRefl<V, S>(d: Checkpoint<V, S>)
    ensures Advances(d, d) && Delta(d, d, None, false)
  {
  }

  lemma AdvancesTrans<V, S>(a: Checkpoint<V, S>, b: Checkpoint<V, S>, c: Checkpoint<V, S>)
    requires Advances(a, b) && Advances(b, c) && WellFormed(b)
    ensures Advances(a, c)
  {
    hide Contiguous;
    forall k: U64 | Base(c).index < k <= a.hard.commit ensures Get(c, k) == Get(a, k) {
      assert Get(c, k) == Get(b, k);
    }
    if Base(b).index < Base(c).index <= a.hard.commit {
      assert Get(b, Base(c).index) == Get(a, Base(c).index);
    }
  }

  lemma GetContiguous<V, S>(s: Checkpoint<V, S>, k: U64)
    requires Contiguous(Base(s), s.entries, s.hard.term)
    ensures Get(s, k).Some? <==> Base(s).index < k <= Base(s).index + |s.entries|
    ensures Get(s, k).Some? ==> Get(s, k).value.id.index == k && IdAt(s, k) == Some(Get(s, k).value.id)
    ensures IdAt(s, k).Some? <==> Base(s).index <= k <= Base(s).index + |s.entries|
    ensures IdAt(s, k).Some? ==> IdAt(s, k).value.index == k
    ensures Last(s).index == Base(s).index + |s.entries|
    ensures IdAt(s, Last(s).index) == Some(Last(s))
  {
  }

  /** The documented order of a transaction gives back exactly the new state. */
  lemma DeltaApplies<V, S>(d: Checkpoint<V, S>, s: Checkpoint<V, S>, from: Option<U64>, changed: bool)
    requires WellFormed(d) && WellFormed(s) && Delta(d, s, from, changed)
    ensures Applied(d, WriteOf(s, from, changed)) == s
  {
    hide Contiguous, Kept;
    var base := Base(s).index;
    var w := WriteOf(s, from, changed);
    KeptSlice(Base(d), d.entries, d.hard.term, base, from);
    var kept := Kept(d.entries, base, from);
    assert kept + w.entries == s.entries by { KeptJoins(d, s, from, changed); }
  }

  lemma KeptJoins<V, S>(d: Checkpoint<V, S>, s: Checkpoint<V, S>, from: Option<U64>, changed: bool)
    requires WellFormed(d) && WellFormed(s) && Delta(d, s, from, changed)
    ensures Kept(d.entries, Base(s).index, from) + WriteOf(s, from, changed).entries == s.entries
  {
    hide Kept, WellFormed, Delta;
    var base := Base(s).index;
    var kept := Kept(d.entries, base, from);
    var rest := WriteOf(s, from, changed).entries;
    KeptLength(d, s, from, changed);
    assert rest == s.entries[|kept|..];
    forall j | 0 <= j < |kept| ensures kept[j] == s.entries[j] {
      KeptAt(d, s, from, changed, j);
    }
    hide WriteOf;
    assert kept == s.entries[..|kept|];
  }

  lemma KeptAt<V, S>(d: Checkpoint<V, S>, s: Checkpoint<V, S>, from: Option<U64>, changed: bool, j: nat)
    requires WellFormed(d) && WellFormed(s) && Delta(d, s, from, changed)
    requires j < |Kept(d.entries, Base(s).index, from)|
    requires |Kept(d.entries, Base(s).index, from)| == |s.entries| - |WriteOf(s, from, changed).entries|
    ensures Kept(d.entries, Base(s).index, from)[j] == s.entries[j]
  {
    hide Kept;
    var base := Base(s).index;
    KeptSlice(Base(d), d.entries, d.hard.term, base, from);
    LastIndex(s);
    hide Contiguous;
    assert Get(s, base + 1 + j) == Get(d, base + 1 + j);
  }

  lemma KeptLength<V, S>(d: Checkpoint<V, S>, s: Checkpoint<V, S>, from: Option<U64>, changed: bool)
    requires WellFormed(d) && WellFormed(s) && Delta(d, s, from, changed)
    ensures |Kept(d.entries, Base(s).index, from)| == |s.entries| - |WriteOf(s, from, changed).entries|
  {
    hide Kept;
    var base := Base(s).index;
    KeptSlice(Base(d), d.entries, d.hard.term, base, from);
    LastIndex(s);
    LastIndex(d);
    hide Contiguous;
    // The first index either side lacks is lacking on the other side as well.
    var a := Last(s).index;
    var b := Last(d).index;
    if a < MAX_U64 {
      assert a >= base && (from.None? || a + 1 < from.value) ==> Get(s, a + 1) == Get(d, a + 1);
    }
    if base <= b < MAX_U64 {
      assert (from.None? || b + 1 < from.value) ==> Get(s, b + 1) == Get(d, b + 1);
    }
    if base < MAX_U64 {
      assert (from.None? || base + 1 < from.value) ==> Get(s, base + 1) == Get(d, base + 1);
    }
  }

  // ---- The primitive changes.

  ghost predicate Continues<V, S>(d: Checkpoint<V, S>, s: Checkpoint<V, S>, from: Option<U64>, changed: bool) {
    WellFormed(d) && WellFormed(s) && Delta(d, s, from, changed) && Advances(d, s)
  }

  lemma HardContinues<V, S>(
    d: Checkpoint<V, S>, s: Checkpoint<V, S>, from: Option<U64>, changed: bool, hard: HardState)
    requires Continues(d, s, from, changed)
    requires s.hard.term <= hard.term && s.hard.commit <= hard.commit <= Last(s).index
    requires s.hard.term == hard.term && s.hard.votedFor.Some? ==> hard.votedFor == s.hard.votedFor
    requires hard.term == 0 ==> hard.votedFor.None?
    ensures Continues(d, s.(hard := hard), from, changed)
  {
    var s1 := s.(hard := hard);
    assert forall k: U64 :: Get(s1, k) == Get(s, k);
  }

  /** A transaction may start earlier, or at all, without losing anything. */
  ghost predicate Earlier(from: Option<U64>, from1: Option<U64>) {
    from.Some? ==> from1.Some? && from1.value <= from.value
  }

  lemma EarlierContinues<V, S>(
    d: Checkpoint<V, S>, s: Checkpoint<V, S>, from: Option<U64>, changed: bool, from1: Option<U64>)
    requires Continues(d, s, from, changed) && Earlier(from, from1)
    ensures Continues(d, s, from1, changed)
  {
  }

  lemma ContiguousDrop<V>(base: LogId, entries: seq<Entry<V>>, term: U64, m: nat)
    requires Contiguous(base, entries, term) && m <= |entries|
    ensures Contiguous(base, entries[..m], term)
  {
  }

  lemma ReplaceWellFormed<V, S>(s: Checkpoint<V, S>, e: Entry<V>)
    requires WellFormed(s) && s.hard.commit < e.id.index <= Last(s).index + 1
    requires IdAt(s, e.id.index - 1).Some? && IdAt(s, e.id.index - 1).value.term <= e.id.term
    requires 0 < e.id.term <= s.hard.term
    ensures |Truncated(s, e.id.index).entries| == e.id.index - 1 - Base(s).index <= |s.entries|
    ensures Pushed(Truncated(s, e.id.index), e) == s.(entries := s.entries[..e.id.index - 1 - Base(s).index] + [e])
    ensures WellFormed(Pushed(Truncated(s, e.id.index), e))
  {
    LastIndex(s);
    TruncatedAt(s, e.id.index);
    var m := e.id.index - 1 - Base(s).index;
    GetContiguous(s, e.id.index - 1);
    ContiguousDrop(Base(s), s.entries, s.hard.term, m);
    ContiguousPush(Base(s), s.entries[..m], e, s.hard.term);
  }

  /** Replacing everything from e on, including pushing at the end. */
  lemma ReplaceContinues<V, S>(
    d: Checkpoint<V, S>, s: Checkpoint<V, S>, from: Option<U64>, changed: bool, e: Entry<V>, from1: Option<U64>)
    requires Continues(d, s, from, changed)
    requires s.hard.commit < e.id.index <= Last(s).index + 1
    requires IdAt(s, e.id.index - 1).Some? && IdAt(s, e.id.index - 1).value.term <= e.id.term
    requires 0 < e.id.term <= s.hard.term
    requires from1.Some? && from1.value <= e.id.index && Earlier(from, from1)
    ensures Continues(d, Pushed(Truncated(s, e.id.index), e), from1, changed)
    ensures |Truncated(s, e.id.index).entries| == e.id.index - 1 - Base(s).index <= |s.entries|
  {
    hide Contiguous, Truncated, Last;
    ReplaceWellFormed(s, e);
    var s1 := Pushed(Truncated(s, e.id.index), e);
    forall j: U64 | j < e.id.index ensures Get(s1, j) == Get(s, j) {
    }
    hide WellFormed, Get;
  }

  /** Pushing after the last entry is replacing from just past it. */
  lemma PushIsReplace<V, S>(s: Checkpoint<V, S>, e: Entry<V>)
    requires WellFormed(s) && e.id.index == Last(s).index + 1
    ensures Truncated(s, e.id.index) == s
    ensures IdAt(s, Last(s).index) == Some(Last(s))
  {
    LastIndex(s);
    TruncatedAt(s, e.id.index);
    assert s.entries[..|s.entries|] == s.entries;
    GetContiguous(s, Last(s).index);
  }

  /** Folding a prefix into the snapshot, or jumping to a later one. */
  lemma InstallContinues<V, S>(
    d: Checkpoint<V, S>, s: Checkpoint<V, S>, from: Option<U64>, changed: bool, snapshot: Snapshot<S>)
    requires Continues(d, s, from, changed)
    requires Base(s).index < snapshot.last.index && 0 < snapshot.last.term <= s.hard.term
    requires snapshot.last.index > s.hard.commit || IdAt(s, snapshot.last.index) == Some(snapshot.last)
    ensures
      var from1 := if IdAt(s, snapshot.last.index) != Some(snapshot.last) then CheckedInc(snapshot.last.index)
          else from;
      Continues(d, Installed(s, snapshot), from1, true)
    ensures |Installed(s, snapshot).entries| <= |s.entries|
  {
    hide Contiguous, Last;
    var k := snapshot.last.index;
    var s1 := Installed(s, snapshot);
    InstalledWellFormed(s, snapshot);
    if IdAt(s, k) == Some(snapshot.last) {
      InstalledSuffix(s, snapshot);
      forall j: U64 | k < j ensures Get(s1, j) == Get(s, j) {
      }
    }
    if k <= d.hard.commit {
      assert Get(s, k) == Get(d, k);
    }
  }

  lemma InstalledWellFormed<V, S>(s: Checkpoint<V, S>, snapshot: Snapshot<S>)
    requires WellFormed(s)
    requires Base(s).index < snapshot.last.index && 0 < snapshot.last.term <= s.hard.term
    requires snapshot.last.index > s.hard.commit || IdAt(s, snapshot.last.index) == Some(snapshot.last)
    ensures WellFormed(Installed(s, snapshot)) && Base(Installed(s, snapshot)) == snapshot.last
    ensures IdAt(s, snapshot.last.index) != Some(snapshot.last) ==> Installed(s, snapshot).entries == []
    ensures |Installed(s, snapshot).entries| <= |s.entries|
  {
    LastIndex(s);
    if IdAt(s, snapshot.last.index) == Some(snapshot.last) {
      InstalledSuffix(s, snapshot);
      LastIndex(Installed(s, snapshot));
    }
  }

  lemma InstalledSuffix<V, S>(s: Checkpoint<V, S>, snapshot: Snapshot<S>)
    requires WellFormed(s) && Base(s).index < snapshot.last.index
    requires IdAt(s, snapshot.last.index) == Some(snapshot.last)
    ensures snapshot.last.index - Base(s).index <= |s.entries|
    ensures Installed(s, snapshot).entries == s.entries[snapshot.last.index - Base(s).index..]
    ensures Contiguous(snapshot.last, Installed(s, snapshot).entries, s.hard.term)
  {
  }
}
