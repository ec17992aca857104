/**
 * The bounded checkpoint of jarl/src/state.rs as a value, the storage transaction of
 * jarl/src/ready.rs, and what both mean. The class of LogState.dfy refines it.
 */
module Checkpoints {
  import opened Types

  datatype HardState = HardState(term: U64, votedFor: Option<Id>, commit: U64)

  datatype Checkpoint<+V, +S> =
    Checkpoint(hard: HardState, snapshot: Option<Snapshot<S>>, entries: seq<Entry<V>>)

  function Empty<V, S>(): Checkpoint<V, S> {
    Checkpoint(HardState(0, None, 0), None, [])
  }

  function Base<V, S>(s: Checkpoint<V, S>): LogId {
    if s.snapshot.Some? then s.snapshot.value.last else GENESIS
  }

  function Last<V, S>(s: Checkpoint<V, S>): LogId {
    if s.entries == [] then Base(s) else s.entries[|s.entries| - 1].id
  }

  function Get<V, S>(s: Checkpoint<V, S>, index: U64): Option<Entry<V>> {
    var offset := index - Base(s).index - 1;
    if 0 <= offset < |s.entries| then Some(s.entries[offset]) else None
  }

  function IdAt<V, S>(s: Checkpoint<V, S>, index: U64): Option<LogId> {
    if index == Base(s).index then Some(Base(s))
    else
      var e := Get(s, index);
      if e.Some? then Some(e.value.id) else None
  }

  function Pushed<V, S>(s: Checkpoint<V, S>, e: Entry<V>): Checkpoint<V, S> {
    s.(entries := s.entries + [e])
  }

  /** Drop entries from the back while they are at or after `from`. */
  function Truncated<V, S>(s: Checkpoint<V, S>, from: U64): Checkpoint<V, S>
    decreases |s.entries|
  {
    if s.entries != [] && Last(s).index >= from
    then Truncated(s.(entries := s.entries[..|s.entries| - 1]), from)
    else s
  }

  /** Replace the snapshot; keep the suffix only if the log holds its boundary. */
  function Installed<V, S>(s: Checkpoint<V, S>, snapshot: Snapshot<S>): Checkpoint<V, S> {
    var keep := IdAt(s, snapshot.last.index) == Some(snapshot.last);
    var remove := snapshot.last.index - Base(s).index;
    Checkpoint(
      s.hard.(commit := Max(s.hard.commit, snapshot.last.index)),
      Some(snapshot),
      if keep && 0 <= remove <= |s.entries| then s.entries[remove..] else [])
  }

  // ---- What a durable checkpoint must be.

  /** Entry k sits at index base + 1 + k, with terms that never decrease. */
  predicate Contiguous<V>(base: LogId, entries: seq<Entry<V>>, term: U64) {
    && (forall k | 0 <= k < |entries| ::
          && entries[k].id.index == base.index + 1 + k
          && 0 < entries[k].id.term <= term
          && base.term <= entries[k].id.term)
    && (forall i, k | 0 <= i <= k < |entries| :: entries[i].id.term <= entries[k].id.term)
  }

  /** A snapshot has a real boundary no later than the term; term zero has no vote. */
  predicate SoundMetadata<S>(hard: HardState, snapshot: Option<Snapshot<S>>) {
    && (snapshot.Some? ==> 0 < snapshot.value.last.index && 0 < snapshot.value.last.term <= hard.term)
    && (hard.term == 0 ==> hard.votedFor.None?)
  }

  predicate WellFormed<V, S>(s: Checkpoint<V, S>) {
    && SoundMetadata(s.hard, s.snapshot)
    && Contiguous(Base(s), s.entries, s.hard.term)
    && Base(s).index <= s.hard.commit <= Last(s).index
  }

  lemma LastIndex<V, S>(s: Checkpoint<V, S>)
    requires Contiguous(Base(s), s.entries, s.hard.term)
    ensures Last(s).index == Base(s).index + |s.entries|
  {
  }

  /** Truncation keeps exactly the entries before `from`. */
  lemma {:induction false} TruncatedAt<V, S>(s: Checkpoint<V, S>, from: U64)
    requires Contiguous(Base(s), s.entries, s.hard.term)
    ensures
      var keep := if from <= Base(s).index then 0
                  else if from - Base(s).index - 1 <= |s.entries| then from - Base(s).index - 1
                  else |s.entries|;
      Truncated(s, from) == s.(entries := s.entries[..keep])
    decreases |s.entries|
  {
    LastIndex(s);
    if s.entries != [] && Last(s).index >= from {
      var shorter := s.(entries := s.entries[..|s.entries| - 1]);
      TruncatedAt(shorter, from);
    } else {
      assert s.entries[..|s.entries|] == s.entries;
    }
  }

  // ---- Restoring.

  /** Feed entries one at a time, as the loop of State::restore does. */
  function Fed<V, S>(s: Checkpoint<V, S>, entries: seq<Entry<V>>, cap: nat): Result<Checkpoint<V, S>, Error>
    decreases |entries|
  {
    if entries == [] then Ok(s)
    else
      var e := entries[0];
      if Last(s).index + 1 != e.id.index || e.id.term == 0
         || e.id.term < Last(s).term || e.id.term > s.hard.term
      then Err(State)
      else if |s.entries| >= cap then Err(Full)
      else Fed(Pushed(s, e), entries[1..], cap)
  }

  function Restored<V, S>(
    hard: HardState, snapshot: Option<Snapshot<S>>, entries: seq<Entry<V>>, cap: nat)
    : Result<Checkpoint<V, S>, Error>
  {
    var s := Checkpoint(hard, snapshot, []);
    var base := Base(s);
    if (snapshot.Some? && (base.index == 0 || base.term == 0))
       || base.term > hard.term
       || (hard.term == 0 && hard.votedFor.Some?)
    then Err(State)
    else
      match Fed(s, entries, cap)
      case Err(e) => Err(e)
      case Ok(r) =>
        if hard.commit < base.index || hard.commit > Last(r).index then Err(State) else Ok(r)
  }

  lemma ContiguousPush<V>(base: LogId, entries: seq<Entry<V>>, e: Entry<V>, term: U64)
    requires Contiguous(base, entries, term)
    ensures
      var last := if entries == [] then base else entries[|entries| - 1].id;
      Contiguous(base, entries + [e], term) ==
      (last.index + 1 == e.id.index && 0 < e.id.term && last.term <= e.id.term <= term)
  {
    var last := if entries == [] then base else entries[|entries| - 1].id;
    var more := entries + [e];
    assert more[|entries|] == e;
    assert forall k | 0 <= k < |entries| :: more[k] == entries[k];
    if Contiguous(base, more, term) {
      assert entries != [] ==> more[|entries| - 1].id.term <= more[|entries|].id.term;
    }
  }

  lemma ContiguousPrefix<V>(base: LogId, a: seq<Entry<V>>, b: seq<Entry<V>>, term: U64)
    requires Contiguous(base, a + b, term)
    ensures Contiguous(base, a, term)
  {
    assert forall k | 0 <= k < |a| :: (a + b)[k] == a[k];
  }

  lemma {:induction false} FedWhole<V, S>(s: Checkpoint<V, S>, entries: seq<Entry<V>>, cap: nat)
    requires Contiguous(Base(s), s.entries, s.hard.term)
    ensures
      Fed(s, entries, cap).Ok? ==
      (Contiguous(Base(s), s.entries + entries, s.hard.term) && (entries != [] ==> |s.entries + entries| <= cap))
    ensures Fed(s, entries, cap).Ok? ==> Fed(s, entries, cap).value == s.(entries := s.entries + entries)
    decreases |entries|
  {
    if entries == [] {
      assert s.entries + entries == s.entries;
    } else {
      var e := entries[0];
      var p := Pushed(s, e);
      ContiguousPush(Base(s), s.entries, e, s.hard.term);
      assert p.entries + entries[1..] == s.entries + entries;
      if Contiguous(Base(s), p.entries, s.hard.term) {
        if |s.entries| < cap {
          FedWhole(p, entries[1..], cap);
        }
      } else if Contiguous(Base(s), s.entries + entries, s.hard.term) {
        ContiguousPrefix(Base(s), p.entries, entries[1..], s.hard.term);
      }
    }
  }

  /** Restore accepts exactly the well-formed checkpoints that fit, and returns them unchanged. */
  lemma RestoreExactly<V, S>(s: Checkpoint<V, S>, cap: nat)
    ensures
      Restored(s.hard, s.snapshot, s.entries, cap) == Ok(s) <==> WellFormed(s) && |s.entries| <= cap
    ensures
      Restored(s.hard, s.snapshot, s.entries, cap).Ok? ==>
        Restored(s.hard, s.snapshot, s.entries, cap) == Ok(s)
  {
    hide Contiguous;
    var s0 := Checkpoint(s.hard, s.snapshot, []);
    assert s0.entries + s.entries == s.entries;
    assert s0.(entries := s.entries) == s;
    NothingIsContiguous<V>(Base(s), s.hard.term);
    FedWhole(s0, s.entries, cap);
  }

  lemma NothingIsContiguous<V>(base: LogId, term: U64)
    ensures Contiguous<V>(base, [], term)
  {
  }

  // ---- Storage transactions (jarl/src/ready.rs).

  datatype Write<+V, +S> =
    Write(hard: HardState, snapshot: Option<Snapshot<S>>, truncateFrom: Option<U64>, entries: seq<Entry<V>>)

  /** The incremental transaction of State::write. */
  function WriteOf<V, S>(s: Checkpoint<V, S>, from: Option<U64>, snapshotChanged: bool): Write<V, S> {
    var offset :=
      if from.None? then |s.entries|
      else
        var skip := from.value - Base(s).index - 1;
        if skip < 0 then 0 else if skip <= |s.entries| then skip else |s.entries|;
    Write(s.hard, if snapshotChanged then s.snapshot else None, from, s.entries[offset..])
  }

  function Kept<V>(entries: seq<Entry<V>>, base: U64, from: Option<U64>): seq<Entry<V>> {
    if entries == [] then []
    else
      var rest := Kept(entries[1..], base, from);
      if entries[0].id.index > base && (from.None? || entries[0].id.index < from.value)
      then [entries[0]] + rest
      else rest
  }

  /** The documented order: snapshot and discard, truncate, append, hard state. */
  function Applied<V, S>(disk: Checkpoint<V, S>, w: Write<V, S>): Checkpoint<V, S> {
    var snapshot := if w.snapshot.Some? then w.snapshot else disk.snapshot;
    var base := if snapshot.Some? then snapshot.value.last.index else 0;
    Checkpoint(w.hard, snapshot, Kept(disk.entries, base, w.truncateFrom) + w.entries)
  }

  /** In a contiguous log, the entries in an index window are a slice. */
  lemma {:induction false} KeptSlice<V>(base0: LogId, entries: seq<Entry<V>>, term: U64, base: U64, from: Option<U64>)
    requires Contiguous(base0, entries, term) && base0.index <= base
    ensures
      var lo := if base - base0.index <= |entries| then base - base0.index else |entries|;
      var hi := if from.None? || from.value - base0.index - 1 >= |entries| then |entries|
                else if from.value - base0.index - 1 < 0 then 0 else from.value - base0.index - 1;
      Kept(entries, base, from) == if lo <= hi then entries[lo..hi] else []
    decreases |entries|
  {
    if entries != [] {
      var e := entries[0];
      var base1 := e.id;
      assert Contiguous(base1, entries[1..], term);
      if base >= base1.index {
        KeptSlice(base1, entries[1..], term, base, from);
      } else {
        KeptPrefix(base0, entries, term, base, from);
      }
    }
  }

  lemma {:induction false} KeptPrefix<V>(base0: LogId, entries: seq<Entry<V>>, term: U64, base: U64, from: Option<U64>)
    requires Contiguous(base0, entries, term) && base <= base0.index
    ensures
      var hi := if from.None? || from.value - base0.index - 1 >= |entries| then |entries|
                else if from.value - base0.index - 1 < 0 then 0 else from.value - base0.index - 1;
      Kept(entries, base, from) == entries[..hi]
    decreases |entries|
  {
    if entries != [] {
      assert Contiguous(entries[0].id, entries[1..], term);
      KeptPrefix(entries[0].id, entries[1..], term, base, from);
    }
  }
}
