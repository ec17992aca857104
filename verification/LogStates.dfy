/**
 * The bounded checkpoint as the source keeps it: a fixed array of slots whose first
 * `len` are filled (jarl/src/state.rs). Every method is proved against Checkpoints.dfy.
 */
module LogStates {
  import opened Types
  import opened Checkpoints

  predicate AllSome<T>(slots: seq<Option<T>>) {
    forall i | 0 <= i < |slots| :: slots[i].Some?
  }

  function Unwrapped<T>(slots: seq<Option<T>>): (r: seq<T>)
    requires AllSome(slots)
    ensures |r| == |slots| && forall i | 0 <= i < |r| :: slots[i] == Some(r[i])
  {
    seq(|slots|, i requires 0 <= i < |slots| && AllSome(slots) => slots[i].value)
  }

  class LogState<V, S> {
    var hard: HardState
    var snapshot: Option<Snapshot<S>>
    const slots: array<Option<Entry<V>>>
    var len: nat

    /** The first len slots are filled and the others are empty. */
    ghost predicate Valid()
      reads this, slots
    {
      && len <= slots.Length
      && AllSome(slots[..len])
      && forall i | len <= i < slots.Length :: slots[i].None?
    }

    ghost function Contents(): Checkpoint<V, S>
      requires Valid()
      reads this, slots
    {
      Checkpoint(hard, snapshot, Unwrapped(slots[..len]))
    }

    constructor (cap: nat)
      ensures Valid() && fresh(slots) && slots.Length == cap && Contents() == Empty()
    {
      hard := HardState(0, None, 0);
      snapshot := None;
      slots := new Option<Entry<V>>[cap](_ => None);
      len := 0;
    }

    function BaseId(): (r: LogId)
      requires Valid()
      reads this, slots
      ensures r == Base(Contents())
    {
      if snapshot.Some? then snapshot.value.last else GENESIS
    }

    function LastId(): (r: LogId)
      requires Valid()
      reads this, slots
      ensures r == Last(Contents())
    {
      if len == 0 then BaseId()
      else
        assert slots[len - 1] == Some(Unwrapped(slots[..len])[len - 1]);
        slots[len - 1].value.id
    }

    function GetEntry(index: U64): (r: Option<Entry<V>>)
      requires Valid()
      reads this, slots
      ensures r == Get(Contents(), index)
    {
      var offset := index - BaseId().index - 1;
      if 0 <= offset < slots.Length then
        assert offset < len ==> slots[offset] == Some(Unwrapped(slots[..len])[offset]);
        slots[offset]
      else None
    }

    function EntryId(index: U64): (r: Option<LogId>)
      requires Valid()
      reads this, slots
      ensures r == IdAt(Contents(), index)
    {
      if index == BaseId().index then Some(BaseId())
      else
        var e := GetEntry(index);
        if e.Some? then Some(e.value.id) else None
    }

    predicate IsFull()
      reads this
    {
      len == slots.Length
    }

    /** Replace the metadata that is saved with the log. */
    method SetHard(value: HardState)
      requires Valid()
      modifies this`hard
      ensures Valid() && Contents() == old(Contents()).(hard := value)
    {
      hard := value;
    }

    method Push(e: Entry<V>) returns (error: Option<Error>)
      requires Valid()
      modifies this`len, slots
      ensures Valid()
      ensures error == if |old(Contents()).entries| >= slots.Length then Some(Full) else None
      ensures Contents() == if error.None? then Pushed(old(Contents()), e) else old(Contents())
    {
      if IsFull() {
        return Some(Full);
      }
      slots[len] := Some(e);
      len := len + 1;
      assert slots[..len - 1] == old(slots[..len]);
      assert Unwrapped(slots[..len]) == old(Unwrapped(slots[..len])) + [e];
      return None;
    }

    method Truncate(from: U64)
      requires Valid()
      modifies this`len, slots
      ensures Valid() && Contents() == Truncated(old(Contents()), from)
    {
      while LastId().index >= from && len > 0
        invariant Valid()
        invariant Truncated(Contents(), from) == Truncated(old(Contents()), from)
        decreases len
      {
        ghost var before := Contents();
        len := len - 1;
        slots[len] := None;
        assert Unwrapped(slots[..len]) == before.entries[..|before.entries| - 1];
        assert Contents() == before.(entries := before.entries[..|before.entries| - 1]);
      }
    }

    /** Slice::rotate_left on the filled slots. */
    method RotateLeft(k: nat)
      requires Valid() && k <= len
      modifies slots
      ensures slots[..len] == old(slots[k..len]) + old(slots[..k])
      ensures forall i | len <= i < slots.Length :: slots[i] == old(slots[i])
    {
      forall i | 0 <= i < len {
        slots[i] := if i + k < len then slots[i + k] else slots[i + k - len];
      }
    }

    method ClearFrom(from: nat)
      requires from <= slots.Length
      modifies slots
      ensures slots[..from] == old(slots[..from])
      ensures forall i | from <= i < slots.Length :: slots[i].None?
    {
      for i := from to slots.Length
        invariant slots[..from] == old(slots[..from])
        invariant forall k | from <= k < i :: slots[k].None?
      {
        slots[i] := None;
      }
    }

    /** Discard the first k entries and move the others to the front. */
    method DropFront(k: nat)
      requires Valid() && k <= len
      modifies this`len, slots
      ensures Valid() && Contents() == old(Contents()).(entries := old(Contents()).entries[k..])
    {
      RotateLeft(k);
      assert slots[..len - k] == old(slots[k..len]);
      ClearFrom(len - k);
      len := len - k;
      assert Unwrapped(slots[..len]) == old(Unwrapped(slots[..len]))[k..];
    }

    method Install(value: Snapshot<S>)
      requires Valid()
      modifies this, slots
      ensures Valid() && Contents() == Installed(old(Contents()), value)
    {
      if EntryId(value.last.index) == Some(value.last) {
        DropFront(value.last.index - BaseId().index);
      } else {
        ClearFrom(0);
        len := 0;
        assert Unwrapped(slots[..len]) == [];
      }
      hard := hard.(commit := Max(hard.commit, value.last.index));
      snapshot := Some(value);
    }

    /** The incremental transaction. */
    method WriteFrom(from: Option<U64>, snapshotChanged: bool) returns (w: Write<V, S>)
      requires Valid()
      ensures w == WriteOf(Contents(), from, snapshotChanged)
    {
      var offset := len;
      if from.Some? {
        var skip := from.value - BaseId().index - 1;
        offset := if skip < 0 then 0 else if skip < len then skip else len;
      }
      assert AllSome(slots[offset..len]) by {
        assert slots[offset..len] == slots[..len][offset..];
      }
      assert Unwrapped(slots[offset..len]) == Unwrapped(slots[..len])[offset..];
      w := Write(hard, if snapshotChanged then snapshot else None, from, Unwrapped(slots[offset..len]));
    }

    /** Move into a larger array, changing nothing else. */
    method Grow(cap: nat) returns (r: LogState<V, S>)
      requires Valid() && slots.Length <= cap
      ensures r.Valid() && fresh(r) && fresh(r.slots) && r.slots.Length == cap
      ensures r.Contents() == Contents()
    {
      r := new LogState(cap);
      for i := 0 to len
        invariant r.slots[..i] == slots[..i]
        invariant forall k | i <= k < cap :: r.slots[k].None?
      {
        r.slots[i] := slots[i];
      }
      r.hard, r.snapshot, r.len := hard, snapshot, len;
    }
  }

  /** State::restore: check each entry against the last one held, then push it. */
  method Restore<V, S>(hard: HardState, snapshot: Option<Snapshot<S>>, entries: seq<Entry<V>>, cap: nat)
    returns (r: Result<LogState<V, S>, Error>)
    ensures r.Ok? ==> fresh(r.value) && fresh(r.value.slots) && r.value.Valid() && r.value.slots.Length == cap
    ensures Restored(hard, snapshot, entries, cap) == (if r.Ok? then Ok(r.value.Contents()) else Err(r.error))
  {
    var state := new LogState<V, S>(cap);
    state.hard, state.snapshot := hard, snapshot;
    var base := state.BaseId();
    ghost var start := state.Contents();
    assert start == Checkpoint(hard, snapshot, []);
    if (snapshot.Some? && (base.index == 0 || base.term == 0))
       || base.term > hard.term
       || (hard.term == 0 && hard.votedFor.Some?)
    {
      return Err(State);
    }
    for i := 0 to |entries|
      invariant state.Valid() && fresh(state) && fresh(state.slots)
      invariant state.hard == hard && state.snapshot == snapshot && state.slots.Length == cap
      invariant Fed(state.Contents(), entries[i..], cap) == Fed(start, entries, cap)
    {
      var e := entries[i];
      var last := state.LastId();
      assert entries[i..][0] == e && entries[i..][1..] == entries[i + 1..];
      if last.index + 1 != e.id.index || e.id.term == 0 || e.id.term < last.term || e.id.term > hard.term {
        return Err(State);
      }
      var error := state.Push(e);
      if error.Some? {
        return Err(error.value);
      }
    }
    assert entries[|entries|..] == [];
    if hard.commit < base.index || hard.commit > state.LastId().index {
      return Err(State);
    }
    return Ok(state);
  }
}
