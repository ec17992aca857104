/**
 * The transaction format of the fixed three-voter example journal
 * (jarl/examples/support/journal.rs): printing, parsing, and applying.
 */
module FixedJournals {
  import opened Types
  import opened Checkpoints
  import opened LocalHistory
  import opened Words
  import opened JournalFiles

  const CAP: nat := 8
  const VOTERS: nat := 3
  const MAX_FRAME: nat := 80 + 32 * CAP

  type Transaction = Write<U64, U64>
  type Disk = Checkpoint<U64, U64>

  function SnapshotWords(s: Option<Snapshot<U64>>): seq<U64> {
    if s.Some? then [1, s.value.last.index, s.value.last.term, s.value.value] else [0]
  }

  function EntryWords(e: Entry<U64>): (ws: seq<U64>)
    ensures |ws| == 4
  {
    [e.id.index, e.id.term, FlagWord(e.value.Some?), if e.value.Some? then e.value.value else 0]
  }

  function EntriesWords(es: seq<Entry<U64>>): (ws: seq<U64>)
    ensures |ws| == 4 * |es|
  {
    if es == [] then [] else EntryWords(es[0]) + EntriesWords(es[1..])
  }

  function VoteWord(v: Option<Id>): U64 { if v.Some? then v.value.n else MAX_U64 }

  function Printed(w: Transaction): seq<U64>
    requires |w.entries| <= MAX_U64
  {
    [w.hard.term, VoteWord(w.hard.votedFor), w.hard.commit] +
    (SnapshotWords(w.snapshot) + (OptionWords(w.truncateFrom) + ([|w.entries|] + EntriesWords(w.entries))))
  }

  lemma {:induction false} EntryPlace(es: seq<Entry<U64>>, i: nat)
    requires i < |es|
    ensures EntriesWords(es)[4 * i..4 * i + 4] == EntryWords(es[i])
    decreases i
  {
    if i > 0 {
      EntryPlace(es[1..], i - 1);
      assert EntriesWords(es) == EntryWords(es[0]) + EntriesWords(es[1..]);
      assert EntriesWords(es)[4 * i..4 * i + 4] == EntriesWords(es[1..])[4 * (i - 1)..4 * (i - 1) + 4];
    }
  }

  /** Where the list of entries starts: after the hard state, the snapshot and the truncation. */
  function ListPlace(w: Transaction): nat {
    (if w.snapshot.Some? then 7 else 4) + if w.truncateFrom.Some? then 2 else 1
  }

  /** Which word of a transaction says what, up to the list of entries. */
  lemma HeadLayout(w: Transaction)
    requires |w.entries| <= CAP
    ensures
      var ws, b := Printed(w), ListPlace(w);
      && b < |ws| && ws[b] == |w.entries| && ws[b + 1..] == EntriesWords(w.entries)
      && ws[0] == w.hard.term && ws[2] == w.hard.commit
      && ws[1] == (if w.hard.votedFor.Some? then w.hard.votedFor.value.n else MAX_U64)
      && ws[3] == (if w.snapshot.Some? then 1 else 0)
      && (w.snapshot.Some? ==>
            ws[4] == w.snapshot.value.last.index && ws[5] == w.snapshot.value.last.term
                && ws[6] == w.snapshot.value.value)
      && (if w.truncateFrom.Some? then ws[b - 2] == 1 && ws[b - 1] == w.truncateFrom.value else ws[b - 1] == 0)
  {
    hide EntriesWords;
  }

  /** Which word of the list says what about entry i. */
  lemma ListLayout(w: Transaction, i: nat)
    requires |w.entries| <= CAP && i < |w.entries|
    ensures
      var ws, b, e := Printed(w), ListPlace(w), w.entries[i];
      && |ws| == b + 1 + 4 * |w.entries|
      && ws[b + 1 + 4 * i] == e.id.index && ws[b + 2 + 4 * i] == e.id.term
      && ws[b + 3 + 4 * i] == (if e.value.Some? then 1 else 0)
      && ws[b + 4 + 4 * i] == if e.value.Some? then e.value.value else 0
  {
    HeadLayout(w);
    EntryPlace(w.entries, i);
    hide Printed, ListPlace, EntriesWords;
    var list, four := EntriesWords(w.entries), EntryWords(w.entries[i]);
    assert four[0] == list[4 * i] && four[1] == list[4 * i + 1] && four[2] == list[4 * i + 2]
        && four[3] == list[4 * i + 3];
  }

  // ---- Parsing.

  function ReadSnapshot(ws: seq<U64>): Read<Option<Snapshot<U64>>> {
    match ReadFlag(ws)
    case Bad => Bad
    case Read(present, rest) =>
      if !present then Read(None, rest)
      else if |rest| < 3 then Bad
      else Read(Some(Snapshot(LogId(rest[0], rest[1]), rest[2])), rest[3..])
  }

  function ReadEntry(ws: seq<U64>): Read<Entry<U64>> {
    if |ws| < 4 || ws[2] > 1 then Bad
    else Read(Entry(LogId(ws[0], ws[1]), if ws[2] == 1 then Some(ws[3]) else None), ws[4..])
  }

  function ReadEntries(ws: seq<U64>, count: nat): Read<seq<Entry<U64>>> {
    ReadMany(ReadEntry, ws, count)
  }

  function Parsed(ws: seq<U64>): Option<Transaction> {
    if |ws| < 3 || (ws[1] != MAX_U64 && ws[1] >= VOTERS) then None
    else
      var hard := HardState(ws[0], if ws[1] != MAX_U64 then Some(Id(ws[1])) else None, ws[2]);
      match ReadSnapshot(ws[3..])
      case Bad => None
      case Read(snapshot, afterSnapshot) =>
        match ReadOption(afterSnapshot)
        case Bad => None
        case Read(truncate, afterTruncate) =>
          match ReadWord(afterTruncate)
          case Bad => None
          case Read(count, afterCount) =>
            if count > CAP then None
            else
              match ReadEntries(afterCount, count)
              case Bad => None
              case Read(entries, rest) =>
                if rest != [] then None else Some(Write(hard, snapshot, truncate, entries))
  }

  // ---- Round trip.

  lemma SnapshotBack(s: Option<Snapshot<U64>>, rest: seq<U64>)
    ensures ReadSnapshot(SnapshotWords(s) + rest) == Read(s, rest)
  {
    var ws := SnapshotWords(s) + rest;
    if s.Some? {
      assert ws[1..][3..] == rest;
    } else {
      assert ws[1..] == rest;
    }
  }

  lemma EntryBack(e: Entry<U64>, rest: seq<U64>)
    ensures ReadEntry(EntryWords(e) + rest) == Read(e, rest)
  {
    assert (EntryWords(e) + rest)[4..] == rest;
  }

  lemma {:induction false} EntriesBack(es: seq<Entry<U64>>, rest: seq<U64>)
    ensures ReadEntries(EntriesWords(es) + rest, |es|) == Read(es, rest)
    decreases |es|
  {
    if es == [] {
      assert EntriesWords(es) + rest == rest;
    } else {
      assert EntriesWords(es) + rest == EntryWords(es[0]) + (EntriesWords(es[1..]) + rest);
      EntryBack(es[0], EntriesWords(es[1..]) + rest);
      EntriesBack(es[1..], rest);
      assert [es[0]] + es[1..] == es;
    }
  }

  /** A vote for one of the three voters, or none. */
  predicate KnownVote(v: Option<Id>) { v.Some? ==> v.value.n < VOTERS }

  /** Parsing gives back exactly the transaction that was printed. */
  lemma PrintedParses(w: Transaction)
    requires |w.entries| <= CAP && KnownVote(w.hard.votedFor)
    ensures Parsed(Printed(w)) == Some(w)
  {
    hide ReadSnapshot, ReadOption, ReadEntries, SnapshotWords, OptionWords, EntriesWords;
    var ws := Printed(w);
    var tail := [|w.entries|] + EntriesWords(w.entries);
    SnapshotBack(w.snapshot, OptionWords(w.truncateFrom) + tail);
    OptionBack(w.truncateFrom, tail);
    ReadBack(|w.entries|, EntriesWords(w.entries));
    assert EntriesWords(w.entries) + [] == EntriesWords(w.entries);
    EntriesBack(w.entries, []);
    assert ws[3..] == SnapshotWords(w.snapshot) + (OptionWords(w.truncateFrom) + tail);
  }

  // ---- Applying.

  function Encoded(w: Transaction): seq<Byte>
    requires |w.entries| <= MAX_U64
  {
    Flat(Printed(w))
  }

  /** What the journal does with a payload: parse, apply to what is saved, restore. */
  function ApplyPayload(saved: Disk, bytes: seq<Byte>): Result<Disk, Error> {
    if |bytes| % 8 != 0 then Err(State)
    else
      match Parsed(WordsIn(bytes))
      case None => Err(State)
      case Some(w) =>
        var next := Applied(saved, w);
        match Restored(next.hard, next.snapshot, next.entries, CAP)
        case Err(_) => Err(State)
        case Ok(s) => Ok(s)
  }

  /** Replaying an encoded transaction on the saved state gives exactly the node's new state. */
  lemma ReplayIsNewState(saved: Disk, s: Disk, from: Option<U64>, changed: bool)
    requires WellFormed(saved) && WellFormed(s) && Delta(saved, s, from, changed)
    requires |s.entries| <= CAP && KnownVote(s.hard.votedFor)
    ensures ApplyPayload(saved, Encoded(WriteOf(s, from, changed))) == Ok(s)
  {
    hide Parsed, Printed, WellFormed, Delta, Restored, Applied, Flat, WordsIn;
    var w := WriteOf(s, from, changed);
    assert |w.entries| <= |s.entries|;
    WordsRoundTrip(Printed(w));
    FlatSize(Printed(w));
    PrintedParses(w);
    DeltaApplies(saved, s, from, changed);
    RestoreExactly(s, CAP);
  }

  /** The frame limit is exact: every transaction fits, and the largest one reaches it. */
  lemma FrameLimitIsExact(w: Transaction)
    requires |w.entries| <= CAP
    ensures 0 < |Encoded(w)| <= MAX_FRAME
    ensures |w.entries| == CAP && w.snapshot.Some? && w.truncateFrom.Some? <==> |Encoded(w)| == MAX_FRAME
  {
    FlatSize(Printed(w));
    hide Flat, EntriesWords;
    assert |EntriesWords(w.entries)| == 4 * |w.entries| by { EntriesSize(w.entries); }
  }

  lemma EntriesSize(es: seq<Entry<U64>>)
    ensures |EntriesWords(es)| == 4 * |es|
  {
  }

  /** The journal of this format, whatever its header and checksum. */
  function JournalFormat(header: seq<Byte>, sum: seq<Byte> -> U64): Format<Disk> {
    Format(header, MAX_FRAME, sum, Empty(), (saved, bytes) => ApplyPayload(saved, bytes))
  }

  /** No transaction is empty. */
  lemma EmptyRefused(saved: Disk)
    ensures ApplyPayload(saved, []).Err?
  {
    assert WordsIn([]) == [];
  }

  /** Saving what a node emits never fails for its contents: it fits a frame and replays to the node's state. */
  lemma EmittedCanBeSaved(
    header: seq<Byte>, sum: seq<Byte> -> U64, saved: Disk, s: Disk, from: Option<U64>, changed: bool)
    requires WellFormed(saved) && WellFormed(s) && Delta(saved, s, from, changed)
    requires |s.entries| <= CAP && KnownVote(s.hard.votedFor)
    ensures
      var f := JournalFormat(header, sum);
      var payload := Encoded(WriteOf(s, from, changed));
      Framed(f) && Payload(f, payload) && f.apply(saved, payload) == Ok(s)
  {
    hide WellFormed, Delta, ApplyPayload, Printed, Flat;
    forall x: Disk ensures ApplyPayload(x, []).Err? {
      EmptyRefused(x);
    }
    ReplayIsNewState(saved, s, from, changed);
    FrameLimitIsExact(WriteOf(s, from, changed));
  }

  // ---- The loops of encode and apply.

  /** encode: push the words, then lay out their bytes. */
  method Encode(w: Transaction) returns (bytes: seq<Byte>)
    requires |w.entries| <= MAX_U64
    ensures bytes == Encoded(w)
  {
    var words := [w.hard.term, VoteWord(w.hard.votedFor), w.hard.commit];
    words := words + [FlagWord(w.snapshot.Some?)];
    if w.snapshot.Some? {
      words := words + [w.snapshot.value.last.index, w.snapshot.value.last.term, w.snapshot.value.value];
    }
    words := words + [FlagWord(w.truncateFrom.Some?)];
    if w.truncateFrom.Some? {
      words := words + [w.truncateFrom.value];
    }
    words := words + [|w.entries|];
    assert w.entries[0..] == w.entries;
    assert words + EntriesWords(w.entries) == Printed(w);
    for i := 0 to |w.entries|
      invariant words + EntriesWords(w.entries[i..]) == Printed(w)
    {
      var e := w.entries[i];
      assert w.entries[i..][0] == e && w.entries[i..][1..] == w.entries[i + 1..];
      assert words + (EntryWords(e) + EntriesWords(w.entries[i + 1..])) ==
             (words + EntryWords(e)) + EntriesWords(w.entries[i + 1..]);
      words := words + [e.id.index, e.id.term, FlagWord(e.value.Some?), if e.value.Some? then e.value.value else 0];
    }
    assert words == Printed(w);
    bytes := Flatten(words);
  }

  method TakeSnapshot(bytes: seq<Byte>, k: nat) returns (got: Option<(Option<Snapshot<U64>>, nat)>)
    requires k <= |bytes| / 8
    ensures Took(ReadSnapshot(Rest(bytes, k)), bytes, got)
  {
    var present := TakeFlag(bytes, k);
    if present.None? {
      return None;
    }
    if !present.value.0 {
      return Some((None, present.value.1));
    }
    var index := TakeWord(bytes, present.value.1);
    if index.None? {
      return None;
    }
    var term := TakeWord(bytes, index.value.1);
    if term.None? {
      return None;
    }
    var value := TakeWord(bytes, term.value.1);
    if value.None? {
      return None;
    }
    assert Rest(bytes, present.value.1)[3..] == Rest(bytes, value.value.1);
    return Some((Some(Snapshot(LogId(index.value.0, term.value.0), value.value.0)), value.value.1));
  }

  method TakeEntry(bytes: seq<Byte>, k: nat) returns (got: Option<(Entry<U64>, nat)>)
    requires k <= |bytes| / 8
    ensures Took(ReadEntry(Rest(bytes, k)), bytes, got)
  {
    var index := TakeWord(bytes, k);
    if index.None? {
      return None;
    }
    var term := TakeWord(bytes, index.value.1);
    if term.None? {
      return None;
    }
    ghost var rest := Rest(bytes, term.value.1);
    var present := TakeFlag(bytes, term.value.1);
    if present.None? {
      return None;
    }
    var value := TakeWord(bytes, present.value.1);
    if value.None? {
      return None;
    }
    assert Rest(bytes, k)[4..] == Rest(bytes, value.value.1);
    return Some((Entry(LogId(index.value.0, term.value.0), if present.value.0 then Some(value.value.0) else None),
                 value.value.1));
  }

  method TakeEntries(bytes: seq<Byte>, k: nat, count: nat) returns (got: Option<(seq<Entry<U64>>, nat)>)
    requires k <= |bytes| / 8
    ensures Took(ReadEntries(Rest(bytes, k), count), bytes, got)
  {
    hide Rest, ReadEntry;
    var log: seq<Entry<U64>> := [];
    var at: nat := k;
    var i: nat := 0;
    ghost var whole := ReadEntries(Rest(bytes, k), count);
    if whole.Read? {
      assert [] + whole.value == whole.value;
    }
    while i < count
      invariant i <= count && at <= |bytes| / 8
      invariant whole == match ReadEntries(Rest(bytes, at), count - i)
                         case Bad => Bad
                         case Read(es, rest) => Read(log + es, rest)
    {
      MoreRead(ReadEntry, log, Rest(bytes, at), count - i, whole);
      var e := TakeEntry(bytes, at);
      if e.None? {
        return None;
      }
      log := log + [e.value.0];
      at := e.value.1;
      i := i + 1;
    }
    assert log + [] == log;
    return Some((log, at));
  }

  /** apply: read with a cursor, keep what survives, append, and restore. */
  method Apply(saved: Disk, bytes: seq<Byte>) returns (r: Result<Disk, Error>)
    ensures r == ApplyPayload(saved, bytes)
  {
    hide Restored, ReadEntries, ReadOption, ReadSnapshot, WordsIn;
    var w := TakeTransaction(bytes);
    if w.None? {
      return Err(State);
    }
    var next := Applied(saved, w.value);
    var restored := Restored(next.hard, next.snapshot, next.entries, CAP);
    return if restored.Ok? then Ok(restored.value) else Err(State);
  }

  /** Reading a whole payload: every byte of it, and nothing but words. */
  method TakeTransaction(bytes: seq<Byte>) returns (w: Option<Transaction>)
    ensures w == if |bytes| % 8 == 0 then Parsed(WordsIn(bytes)) else None
  {
    hide ReadEntries, ReadOption, ReadSnapshot, WordsIn;
    assert Rest(bytes, 0) == WordsIn(bytes[..8 * (|bytes| / 8)]);
    assert |bytes| % 8 == 0 ==> bytes[..8 * (|bytes| / 8)] == bytes;
    ghost var ws := Rest(bytes, 0);
    RestSize(bytes, 0);
    var term := TakeWord(bytes, 0);
    if term.None? {
      return None;
    }
    var vote := TakeWord(bytes, term.value.1);
    if vote.None? || (vote.value.0 != MAX_U64 && vote.value.0 >= VOTERS) {
      return None;
    }
    var commit := TakeWord(bytes, vote.value.1);
    if commit.None? {
      return None;
    }
    assert ws[3..] == Rest(bytes, 3);
    hide Rest;
    var hard := HardState(term.value.0, if vote.value.0 != MAX_U64 then Some(Id(vote.value.0)) else None,
        commit.value.0);
    var snapshot := TakeSnapshot(bytes, commit.value.1);
    if snapshot.None? {
      return None;
    }
    var truncate := TakeOption(bytes, snapshot.value.1);
    if truncate.None? {
      return None;
    }
    var count := TakeWord(bytes, truncate.value.1);
    if count.None? || count.value.0 > CAP {
      return None;
    }
    var entries := TakeEntries(bytes, count.value.1, count.value.0);
    if entries.None? {
      return None;
    }
    RestSize(bytes, entries.value.1);
    if 8 * entries.value.1 != |bytes| {
      return None;
    }
    return Some(Write(hard, snapshot.value.0, truncate.value.0, entries.value.0));
  }
}
