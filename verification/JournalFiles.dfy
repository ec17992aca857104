/**
 * The journal file of both examples: a header and then frames, each with its length, its
 * payload and a checksum. Writes may stop part-way; recovery replays the whole frames
 * and drops a torn tail (jarl/examples/support/journal.rs and dynamic_journal.rs).
 */
module JournalFiles {
  import opened Types
  import opened Words

  /** What differs between the two journals; the checksum is any fixed function. */
  datatype Format<!C> = Format(
    header: seq<Byte>, maxFrame: nat, sum: seq<Byte> -> U64,
    initial: C, apply: (C, seq<Byte>) -> Result<C, Error>)

  function Frame<C(!new)>(f: Format<C>, payload: seq<Byte>): (s: seq<Byte>)
    ensures |s| == |payload| + 12
  {
    ToLe(|payload|, 4) + payload + ToLe(f.sum(payload), 8)
  }

  /** The lengths of this journal's frames fit the four bytes they are written in, and no frame is empty. */
  ghost predicate Framed<C(!new)>(f: Format<C>) {
    f.maxFrame < 0x1_0000_0000 && forall s :: f.apply(s, []).Err?
  }

  predicate Payload<C(!new)>(f: Format<C>, payload: seq<Byte>) { 0 < |payload| <= f.maxFrame }

  datatype Recovery<+C> = Recovered(state: C, offset: nat) | Invalid

  function LengthAt(bytes: seq<Byte>, at: nat): nat
    requires at + 4 <= |bytes|
  {
    FromLe(bytes[at..at + 4])
  }

  /** The payload and the checksum of a frame of length n, if there is room for them. */
  function PayloadAt(bytes: seq<Byte>, at: nat, n: nat): (p: seq<Byte>)
    requires at + 12 + n <= |bytes|
    ensures |p| == n
  {
    bytes[at + 4..at + 4 + n]
  }

  function SumAt(bytes: seq<Byte>, at: nat, n: nat): nat
    requires at + 12 + n <= |bytes|
  {
    FromLe(bytes[at + 4 + n..at + 12 + n])
  }

  /** The loop of Journal::open from one offset on. */
  function RecoverFrom<C(!new)>(f: Format<C>, bytes: seq<Byte>, offset: nat, state: C): (r: Recovery<C>)
    requires offset <= |bytes|
    ensures r.Recovered? ==> offset <= r.offset <= |bytes|
    decreases |bytes| - offset
  {
    if |bytes| - offset < 4 then Recovered(state, offset)
    else
      var length := LengthAt(bytes, offset);
      if length == 0 || length > f.maxFrame then Invalid
      else
        if offset + 12 + length > |bytes| then Recovered(state, offset)
        else
          var payload := PayloadAt(bytes, offset, length);
          if SumAt(bytes, offset, length) != f.sum(payload) then Invalid
          else
            match f.apply(state, payload)
            case Err(_) => Invalid
            case Ok(next) => RecoverFrom(f, bytes, offset + 12 + length, next)
  }

  function Recover<C(!new)>(f: Format<C>, bytes: seq<Byte>): (r: Recovery<C>)
    ensures bytes != [] && r.Recovered? ==> r.offset <= |bytes|
  {
    if bytes == [] then Recovered(f.initial, |f.header|)
    else if |bytes| < |f.header| || bytes[..|f.header|] != f.header then Invalid
    else RecoverFrom(f, bytes, |f.header|, f.initial)
  }

  function Frames<C(!new)>(f: Format<C>, payloads: seq<seq<Byte>>): seq<Byte> {
    if payloads == [] then [] else Frame(f, payloads[0]) + Frames(f, payloads[1..])
  }

  /** Applying one payload after another. */
  function Replayed<C(!new)>(f: Format<C>, state: C, payloads: seq<seq<Byte>>): Result<C, Error> {
    if payloads == [] then Ok(state)
    else
      match f.apply(state, payloads[0])
      case Err(e) => Err(e)
      case Ok(next) => Replayed(f, next, payloads[1..])
  }

  /** What a frame looks like where it stands. */
  lemma FrameAt<C(!new)>(f: Format<C>, before: seq<Byte>, payload: seq<Byte>, after: seq<Byte>)
    requires Framed(f) && Payload(f, payload)
    ensures
      var bytes := before + Frame(f, payload) + after;
      var at := |before|;
      && LengthAt(bytes, at) == |payload|
      && PayloadAt(bytes, at, |payload|) == payload
      && SumAt(bytes, at, |payload|) == f.sum(payload)
  {
    var bytes := before + Frame(f, payload) + after;
    var at := |before|;
    FourBytes();
    EightBytes();
    LeRoundTrip(|payload|, 4);
    LeRoundTrip(f.sum(payload), 8);
    assert bytes[at..at + 4] == ToLe(|payload|, 4);
    assert bytes[at + 4 + |payload|..at + 12 + |payload|] == ToLe(f.sum(payload), 8);
  }

  /** A proper prefix of a frame. */
  ghost predicate Torn<C(!new)>(f: Format<C>, tail: seq<Byte>) {
    exists payload, n: nat :: Payload(f, payload) && n < |Frame(f, payload)| && tail == Frame(f, payload)[..n]
  }

  /** A torn tail is noticed and left out. */
  lemma TornEnds<C(!new)>(f: Format<C>, before: seq<Byte>, tail: seq<Byte>, state: C)
    requires Framed(f) && Torn(f, tail)
    ensures RecoverFrom(f, before + tail, |before|, state) == Recovered(state, |before|)
  {
    var payload, n: nat :| Payload(f, payload) && n < |Frame(f, payload)| && tail == Frame(f, payload)[..n];
    if n >= 4 {
      TornLength(f, before, payload, n);
      hide Frame;
    }
  }

  lemma TornLength<C(!new)>(f: Format<C>, before: seq<Byte>, payload: seq<Byte>, n: nat)
    requires Framed(f) && Payload(f, payload) && 4 <= n < |Frame(f, payload)|
    ensures LengthAt(before + Frame(f, payload)[..n], |before|) == |payload|
  {
    FourBytes();
    LeRoundTrip(|payload|, 4);
    hide ToLe, FromLe;
    var start, frame := ToLe(|payload|, 4), Frame(f, payload);
    assert frame[..4] == start;
    SliceAfter(before, frame[..n], 4);
    assert frame[..n][..4] == frame[..4];
  }

  lemma SliceAfter<T>(before: seq<T>, s: seq<T>, n: nat)
    requires n <= |s|
    ensures (before + s)[|before|..|before| + n] == s[..n]
  {
  }

  /** Recovery goes over one whole frame. */
  lemma RecoverStep<C(!new)>(f: Format<C>, bytes: seq<Byte>, at: nat, state: C, payload: seq<Byte>, next: C)
    requires Payload(f, payload) && at + 12 + |payload| <= |bytes|
    requires LengthAt(bytes, at) == |payload| && PayloadAt(bytes, at, |payload|) == payload
    requires SumAt(bytes, at, |payload|) == f.sum(payload) && f.apply(state, payload) == Ok(next)
    ensures RecoverFrom(f, bytes, at, state) == RecoverFrom(f, bytes, at + 12 + |payload|, next)
  {
    hide LengthAt, PayloadAt, SumAt;
  }

  lemma RecoverOne<C(!new)>(
    f: Format<C>, before: seq<Byte>, payload: seq<Byte>, after: seq<Byte>, state: C, next: C)
    requires Framed(f) && Payload(f, payload) && f.apply(state, payload) == Ok(next)
    ensures
      RecoverFrom(f, before + Frame(f, payload) + after, |before|, state) ==
      RecoverFrom(f, before + Frame(f, payload) + after, |before + Frame(f, payload)|, next)
  {
    hide Frame, LengthAt, PayloadAt, SumAt, RecoverFrom;
    FrameAt(f, before, payload, after);
    RecoverStep(f, before + Frame(f, payload) + after, |before|, state, payload, next);
  }

  /**
   * Torn-tail recovery: for whole frames followed by any proper prefix of a frame (or by
   * nothing), recovery gives the fold over the whole frames and the place the tail began.
   */
  lemma {:induction false} RecoverFrames<C(!new)>(
    f: Format<C>, before: seq<Byte>, payloads: seq<seq<Byte>>, tail: seq<Byte>, state: C)
    requires Framed(f) && (Torn(f, tail) || tail == [])
    requires forall k | 0 <= k < |payloads| :: Payload(f, payloads[k])
    requires Replayed(f, state, payloads).Ok?
    ensures
      RecoverFrom(f, before + Frames(f, payloads) + tail, |before|, state) ==
      Recovered(Replayed(f, state, payloads).value, |before| + |Frames(f, payloads)|)
    decreases |payloads|
  {
    if payloads == [] {
      NoFrames(f, before, tail, state);
    } else {
      var p, rest := payloads[0], Frames(f, payloads[1..]);
      var next := f.apply(state, p).value;
      hide Frame, Torn, RecoverFrom;
      FirstFrame(f, payloads);
      hide Frames;
      Regroup(before, Frame(f, p), rest, tail);
      RecoverOne(f, before, p, rest + tail, state, next);
      RecoverFrames(f, before + Frame(f, p), payloads[1..], tail, next);
    }
  }

  lemma FirstFrame<C(!new)>(f: Format<C>, payloads: seq<seq<Byte>>)
    requires payloads != []
    ensures Frames(f, payloads) == Frame(f, payloads[0]) + Frames(f, payloads[1..])
  {
  }

  lemma NothingLeft<C(!new)>(f: Format<C>, bytes: seq<Byte>, state: C)
    ensures RecoverFrom(f, bytes, |bytes|, state) == Recovered(state, |bytes|)
  {
  }

  lemma NoFrames<C(!new)>(f: Format<C>, before: seq<Byte>, tail: seq<Byte>, state: C)
    requires Framed(f) && (Torn(f, tail) || tail == [])
    ensures RecoverFrom(f, before + Frames(f, []) + tail, |before|, state) == Recovered(state, |before|)
  {
    hide RecoverFrom, Torn;
    assert before + Frames(f, []) + tail == before + tail;
    if tail == [] {
      assert before + tail == before;
      NothingLeft(f, before, state);
    } else {
      TornEnds(f, before, tail, state);
    }
  }

  lemma Regroup<T>(before: seq<T>, a: seq<T>, rest: seq<T>, tail: seq<T>)
    ensures before + (a + rest) + tail == before + a + (rest + tail)
    ensures (before + a) + rest + tail == before + a + (rest + tail)
  {
  }

  /** The same for a whole file. */
  lemma RecoverFile<C(!new)>(f: Format<C>, payloads: seq<seq<Byte>>, tail: seq<Byte>)
    requires Framed(f) && f.header != [] && (Torn(f, tail) || tail == [])
    requires forall k | 0 <= k < |payloads| :: Payload(f, payloads[k])
    requires Replayed(f, f.initial, payloads).Ok?
    ensures
      Recover(f, f.header + Frames(f, payloads) + tail) ==
      Recovered(Replayed(f, f.initial, payloads).value, |f.header| + |Frames(f, payloads)|)
  {
    var bytes := f.header + Frames(f, payloads) + tail;
    assert bytes[..|f.header|] == f.header;
    RecoverFrames(f, f.header, payloads, tail, f.initial);
  }

  // ---- Writing.

  lemma {:induction false} FramesSnoc<C(!new)>(f: Format<C>, payloads: seq<seq<Byte>>, p: seq<Byte>)
    ensures Frames(f, payloads + [p]) == Frames(f, payloads) + Frame(f, p)
    decreases |payloads|
  {
    if payloads == [] {
      assert payloads + [p] == [p] && [p][1..] == [];
    } else {
      FramesSnoc(f, payloads[1..], p);
      assert (payloads + [p])[1..] == payloads[1..] + [p];
    }
  }

  lemma {:induction false} ReplayedSnoc<C(!new)>(f: Format<C>, state: C, payloads: seq<seq<Byte>>, p: seq<Byte>)
    requires Replayed(f, state, payloads).Ok?
    ensures Replayed(f, state, payloads + [p]) == f.apply(Replayed(f, state, payloads).value, p)
    decreases |payloads|
  {
    if payloads == [] {
      assert payloads + [p] == [p] && [p][1..] == [];
    } else {
      ReplayedSnoc(f, f.apply(state, payloads[0]).value, payloads[1..], p);
      assert (payloads + [p])[1..] == payloads[1..] + [p];
    }
  }

  /** The file is a header, whole frames, and possibly a torn one. */
  ghost predicate FileHolds<C(!new)>(f: Format<C>, file: seq<Byte>, payloads: seq<seq<Byte>>, tail: seq<Byte>,
      state: C) {
    && file == f.header + Frames(f, payloads) + tail
    && (Torn(f, tail) || tail == [])
    && (forall k | 0 <= k < |payloads| :: Payload(f, payloads[k]))
    && Replayed(f, f.initial, payloads) == Ok(state)
  }

  /** How much of a write reached the disk, and whether the host was told it all did. */
  datatype Landing = Landing(bytes: nat, synced: bool)

  /** The state in memory, the file, and in ghost what the file holds. */
  class Journal<C(!new)> {
    const format: Format<C>
    var file: seq<Byte>
    var state: C
    var failed: bool
    ghost var payloads: seq<seq<Byte>>
    ghost var tail: seq<Byte>
    ghost var durable: C

    /** While nothing failed, the state in memory is what recovery would give. */
    ghost predicate Valid()
      reads this
    {
      && Framed(format) && format.header != []
      && FileHolds(format, file, payloads, tail, durable)
      && (!failed ==> tail == [] && state == durable)
    }

    constructor (format: Format<C>, file: seq<Byte>, state: C, ghost payloads: seq<seq<Byte>>)
      requires Framed(format) && format.header != [] && FileHolds(format, file, payloads, [], state)
      ensures Valid() && !failed && this.format == format && this.file == file && this.state == state
    {
      this.format, this.file, this.state, failed := format, file, state, false;
      this.payloads, tail, durable := payloads, [], state;
    }

    /**
     * Journal::save_encoded: check the payload against the state, then append its frame.
     * `landing` is what the disk does with the write.
     */
    method Save(payload: seq<Byte>, landing: Landing) returns (ok: bool)
      requires Valid() && (landing.synced ==> landing.bytes >= |payload| + 12)
      modifies this
      ensures Valid()
      ensures
        var next := format.apply(old(state), payload);
        && (ok <==> !old(failed) && next.Ok? && |payload| <= format.maxFrame && landing.synced)
        && (ok ==> !failed && state == next.value && file == old(file) + Frame(format, payload))
        && (!ok ==> state == old(state))
        && (if old(failed) || next.Err? || |payload| > format.maxFrame
            then file == old(file) && failed == old(failed)
            else
              && failed == !ok
              && file == old(file) + Frame(format, payload)[..if landing.bytes < |payload| + 12 then landing.bytes
                  else |payload| + 12])
      ensures Recover(format, file) == Recovered(durable, |format.header| + |Frames(format, payloads)|)
      ensures !failed ==> Recover(format, file) == Recovered(state, |file|)
      ensures durable == old(durable) || (!old(failed) && format.apply(old(state), payload) == Ok(durable))
    {
      RecoverFile(format, payloads, tail);
      assert file == format.header + Frames(format, payloads) + tail;
      if failed {
        return false;
      }
      var next := format.apply(state, payload);
      if next.Err? || |payload| > format.maxFrame {
        return false;
      }
      assert payload != [];
      var frame := Frame(format, payload);
      assert frame[..|payload| + 12] == frame;
      failed := true;
      if landing.bytes < |frame| {
        WriteTorn(frame, landing.bytes, payload);
        return false;
      }
      WriteWhole(frame, payload, next.value);
      if !landing.synced {
        // The bytes are there, but nobody knows: memory stays behind until a reopening.
        return false;
      }
      state := next.value;
      failed := false;
      return true;
    }

    /** A write that stopped part-way. */
    method WriteTorn(frame: seq<Byte>, n: nat, payload: seq<Byte>)
      requires Valid() && failed && tail == [] && Payload(format, payload)
      requires frame == Frame(format, payload) && n < |frame|
      modifies this`file, this`tail
      ensures Valid() && file == old(file) + frame[..n]
      ensures Recover(format, file) == Recovered(durable, |format.header| + |Frames(format, payloads)|)
    {
      file := file + frame[..n];
      tail := frame[..n];
      assert Torn(format, tail);
      assert file == format.header + Frames(format, payloads) + tail;
      RecoverFile(format, payloads, tail);
    }

    /** A write that reached the file in full. */
    method WriteWhole(frame: seq<Byte>, payload: seq<Byte>, next: C)
      requires Valid() && failed && tail == [] && Payload(format, payload)
      requires frame == Frame(format, payload) && format.apply(durable, payload) == Ok(next)
      modifies this`file, this`payloads, this`durable
      ensures Valid() && durable == next && file == old(file) + frame
      ensures Recover(format, file) == Recovered(durable, |format.header| + |Frames(format, payloads)|)
      ensures |file| == |format.header| + |Frames(format, payloads)|
    {
      FramesSnoc(format, payloads, payload);
      ReplayedSnoc(format, format.initial, payloads, payload);
      file := file + frame;
      payloads := payloads + [payload];
      durable := next;
      assert file == format.header + Frames(format, payloads) + tail;
      RecoverFile(format, payloads, tail);
    }
  }

  /** The bytes of a frame that recovery accepted are exactly that frame. */
  lemma AcceptedFrame<C(!new)>(f: Format<C>, bytes: seq<Byte>, at: nat)
    requires at + 4 <= |bytes| && at + 12 + LengthAt(bytes, at) <= |bytes|
    requires
      var n := LengthAt(bytes, at);
      SumAt(bytes, at, n) == f.sum(PayloadAt(bytes, at, n))
    ensures
      var n := LengthAt(bytes, at);
      bytes[..at + 12 + n] == bytes[..at] + Frame(f, PayloadAt(bytes, at, n))
  {
    var n := LengthAt(bytes, at);
    LeBack(bytes[at..at + 4]);
    LeBack(bytes[at + 4 + n..at + 12 + n]);
    assert bytes[..at + 12 + n] ==
           bytes[..at] + (bytes[at..at + 4] + bytes[at + 4..at + 4 + n] + bytes[at + 4 + n..at + 12 + n]);
  }

  lemma JoinLeft<T>(a: seq<T>, b: seq<T>, c: seq<T>)
    ensures (a + b) + c == a + (b + c)
  {
  }

  /** What the recovery loop has read once it stands at an offset. */
  ghost predicate Scanned<C(!new)>(f: Format<C>, bytes: seq<Byte>, at: nat, current: C, payloads: seq<seq<Byte>>) {
    && |f.header| <= at <= |bytes|
    && bytes[..at] == f.header + Frames(f, payloads)
    && Replayed(f, f.initial, payloads) == Ok(current)
    && (forall k | 0 <= k < |payloads| :: Payload(f, payloads[k]))
  }

  lemma ScanStart<C(!new)>(f: Format<C>, bytes: seq<Byte>)
    requires |bytes| >= |f.header| && bytes[..|f.header|] == f.header
    ensures Scanned(f, bytes, |f.header|, f.initial, [])
  {
    assert f.header + [] == bytes[..|f.header|];
  }

  lemma ScanStep<C(!new)>(
    f: Format<C>, bytes: seq<Byte>, at: nat, current: C, payloads: seq<seq<Byte>>, payload: seq<Byte>, next: C)
    requires Scanned(f, bytes, at, current, payloads)
    requires at + 4 <= |bytes| && |payload| == LengthAt(bytes, at) && at + 12 + |payload| <= |bytes|
    requires Payload(f, payload) && payload == PayloadAt(bytes, at, |payload|)
    requires SumAt(bytes, at, |payload|) == f.sum(payload) && f.apply(current, payload) == Ok(next)
    ensures Scanned(f, bytes, at + 12 + |payload|, next, payloads + [payload])
    ensures RecoverFrom(f, bytes, at, current) == RecoverFrom(f, bytes, at + 12 + |payload|, next)
  {
    hide LengthAt, PayloadAt, SumAt, Frame, Frames, Replayed, RecoverFrom;
    AcceptedFrame(f, bytes, at);
    RecoverStep(f, bytes, at, current, payload, next);
    FramesSnoc(f, payloads, payload);
    ReplayedSnoc(f, f.initial, payloads, payload);
    JoinLeft(f.header, Frames(f, payloads), Frame(f, payload));
  }

  /**
   * Conversely, what recovery gives is the fold over the whole frames that the file really
   * holds up to that offset, and after it there is no further whole frame.
   */
  lemma {:induction false} RecoveredScans<C(!new)>(
    f: Format<C>, bytes: seq<Byte>, at: nat, current: C, payloads: seq<seq<Byte>>) returns (all: seq<seq<Byte>>)
    requires Framed(f) && Scanned(f, bytes, at, current, payloads) && RecoverFrom(f, bytes, at, current).Recovered?
    ensures
      var r := RecoverFrom(f, bytes, at, current);
      && Scanned(f, bytes, r.offset, r.state, all)
      && (|bytes| - r.offset < 4 || r.offset + 12 + LengthAt(bytes, r.offset) > |bytes|)
    decreases |bytes| - at
  {
    hide Scanned, LengthAt, PayloadAt, SumAt;
    all := payloads;
    if |bytes| - at >= 4 && at + 12 + LengthAt(bytes, at) <= |bytes| {
      var payload := PayloadAt(bytes, at, LengthAt(bytes, at));
      var next := f.apply(current, payload).value;
      ScanStep(f, bytes, at, current, payloads, payload, next);
      all := RecoveredScans(f, bytes, at + 12 + |payload|, next, payloads + [payload]);
    }
  }

  lemma ScannedHolds<C(!new)>(f: Format<C>, bytes: seq<Byte>, at: nat, current: C, payloads: seq<seq<Byte>>)
    requires Scanned(f, bytes, at, current, payloads)
    ensures FileHolds(f, bytes[..at], payloads, [], current)
  {
    hide Frames, Replayed;
    assert bytes[..at] == f.header + Frames(f, payloads) + [];
  }

  /** Journal::open on the bytes a directory holds, whatever they are. */
  method Open<C(!new)>(format: Format<C>, bytes: seq<Byte>) returns (r: Result<Journal<C>, Error>)
    requires Framed(format) && format.header != []
    ensures r.Ok? <==> Recover(format, bytes).Recovered?
    ensures r.Ok? ==>
              && fresh(r.value) && r.value.Valid() && !r.value.failed && r.value.format == format
              && r.value.state == Recover(format, bytes).state
              && r.value.file == if bytes == [] then format.header else bytes[..Recover(format, bytes).offset]
  {
    var content := if bytes == [] then format.header else bytes;
    if |content| < |format.header| || content[..|format.header|] != format.header {
      return Err(State);
    }
    var at := |format.header|;
    var current := format.initial;
    ghost var payloads: seq<seq<Byte>> := [];
    ScanStart(format, content);
    hide Scanned, FileHolds, LengthAt, PayloadAt, SumAt, Frame, Frames, Replayed;
    while |content| - at >= 4
      invariant at <= |content| && Scanned(format, content, at, current, payloads)
      invariant RecoverFrom(format, content, at, current) ==
                RecoverFrom(format, content, |format.header|, format.initial)
      decreases |content| - at
    {
      var length := LengthAt(content, at);
      if length == 0 || length > format.maxFrame {
        return Err(State);
      }
      var end := at + 4 + length + 8;
      if end > |content| {
        break;
      }
      var payload := PayloadAt(content, at, length);
      if SumAt(content, at, length) != format.sum(payload) {
        return Err(State);
      }
      var next := format.apply(current, payload);
      if next.Err? {
        return Err(State);
      }
      ScanStep(format, content, at, current, payloads, payload, next.value);
      payloads := payloads + [payload];
      current := next.value;
      at := end;
    }
    ScannedHolds(format, content, at, current, payloads);
    var journal := new Journal(format, content[..at], current, payloads);
    return Ok(journal);
  }
}
