/**
 * The transaction format of the runtime-membership example journal
 * (jarl/examples/support/dynamic_journal.rs). A membership is written as its three
 * lists and read back by Membership::restore, so it comes back as the same sets,
 * possibly in other slots.
 */
module DynamicJournals {
  import opened Types
  import opened Checkpoints
  import opened LocalHistory
  import opened Memberships
  import opened MembershipSets
  import opened MembershipChanges
  import opened MembershipTables
  import opened Clusters
  import opened Words
  import opened JournalFiles

  const MAX: nat := 6
  const CAP: nat := 64
  const MAX_FRAME: nat := 65536

  type Value = Record<U64>
  type Snap = Bundle<U64>
  type Transaction = Write<Value, Snap>
  type Disk = Checkpoint<Value, Snap>

  // ---- Printing.

  function IdWords(ids: seq<Id>): (ws: seq<U64>)
    ensures |ws| == |ids|
  {
    seq(|ids|, k requires 0 <= k < |ids| => ids[k].n)
  }

  function ListWords(ids: seq<Id>): seq<U64>
    requires |ids| <= MAX
  {
    [|ids|] + IdWords(ids)
  }

  predicate SlotsFit(m: Roster) { |m.slots| == MAX }

  lemma {:induction false} ListSize(slots: seq<Option<Member>>, kind: Kind)
    ensures |ListOf(slots, kind)| <= |slots|
    decreases |slots|
  {
    if slots != [] {
      ListSize(slots[..|slots| - 1], kind);
    }
  }

  function MembershipWords(m: Roster): seq<U64>
    requires SlotsFit(m)
  {
    ListSize(m.slots, Voters);
    ListSize(m.slots, OldVoters);
    ListSize(m.slots, Learners);
    ListWords(ListOf(m.slots, Voters)) + (ListWords(ListOf(m.slots, OldVoters)) + ListWords(ListOf(m.slots, Learners)))
  }

  predicate RecordFits(r: Value) { r.Configuration? ==> SlotsFit(r.membership) }

  predicate EntryFits(e: Entry<Value>) { e.value.Some? ==> RecordFits(e.value.value) }

  predicate EntriesFit(es: seq<Entry<Value>>) { forall k | 0 <= k < |es| :: EntryFits(es[k]) }

  predicate SnapshotFits(s: Option<Snapshot<Snap>>) { s.Some? ==> SlotsFit(s.value.value.membership) }

  function ValueWords(v: Option<Value>): seq<U64>
    requires v.Some? ==> RecordFits(v.value)
  {
    match v
    case None => [0]
    case Some(Command(c)) => [1, c]
    case Some(Configuration(m)) => [2] + MembershipWords(m)
  }

  function EntryWords(e: Entry<Value>): seq<U64>
    requires EntryFits(e)
  {
    [e.id.index, e.id.term] + ValueWords(e.value)
  }

  function EntriesWords(es: seq<Entry<Value>>): seq<U64>
    requires EntriesFit(es)
  {
    if es == [] then [] else EntryWords(es[0]) + EntriesWords(es[1..])
  }

  function SnapshotWords(s: Option<Snapshot<Snap>>): seq<U64>
    requires SnapshotFits(s)
  {
    if s.Some? then
      [1, s.value.last.index, s.value.last.term, s.value.value.application]
      + MembershipWords(s.value.value.membership)
    else [0]
  }

  predicate Printable(w: Transaction) {
    SnapshotFits(w.snapshot) && EntriesFit(w.entries) && |w.entries| <= CAP
  }

  function CountWord<T>(s: seq<T>): (ws: seq<U64>)
    requires |s| <= MAX_U64
    ensures ws == [|s|]
  {
    var count: U64 := |s|;
    [count]
  }

  function HardWords(hard: HardState): seq<U64> {
    [hard.term, FlagWord(hard.votedFor.Some?), if hard.votedFor.Some? then hard.votedFor.value.n else 0, hard.commit]
  }

  function Printed(w: Transaction): seq<U64>
    requires Printable(w)
  {
    HardWords(w.hard) +
    (SnapshotWords(w.snapshot) + (OptionWords(w.truncateFrom) + (CountWord(w.entries) + EntriesWords(w.entries))))
  }

  // ---- Which word says what.

  /** Three lists, each after its length: the voters, the old voters and the learners. */
  ghost predicate ListsSets(ws: seq<U64>, m: Roster) {
    var v, o, l := ListOf(m.slots, Voters), ListOf(m.slots, OldVoters), ListOf(m.slots, Learners);
    && |ws| == 3 + |v| + |o| + |l| && ws[0] == |v| && ws[1 + |v|] == |o| && ws[2 + |v| + |o|] == |l|
    && (forall k | 0 <= k < |v| :: ws[1 + k] == v[k].n)
    && (forall k | 0 <= k < |o| :: ws[2 + |v| + k] == o[k].n)
    && (forall k | 0 <= k < |l| :: ws[3 + |v| + |o| + k] == l[k].n)
  }

  ghost predicate SaysEntry(ws: seq<U64>, e: Entry<Value>) {
    && |ws| >= 3 && ws[0] == e.id.index && ws[1] == e.id.term
    && match e.value
       case None => |ws| == 3 && ws[2] == 0
       case Some(Command(c)) => |ws| == 4 && ws[2] == 1 && ws[3] == c
       case Some(Configuration(m)) => ws[2] == 2 && ListsSets(ws[3..], m)
  }

  /** The entries one after the other. */
  ghost predicate SaysEntries(ws: seq<U64>, es: seq<Entry<Value>>) {
    if es == [] then ws == []
    else exists k | 0 <= k <= |ws| :: SaysEntry(ws[..k], es[0]) && SaysEntries(ws[k..], es[1..])
  }

  lemma MembershipLayout(m: Roster)
    requires SlotsFit(m)
    ensures ListsSets(MembershipWords(m), m)
  {
    ListSize(m.slots, Voters);
    ListSize(m.slots, OldVoters);
    ListSize(m.slots, Learners);
    hide ListOf;
  }

  lemma {:induction false} ListLayout(es: seq<Entry<Value>>)
    requires EntriesFit(es)
    ensures SaysEntries(EntriesWords(es), es)
  {
    hide ListsSets, MembershipWords;
    if es != [] {
      var ws, first := EntriesWords(es), EntryWords(es[0]);
      if es[0].value.Some? && es[0].value.value.Configuration? {
        MembershipLayout(es[0].value.value.membership);
        assert first[3..] == MembershipWords(es[0].value.value.membership);
      }
      ListLayout(es[1..]);
      assert ws[..|first|] == first && ws[|first|..] == EntriesWords(es[1..]);
    }
  }

  /** Where the flag of the truncation stands. */
  ghost function FlagPlace(w: Transaction): nat
    requires Printable(w)
  {
    if w.snapshot.Some? then 8 + |MembershipWords(w.snapshot.value.value.membership)| else 5
  }

  lemma HeadLayout(w: Transaction)
    requires Printable(w)
    ensures
      var ws, c := Printed(w), FlagPlace(w);
      && c < |ws| && ws[0] == w.hard.term && ws[3] == w.hard.commit
      && (if w.hard.votedFor.Some? then ws[1] == 1 && ws[2] == w.hard.votedFor.value.n else ws[1] == 0 && ws[2] == 0)
      && ws[4] == (if w.snapshot.Some? then 1 else 0)
      && (w.snapshot.Some? ==>
            && ws[5] == w.snapshot.value.last.index && ws[6] == w.snapshot.value.last.term
            && ws[7] == w.snapshot.value.value.application
            && ListsSets(ws[8..c], w.snapshot.value.value.membership))
      && (w.truncateFrom.Some? ==>
            && c + 3 <= |ws| && ws[c] == 1 && ws[c + 1] == w.truncateFrom.value && ws[c + 2] == |w.entries|
            && SaysEntries(ws[c + 3..], w.entries))
      && (w.truncateFrom.None? ==>
            c + 2 <= |ws| && ws[c] == 0 && ws[c + 1] == |w.entries| && SaysEntries(ws[c + 2..], w.entries))
  {
    hide ListsSets, MembershipWords, SaysEntries, EntriesWords;
    ListLayout(w.entries);
    var ws, c := Printed(w), FlagPlace(w);
    assert ws[c..] == OptionWords(w.truncateFrom) + (CountWord(w.entries) + EntriesWords(w.entries));
    assert ws[if w.truncateFrom.Some? then c + 3 else c + 2..] == EntriesWords(w.entries);
    if w.snapshot.Some? {
      MembershipLayout(w.snapshot.value.value.membership);
      assert ws[8..c] == MembershipWords(w.snapshot.value.value.membership);
    }
  }

  // ---- Parsing.

  function ReadIds(ws: seq<U64>, count: nat): Read<seq<Id>> {
    if count > |ws| then Bad else Read(seq(count, k requires 0 <= k < count && count <= |ws| => Id(ws[k])), ws[count..])
  }

  function ReadList(ws: seq<U64>): Read<seq<Id>> {
    match ReadWord(ws)
    case Bad => Bad
    case Read(count, rest) => if count > MAX then Bad else ReadIds(rest, count)
  }

  lemma RestoredProper(voters: seq<Id>, oldVoters: seq<Id>, learners: seq<Id>)
    ensures
      var r := RestoredRoster(MAX, voters, oldVoters, learners);
      r.Ok? ==> Proper(r.value) && SlotsFit(r.value)
  {
    RestoreHolds(MAX, voters, oldVoters, learners);
  }

  function ReadMembership(ws: seq<U64>): (r: Read<Membership>)
    ensures r.Read? ==> SlotsFit(r.value)
  {
    match ReadList(ws)
    case Bad => Bad
    case Read(voters, rest) =>
      match ReadList(rest)
      case Bad => Bad
      case Read(oldVoters, rest1) =>
        match ReadList(rest1)
        case Bad => Bad
        case Read(learners, rest2) =>
          RestoredProper(voters, oldVoters, learners);
          match RestoredRoster(MAX, voters, oldVoters, learners)
          case Err(_) => Bad
          case Ok(m) => Read(m, rest2)
  }

  function ReadValue(ws: seq<U64>): Read<Option<Value>> {
    match ReadWord(ws)
    case Bad => Bad
    case Read(tag, rest) =>
      if tag == 0 then Read(None, rest)
      else if tag == 1 then
        match ReadWord(rest) case Bad => Bad case Read(c, rest1) => Read(Some(Command(c)), rest1)
      else if tag == 2 then
        match ReadMembership(rest) case Bad => Bad case Read(m, rest1) => Read(Some(Configuration(m)), rest1)
      else Bad
  }

  function ReadEntry(ws: seq<U64>): Read<Entry<Value>> {
    if |ws| < 2 then Bad
    else
      match ReadValue(ws[2..])
      case Bad => Bad
      case Read(v, rest) => Read(Entry(LogId(ws[0], ws[1]), v), rest)
  }

  function ReadEntries(ws: seq<U64>, count: nat): Read<seq<Entry<Value>>> {
    ReadMany(ReadEntry, ws, count)
  }

  function ReadSnapshot(ws: seq<U64>): Read<Option<Snapshot<Snap>>> {
    match ReadFlag(ws)
    case Bad => Bad
    case Read(present, rest) =>
      if !present then Read(None, rest)
      else if |rest| < 3 then Bad
      else
        match ReadMembership(rest[3..])
        case Bad => Bad
        case Read(m, rest1) => Read(Some(Snapshot(LogId(rest[0], rest[1]), Bundle(rest[2], m))), rest1)
  }

  function Parsed(ws: seq<U64>): Option<Transaction> {
    if |ws| < 4 || ws[1] > 1 then None
    else
      var hard := HardState(ws[0], if ws[1] == 1 then Some(Id(ws[2])) else None, ws[3]);
      match ReadSnapshot(ws[4..])
      case Bad => None
      case Read(snapshot, afterSnapshot) =>
        match ReadOption(afterSnapshot)
        case Bad => None
        case Read(truncate, afterTruncate) =>
          match ReadWord(afterTruncate)
          case Bad => None
          case Read(count, afterCount) =>
            if count > CAP then None
            else
              match ReadEntries(afterCount, count)
              case Bad => None
              case Read(entries, rest) =>
                if rest != [] then None else Some(Write(hard, snapshot, truncate, entries))
  }

  // ---- The same up to slot layout.

  ghost predicate SameValue(a: Option<Value>, b: Option<Value>) {
    match a
    case None => b.None?
    case Some(Command(c)) => b == a
    case Some(Configuration(m)) => b.Some? && b.value.Configuration? && SameSets(m, b.value.membership)
  }

  ghost predicate SameEntry(a: Entry<Value>, b: Entry<Value>) {
    a.id == b.id && SameValue(a.value, b.value)
  }

  ghost predicate SameEntries(a: seq<Entry<Value>>, b: seq<Entry<Value>>) {
    |a| == |b| && forall k | 0 <= k < |a| :: SameEntry(a[k], b[k])
  }

  ghost predicate SameSnapshot(a: Option<Snapshot<Snap>>, b: Option<Snapshot<Snap>>) {
    match a
    case None => b.None?
    case Some(s) =>
      && b.Some? && b.value.last == s.last && b.value.value.application == s.value.application
      && SameSets(s.value.membership, b.value.value.membership)
  }

  ghost predicate SameDisk(a: Disk, b: Disk) {
    a.hard == b.hard && SameSnapshot(a.snapshot, b.snapshot) && SameEntries(a.entries, b.entries)
  }

  ghost predicate SameWrite(a: Transaction, b: Transaction) {
    && a.hard == b.hard && a.truncateFrom == b.truncateFrom
    && SameSnapshot(a.snapshot, b.snapshot) && SameEntries(a.entries, b.entries)
  }

  // ---- Round trip.

  lemma ListBack(ids: seq<Id>, rest: seq<U64>)
    requires |ids| <= MAX
    ensures ReadList(ListWords(ids) + rest) == Read(ids, rest)
  {
    var ws := ListWords(ids) + rest;
    assert ws == [|ids|] + (IdWords(ids) + rest);
    ReadBack(|ids|, IdWords(ids) + rest);
    var tail := IdWords(ids) + rest;
    assert tail[|ids|..] == rest;
    var read := seq(|ids|, k requires 0 <= k < |ids| && |ids| <= |tail| => Id(tail[k]));
    assert read == ids;
  }

  lemma MembershipLists(m: Membership)
    requires SlotsFit(m)
    ensures
      var v, o, l := ListOf(m.slots, Voters), ListOf(m.slots, OldVoters), ListOf(m.slots, Learners);
      && |v| <= MAX && |o| <= MAX && |l| <= MAX
      && RestoredRoster(MAX, v, o, l).Ok? && SameSets(m, RestoredRoster(MAX, v, o, l).value)
  {
    var v, o, l := ListOf(m.slots, Voters), ListOf(m.slots, OldVoters), ListOf(m.slots, Learners);
    ListSize(m.slots, Voters);
    ListSize(m.slots, OldVoters);
    ListSize(m.slots, Learners);
    ProperVoters(m);
    ListedDistinct(m.slots, Voters);
    ListedDistinct(m.slots, OldVoters);
    ListedDistinct(m.slots, Learners);
    ListIsSet(m.slots, Voters);
    ListIsSet(m.slots, OldVoters);
    ListIsSet(m.slots, Learners);
    ProperEveryone(m);
    ProperApart(m);
    OccupantsAreEveryone(m.slots);
    OccupantsFull(m.slots);
    hide Everyone, SetOf, ListOf, Distinct, Proper, RestoredRoster, Occupants;
    assert IdSet(v) + IdSet(o) + IdSet(l) == Everyone(m);
    assert IdSet([]) == {};
    assert Apart(l, v) by {
      forall x | x in l ensures x !in v {
        assert x in IdSet(l) && x !in IdSet(v) * IdSet(l);
      }
    }
    RestoreHolds(MAX, v, o, l);
    SetsAgree(m, RestoredRoster(MAX, v, o, l).value);
  }

  lemma SetsAgree(a: Roster, b: Roster)
    requires SetOf(a, Voters) == SetOf(b, Voters) && SetOf(a, OldVoters) == SetOf(b, OldVoters)
    requires SetOf(a, Learners) == SetOf(b, Learners)
    ensures SameSets(a, b)
  {
    hide SetOf;
    forall kind: Kind ensures SetOf(a, kind) == SetOf(b, kind) {
      match kind {
        case Voters =>
        case OldVoters =>
        case Learners =>
      }
    }
  }

  lemma MembershipBack(m: Membership, rest: seq<U64>)
    requires SlotsFit(m)
    ensures
      var r := ReadMembership(MembershipWords(m) + rest);
      r.Read? && r.rest == rest && SameSets(m, r.value)
  {
    MembershipLists(m);
    var v, o, l := ListOf(m.slots, Voters), ListOf(m.slots, OldVoters), ListOf(m.slots, Learners);
    hide Proper, ListOf, ListWords, ReadList, RestoredRoster, SetOf;
    assert MembershipWords(m) + rest == ListWords(v) + (ListWords(o) + (ListWords(l) + rest));
    ListBack(v, ListWords(o) + (ListWords(l) + rest));
    ListBack(o, ListWords(l) + rest);
    ListBack(l, rest);
  }

  lemma ValueBack(v: Option<Value>, rest: seq<U64>)
    requires v.Some? ==> RecordFits(v.value)
    ensures
      var r := ReadValue(ValueWords(v) + rest);
      r.Read? && r.rest == rest && SameValue(v, r.value)
  {
    hide ReadMembership, MembershipWords, SetOf, Proper;
    match v
    case None => ReadBack(0, rest);
    case Some(Command(c)) =>
      assert ValueWords(v) + rest == [1] + ([c] + rest);
      ReadBack(1, [c] + rest);
      ReadBack(c, rest);
    case Some(Configuration(m)) =>
      assert ValueWords(v) + rest == [2] + (MembershipWords(m) + rest);
      ReadBack(2, MembershipWords(m) + rest);
      MembershipBack(m, rest);
  }

  lemma EntryBack(e: Entry<Value>, rest: seq<U64>)
    requires EntryFits(e)
    ensures
      var r := ReadEntry(EntryWords(e) + rest);
      r.Read? && r.rest == rest && SameEntry(e, r.value)
  {
    hide ReadValue, ValueWords, SameValue;
    var ws := EntryWords(e) + rest;
    assert ws[2..] == ValueWords(e.value) + rest;
    ValueBack(e.value, rest);
  }

  lemma {:induction false} EntriesBack(es: seq<Entry<Value>>, rest: seq<U64>)
    requires EntriesFit(es)
    ensures
      var r := ReadEntries(EntriesWords(es) + rest, |es|);
      r.Read? && r.rest == rest && SameEntries(es, r.value)
    decreases |es|
  {
    hide ReadEntry, EntryWords, EntryFits, SameEntry;
    if es == [] {
      assert EntriesWords(es) + rest == rest;
    } else {
      assert EntriesWords(es) + rest == EntryWords(es[0]) + (EntriesWords(es[1..]) + rest);
      EntryBack(es[0], EntriesWords(es[1..]) + rest);
      EntriesBack(es[1..], rest);
    }
  }

  lemma SnapshotBack(s: Option<Snapshot<Snap>>, rest: seq<U64>)
    requires SnapshotFits(s)
    ensures
      var r := ReadSnapshot(SnapshotWords(s) + rest);
      r.Read? && r.rest == rest && SameSnapshot(s, r.value)
  {
    hide ReadMembership, MembershipWords, SetOf, Proper;
    var ws := SnapshotWords(s) + rest;
    if s.Some? {
      assert ws[1..][3..] == MembershipWords(s.value.value.membership) + rest;
      MembershipBack(s.value.value.membership, rest);
    } else {
      assert ws[1..] == rest;
    }
  }

  /** Parsing gives back the transaction that was printed, up to slot layout. */
  lemma PrintedParses(w: Transaction)
    requires Printable(w)
    ensures Parsed(Printed(w)).Some? && SameWrite(w, Parsed(Printed(w)).value)
  {
    hide ReadSnapshot, ReadOption, ReadEntries, SnapshotWords, OptionWords, EntriesWords, SameSnapshot, SameEntries,
         EntriesFit, SnapshotFits;
    var ws := Printed(w);
    var tail := [|w.entries|] + EntriesWords(w.entries);
    SnapshotBack(w.snapshot, OptionWords(w.truncateFrom) + tail);
    OptionBack(w.truncateFrom, tail);
    ReadBack(|w.entries|, EntriesWords(w.entries));
    assert EntriesWords(w.entries) + [] == EntriesWords(w.entries);
    EntriesBack(w.entries, []);
    assert ws[4..] == SnapshotWords(w.snapshot) + (OptionWords(w.truncateFrom) + tail);
  }

  // ---- Applying.

  function Encoded(w: Transaction): seq<Byte>
    requires Printable(w)
  {
    Flat(Printed(w))
  }

  function ApplyPayload(saved: Disk, bytes: seq<Byte>): Result<Disk, Error> {
    if |bytes| % 8 != 0 then Err(State)
    else
      match Parsed(WordsIn(bytes))
      case None => Err(State)
      case Some(w) =>
        var next := Applied(saved, w);
        match Restored(next.hard, next.snapshot, next.entries, CAP)
        case Err(_) => Err(State)
        case Ok(s) => Ok(s)
  }

  lemma {:induction false} KeptSame(a: seq<Entry<Value>>, b: seq<Entry<Value>>, base: U64, from: Option<U64>)
    requires SameEntries(a, b)
    ensures SameEntries(Kept(a, base, from), Kept(b, base, from))
    decreases |a|
  {
    hide SameValue;
    if a != [] {
      assert SameEntry(a[0], b[0]);
      assert SameEntries(a[1..], b[1..]) by {
        forall k | 0 <= k < |a| - 1 ensures SameEntry(a[1..][k], b[1..][k]) {
          assert SameEntry(a[k + 1], b[k + 1]);
        }
      }
      KeptSame(a[1..], b[1..], base, from);
    }
  }

  /** Applying the same transaction to the same disk, up to slot layout. */
  lemma AppliedSame(a: Disk, b: Disk, v: Transaction, w: Transaction)
    requires SameDisk(a, b) && SameWrite(v, w)
    ensures SameDisk(Applied(a, v), Applied(b, w))
  {
    hide SameEntry, SameSets;
    var base := if v.snapshot.Some? then v.snapshot.value.last.index
                else if a.snapshot.Some? then a.snapshot.value.last.index else 0;
    KeptSame(a.entries, b.entries, base, v.truncateFrom);
  }

  /** Whether a checkpoint is well formed does not depend on slot layout. */
  lemma WellFormedSame(a: Disk, b: Disk)
    requires SameDisk(a, b) && WellFormed(a)
    ensures WellFormed(b) && |b.entries| == |a.entries|
  {
    hide SameValue, SameSets;
    forall k | 0 <= k < |a.entries| ensures b.entries[k].id == a.entries[k].id {
      assert SameEntry(a.entries[k], b.entries[k]);
    }
  }

  predicate DiskFits(s: Disk) { SnapshotFits(s.snapshot) && EntriesFit(s.entries) && |s.entries| <= CAP }

  /**
   * Replaying an encoded transaction on what the journal holds gives the node's new state,
   * up to slot layout, if that is how the journal held the old one.
   */
  lemma ReplayIsNewState(saved: Disk, d: Disk, s: Disk, from: Option<U64>, changed: bool)
    requires SameDisk(d, saved) && DiskFits(s)
    requires WellFormed(d) && WellFormed(s) && Delta(d, s, from, changed)
    ensures Printable(WriteOf(s, from, changed))
    ensures
      var r := ApplyPayload(saved, Encoded(WriteOf(s, from, changed)));
      r.Ok? && SameDisk(s, r.value)
  {
    hide Printed, WellFormed, Delta, Applied, SameDisk, SameWrite, Printable, WriteOf, ApplyPayload, Encoded, Parsed,
         Flat;
    var w := WriteOf(s, from, changed);
    WritePrintable(s, from, changed);
    PrintedParses(w);
    var v := Parsed(Printed(w)).value;
    DeltaApplies(d, s, from, changed);
    AppliedSame(d, saved, w, v);
    WellFormedSame(s, Applied(saved, v));
    PayloadRestores(saved, w, v);
  }

  lemma PayloadRestores(saved: Disk, w: Transaction, v: Transaction)
    requires Printable(w) && Parsed(Printed(w)) == Some(v)
    requires WellFormed(Applied(saved, v)) && |Applied(saved, v).entries| <= CAP
    ensures ApplyPayload(saved, Encoded(w)) == Ok(Applied(saved, v))
  {
    hide Parsed, Printed, WellFormed, Restored, Applied, Flat, WordsIn, Printable;
    WordsRoundTrip(Printed(w));
    FlatSize(Printed(w));
    RestoreExactly(Applied(saved, v), CAP);
  }

  lemma WritePrintable(s: Disk, from: Option<U64>, changed: bool)
    requires DiskFits(s)
    ensures Printable(WriteOf(s, from, changed))
  {
    hide EntryFits;
  }

  // ---- Every reachable payload fits a frame.

  lemma MembershipSize(m: Membership)
    requires SlotsFit(m)
    ensures |MembershipWords(m)| <= 3 + 3 * MAX
  {
    ListSize(m.slots, Voters);
    ListSize(m.slots, OldVoters);
    ListSize(m.slots, Learners);
  }

  lemma {:induction false} EntriesSize(es: seq<Entry<Value>>)
    requires EntriesFit(es)
    ensures |EntriesWords(es)| <= (6 + 3 * MAX) * |es|
    decreases |es|
  {
    hide MembershipWords, Proper;
    if es != [] {
      if es[0].value.Some? && es[0].value.value.Configuration? {
        MembershipSize(es[0].value.value.membership);
      }
      EntriesSize(es[1..]);
    }
  }

  lemma PayloadFits(w: Transaction)
    requires Printable(w)
    ensures 0 < |Encoded(w)| <= MAX_FRAME
  {
    hide EntriesWords, MembershipWords, Proper, Flat;
    FlatSize(Printed(w));
    EntriesSize(w.entries);
    if w.snapshot.Some? {
      MembershipSize(w.snapshot.value.value.membership);
    }
  }

  /** The journal of this format, whatever its header and checksum. */
  function JournalFormat(header: seq<Byte>, sum: seq<Byte> -> U64): Format<Disk> {
    Format(header, MAX_FRAME, sum, Empty(), (saved, bytes) => ApplyPayload(saved, bytes))
  }

  /** No transaction is empty. */
  lemma EmptyRefused(saved: Disk)
    ensures ApplyPayload(saved, []).Err?
  {
    assert WordsIn([]) == [];
  }

  /** Saving what a node emits never fails for its contents: it fits a frame and replays to the node's state. */
  lemma EmittedCanBeSaved(
    header: seq<Byte>, sum: seq<Byte> -> U64, saved: Disk, d: Disk, s: Disk, from: Option<U64>, changed: bool)
    requires SameDisk(d, saved) && DiskFits(s)
    requires WellFormed(d) && WellFormed(s) && Delta(d, s, from, changed)
    ensures Printable(WriteOf(s, from, changed))
    ensures
      var f := JournalFormat(header, sum);
      var payload := Encoded(WriteOf(s, from, changed));
      && Framed(f) && Payload(f, payload)
      && f.apply(saved, payload).Ok? && SameDisk(s, f.apply(saved, payload).value)
  {
    hide WellFormed, Delta, ApplyPayload, Printed, Flat, SameDisk, DiskFits, Printable;
    forall x: Disk ensures ApplyPayload(x, []).Err? {
      EmptyRefused(x);
    }
    ReplayIsNewState(saved, d, s, from, changed);
    PayloadFits(WriteOf(s, from, changed));
  }

  // ---- The loops of encode and apply.

  method PushIds(words: seq<U64>, ids: seq<Id>) returns (more: seq<U64>)
    requires |ids| <= MAX
    ensures more == words + ListWords(ids)
  {
    more := words + [|ids|];
    for i := 0 to |ids|
      invariant more == words + ([|ids|] + IdWords(ids)[..i])
    {
      more := more + [ids[i].n];
      assert IdWords(ids)[..i + 1] == IdWords(ids)[..i] + [ids[i].n];
    }
    assert IdWords(ids)[..|ids|] == IdWords(ids);
  }

  /** The three lists of a membership. */
  method PushMembership(words: seq<U64>, m: Membership) returns (more: seq<U64>)
    requires SlotsFit(m)
    ensures more == words + MembershipWords(m)
  {
    ListSize(m.slots, Voters);
    ListSize(m.slots, OldVoters);
    ListSize(m.slots, Learners);
    hide ListWords;
    var voters := Listed(m, Voters);
    var oldVoters := Listed(m, OldVoters);
    var learners := Listed(m, Learners);
    more := PushIds(words, voters);
    more := PushIds(more, oldVoters);
    more := PushIds(more, learners);
    assert words + ListWords(voters) + ListWords(oldVoters) + ListWords(learners) ==
           words + (ListWords(voters) + (ListWords(oldVoters) + ListWords(learners)));
  }

  method PushEntry(words: seq<U64>, e: Entry<Value>) returns (more: seq<U64>)
    requires EntryFits(e)
    ensures more == words + EntryWords(e)
  {
    hide MembershipWords, Proper;
    more := words + [e.id.index, e.id.term];
    match e.value {
      case None => more := more + [0];
      case Some(Command(c)) => more := more + [1, c];
      case Some(Configuration(m)) =>
        more := more + [2];
        more := PushMembership(more, m);
    }
    assert more == words + ([e.id.index, e.id.term] + ValueWords(e.value));
  }

  /** Everything before the entries. */
  method PushHead(w: Transaction) returns (words: seq<U64>)
    requires Printable(w)
    ensures words + EntriesWords(w.entries) == Printed(w)
  {
    hide MembershipWords, EntriesWords, EntriesFit, Proper;
    words := [w.hard.term, FlagWord(w.hard.votedFor.Some?),
              if w.hard.votedFor.Some? then w.hard.votedFor.value.n else 0, w.hard.commit];
    ghost var hard := words;
    words := PushSnapshot(words, w.snapshot);
    hide SnapshotWords;
    words := words + [FlagWord(w.truncateFrom.Some?)];
    if w.truncateFrom.Some? {
      words := words + [w.truncateFrom.value];
    }
    assert words == hard + SnapshotWords(w.snapshot) + OptionWords(w.truncateFrom);
    hide OptionWords;
    words := words + [|w.entries|];
  }

  method PushSnapshot(words: seq<U64>, s: Option<Snapshot<Snap>>) returns (more: seq<U64>)
    requires SnapshotFits(s)
    ensures more == words + SnapshotWords(s)
  {
    hide MembershipWords, Proper;
    more := words + [FlagWord(s.Some?)];
    if s.Some? {
      more := more + [s.value.last.index, s.value.last.term, s.value.value.application];
      more := PushMembership(more, s.value.value.membership);
    }
  }

  method Encode(w: Transaction) returns (bytes: seq<Byte>)
    requires Printable(w)
    ensures bytes == Encoded(w)
  {
    hide Printed, EntryWords, EntryFits;
    var words: seq<U64> := PushHead(w);
    assert w.entries[0..] == w.entries;
    for i := 0 to |w.entries|
      invariant words + EntriesWords(w.entries[i..]) == Printed(w)
    {
      var e := w.entries[i];
      assert w.entries[i..][0] == e && w.entries[i..][1..] == w.entries[i + 1..];
      assert words + (EntryWords(e) + EntriesWords(w.entries[i + 1..])) ==
             (words + EntryWords(e)) + EntriesWords(w.entries[i + 1..]);
      words := PushEntry(words, e);
    }
    assert words == Printed(w);
    bytes := Flatten(words);
  }

  lemma RestStep(ws: seq<U64>, i: nat, w: U64, rest: seq<U64>)
    requires i <= |ws| && ws[i..] == [w] + rest
    ensures i < |ws| && ws[i] == w && ws[i + 1..] == rest
  {
    assert ws[i..][0] == w && ws[i..][1..] == rest;
  }

  lemma IdsRead(ws: seq<U64>, ids: seq<Id>)
    requires |ids| <= |ws| && forall j | 0 <= j < |ids| :: ids[j] == Id(ws[j])
    ensures ReadIds(ws, |ids|) == Read(ids, ws[|ids|..])
  {
    assert ids == ReadIds(ws, |ids|).value;
  }

  lemma TooFewIds(ws: seq<U64>, i: nat, count: nat)
    requires i <= |ws| && i < count && ws[i..] == []
    ensures ReadIds(ws, count).Bad?
  {
  }

  method TakeList(bytes: seq<Byte>, k: nat) returns (got: Option<(seq<Id>, nat)>)
    requires k <= |bytes| / 8
    ensures Took(ReadList(Rest(bytes, k)), bytes, got)
  {
    var count := TakeWord(bytes, k);
    if count.None? || count.value.0 > MAX {
      return None;
    }
    var ids: seq<Id> := [];
    var at: nat := count.value.1;
    var i: nat := 0;
    ghost var start := Rest(bytes, at);
    hide Rest, ReadIds;
    while i < count.value.0
      invariant i <= count.value.0 && i <= |start| && at <= |bytes| / 8
      invariant Rest(bytes, at) == start[i..]
      invariant |ids| == i && forall j | 0 <= j < i :: ids[j] == Id(start[j])
    {
      var w := TakeWord(bytes, at);
      if w.None? {
        TooFewIds(start, i, count.value.0);
        return None;
      }
      RestStep(start, i, w.value.0, Rest(bytes, w.value.1));
      ids := ids + [Id(w.value.0)];
      at := w.value.1;
      i := i + 1;
    }
    IdsRead(start, ids);
    return Some((ids, at));
  }

  method TakeMembership(bytes: seq<Byte>, k: nat) returns (got: Option<(Membership, nat)>)
    requires k <= |bytes| / 8
    ensures Took(ReadMembership(Rest(bytes, k)), bytes, got)
  {
    hide Rest, ReadList, RestoredRoster, Proper;
    var voters := TakeList(bytes, k);
    if voters.None? {
      return None;
    }
    var oldVoters := TakeList(bytes, voters.value.1);
    if oldVoters.None? {
      return None;
    }
    var learners := TakeList(bytes, oldVoters.value.1);
    if learners.None? {
      return None;
    }
    RestoredProper(voters.value.0, oldVoters.value.0, learners.value.0);
    var m := Restore(MAX, voters.value.0, oldVoters.value.0, learners.value.0);
    if m.Err? {
      return None;
    }
    return Some((m.value, learners.value.1));
  }

  method TakeValue(bytes: seq<Byte>, k: nat) returns (got: Option<(Option<Value>, nat)>)
    requires k <= |bytes| / 8
    ensures Took(ReadValue(Rest(bytes, k)), bytes, got)
  {
    hide Rest, ReadMembership, Proper;
    var tag := TakeWord(bytes, k);
    if tag.None? {
      return None;
    }
    match tag.value.0 {
      case 0 => return Some((None, tag.value.1));
      case 1 =>
        var c := TakeWord(bytes, tag.value.1);
        if c.None? {
          return None;
        }
        return Some((Some(Command(c.value.0)), c.value.1));
      case 2 =>
        var m := TakeMembership(bytes, tag.value.1);
        if m.None? {
          return None;
        }
        return Some((Some(Configuration(m.value.0)), m.value.1));
      case _ => return None;
    }
  }

  method TakeEntry(bytes: seq<Byte>, k: nat) returns (got: Option<(Entry<Value>, nat)>)
    requires k <= |bytes| / 8
    ensures Took(ReadEntry(Rest(bytes, k)), bytes, got)
  {
    hide Rest, ReadValue;
    var index := TakeWord(bytes, k);
    if index.None? {
      return None;
    }
    var term := TakeWord(bytes, index.value.1);
    if term.None? {
      return None;
    }
    assert Rest(bytes, k)[2..] == Rest(bytes, term.value.1);
    var value := TakeValue(bytes, term.value.1);
    if value.None? {
      return None;
    }
    return Some((Entry(LogId(index.value.0, term.value.0), value.value.0), value.value.1));
  }

  method TakeEntries(bytes: seq<Byte>, k: nat, count: nat) returns (got: Option<(seq<Entry<Value>>, nat)>)
    requires k <= |bytes| / 8
    ensures Took(ReadEntries(Rest(bytes, k), count), bytes, got)
  {
    hide Rest, ReadEntry;
    var log: seq<Entry<Value>> := [];
    var at: nat := k;
    var i: nat := 0;
    ghost var whole := ReadEntries(Rest(bytes, k), count);
    if whole.Read? {
      assert [] + whole.value == whole.value;
    }
    while i < count
      invariant i <= count && at <= |bytes| / 8
      invariant whole == match ReadEntries(Rest(bytes, at), count - i)
                         case Bad => Bad
                         case Read(es, rest) => Read(log + es, rest)
    {
      MoreRead(ReadEntry, log, Rest(bytes, at), count - i, whole);
      var e := TakeEntry(bytes, at);
      if e.None? {
        return None;
      }
      log := log + [e.value.0];
      at := e.value.1;
      i := i + 1;
    }
    assert log + [] == log;
    return Some((log, at));
  }

  method TakeSnapshot(bytes: seq<Byte>, k: nat) returns (got: Option<(Option<Snapshot<Snap>>, nat)>)
    requires k <= |bytes| / 8
    ensures Took(ReadSnapshot(Rest(bytes, k)), bytes, got)
  {
    hide Rest, ReadMembership, Proper;
    var present := TakeFlag(bytes, k);
    if present.None? {
      return None;
    }
    if !present.value.0 {
      return Some((None, present.value.1));
    }
    var index := TakeWord(bytes, present.value.1);
    if index.None? {
      return None;
    }
    var term := TakeWord(bytes, index.value.1);
    if term.None? {
      return None;
    }
    var application := TakeWord(bytes, term.value.1);
    if application.None? {
      return None;
    }
    assert Rest(bytes, present.value.1)[3..] == Rest(bytes, application.value.1);
    var m := TakeMembership(bytes, application.value.1);
    if m.None? {
      return None;
    }
    return Some((Some(Snapshot(LogId(index.value.0, term.value.0), Bundle(application.value.0, m.value.0))),
        m.value.1));
  }

  /** apply: read with a cursor, keep what survives, append, and restore. */
  method Apply(saved: Disk, bytes: seq<Byte>) returns (r: Result<Disk, Error>)
    ensures r == ApplyPayload(saved, bytes)
  {
    hide Restored, Parsed, WordsIn, Applied;
    var w := TakeTransaction(bytes);
    if w.None? {
      return Err(State);
    }
    var next := Applied(saved, w.value);
    var restored := Restored(next.hard, next.snapshot, next.entries, CAP);
    return if restored.Ok? then Ok(restored.value) else Err(State);
  }

  /** Reading a whole payload: every byte of it, and nothing but words. */
  method TakeTransaction(bytes: seq<Byte>) returns (w: Option<Transaction>)
    ensures w == if |bytes| % 8 == 0 then Parsed(WordsIn(bytes)) else None
  {
    hide ReadEntries, ReadOption, ReadSnapshot, WordsIn;
    assert Rest(bytes, 0) == WordsIn(bytes[..8 * (|bytes| / 8)]);
    assert |bytes| % 8 == 0 ==> bytes[..8 * (|bytes| / 8)] == bytes;
    ghost var ws := Rest(bytes, 0);
    RestSize(bytes, 0);
    var term := TakeWord(bytes, 0);
    if term.None? {
      return None;
    }
    var voted := TakeFlag(bytes, term.value.1);
    if voted.None? {
      return None;
    }
    var vote := TakeWord(bytes, voted.value.1);
    if vote.None? {
      return None;
    }
    var commit := TakeWord(bytes, vote.value.1);
    if commit.None? {
      return None;
    }
    assert ws[4..] == Rest(bytes, commit.value.1);
    hide Rest;
    var hard := HardState(term.value.0, if voted.value.0 then Some(Id(vote.value.0)) else None, commit.value.0);
    var snapshot := TakeSnapshot(bytes, commit.value.1);
    if snapshot.None? {
      return None;
    }
    var truncate := TakeOption(bytes, snapshot.value.1);
    if truncate.None? {
      return None;
    }
    var count := TakeWord(bytes, truncate.value.1);
    if count.None? || count.value.0 > CAP {
      return None;
    }
    var entries := TakeEntries(bytes, count.value.1, count.value.0);
    if entries.None? {
      return None;
    }
    RestSize(bytes, entries.value.1);
    if 8 * entries.value.1 != |bytes| {
      return None;
    }
    return Some(Write(hard, snapshot.value.0, truncate.value.0, entries.value.0));
  }
}
