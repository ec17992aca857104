/**
 * The cached membership and the slot table of the dynamic engine: after every operation
 * the cache is the membership at the end of the log, every member has exactly one slot,
 * the slot search never comes back empty-handed, and a leader outside the voters only
 * waits for its removal to commit.
 */
module SlotTables {
  import opened Types
  import opened FiniteSets
  import opened Checkpoints
  import opened Memberships
  import opened NodeModel
  import opened LocalHistory
  import opened NodeHistory

  // ---- Sizes that Rust's const generics give.

  ghost predicate HooksFit<V(!new), S(!new)>(hooks: Hooks<V, S>, size: nat) {
    && (forall v :: hooks.record(v).Some? ==> |hooks.record(v).value.slots| == size)
    && (forall s :: |hooks.snapshot(s).slots| == size)
  }

  ghost predicate Fits<V(!new), S(!new)>(n: Node<V, S>) {
    |n.bootstrap.slots| == |n.peers| && (n.hooks.Some? ==> HooksFit(n.hooks.value, |n.peers|))
  }

  lemma {:induction false} RecordFits<V(!new), S(!new)>(
    entries: seq<Entry<V>>, index: U64, hooks: Hooks<V, S>, found: (U64, Membership), size: nat)
    requires HooksFit(hooks, size) && |found.1.slots| == size
    ensures |LastRecord(entries, index, hooks, found).1.slots| == size
    decreases |entries|
  {
    if entries != [] && entries[0].id.index <= index {
      var e := entries[0];
      var m := if e.value.Some? then hooks.record(e.value.value) else None;
      RecordFits(entries[1..], index, hooks, if m.Some? then (e.id.index, m.value) else found, size);
    }
  }

  lemma MembershipFits<V(!new), S(!new)>(n: Node<V, S>, index: U64)
    requires Fits(n)
    ensures |MembershipAt(n, index).1.slots| == |n.peers|
  {
    if n.hooks.Some? {
      var found :=
        if n.state.snapshot.None? then (0, n.bootstrap)
        else (n.state.snapshot.value.last.index, n.hooks.value.snapshot(n.state.snapshot.value.value));
      RecordFits(n.state.entries, index, n.hooks.value, found, |n.peers|);
    }
  }

  // ---- The slot search.

  ghost predicate DistinctPeers(peers: seq<Option<Id>>) {
    forall p, q | 0 <= p < q < |peers| && peers[p].Some? :: peers[p] != peers[q]
  }

  ghost function PeerSet(peers: seq<Option<Id>>): set<Id> {
    set p | 0 <= p < |peers| && peers[p].Some? :: peers[p].value
  }

  lemma {:induction false} PeersCount(peers: seq<Option<Id>>)
    requires DistinctPeers(peers) && forall p | 0 <= p < |peers| :: peers[p].Some?
    ensures |PeerSet(peers)| == |peers|
    decreases |peers|
  {
    if peers != [] {
      var n := |peers| - 1;
      var less := peers[..n];
      PeersCount(less);
      assert PeerSet(peers) == PeerSet(less) + {peers[n].value} by {
        assert forall p | 0 <= p < n :: less[p] == peers[p];
      }
    }
  }

  lemma {:induction false} EveryoneFits(r: Roster)
    ensures |Everyone(r)| <= |r.slots|
    decreases |r.slots|
  {
    if r.slots != [] {
      var n := |r.slots| - 1;
      var less := Roster(r.slots[..n]);
      EveryoneFits(less);
      var extra := if r.slots[n].Some? then {r.slots[n].value.id} else {};
      EveryoneStep(r);
      SubsetCardinality(Everyone(r), Everyone(less) + extra);
    }
  }

  lemma EveryoneStep(r: Roster)
    requires r.slots != []
    ensures
      var n := |r.slots| - 1;
      Everyone(r) <= Everyone(Roster(r.slots[..n])) + if r.slots[n].Some? then {r.slots[n].value.id} else {}
  {
    var n := |r.slots| - 1;
    var less := Roster(r.slots[..n]);
    forall x | x in Everyone(r) && !(r.slots[n].Some? && r.slots[n].value.id == x) ensures x in Everyone(less) {
      var k :| 0 <= k < |r.slots| && r.slots[k].Some? && r.slots[k].value.id == x;
      assert less.slots[k] == r.slots[k];
    }
  }

  /** By pigeonhole: while some member has no slot, some slot has no member. */
  lemma FreeSlotExists(peers: seq<Option<Id>>, m: Membership, id: Id)
    requires DistinctPeers(peers) && |m.slots| == |peers|
    requires Contains(m, id) && Some(id) !in peers
    ensures FreeSlot(peers, m) < |peers|
  {
    if FreeSlot(peers, m) == |peers| {
      PeersCount(peers);
      EveryoneFits(m);
      assert PeerSet(peers) + {id} <= Everyone(m);
      SubsetCardinality(PeerSet(peers) + {id}, Everyone(m));
      assert false;
    }
  }

  /** The first `upto` slots of the membership are seated. */
  ghost predicate SeatedUpTo<V, S>(n: Node<V, S>, upto: nat) {
    forall k | 0 <= k < upto && k < |n.membership.slots| && n.membership.slots[k].Some? ::
      Some(n.membership.slots[k].value.id) in n.peers
  }

  ghost predicate SlotKept<V, S>(n: Node<V, S>, m: Node<V, S>, p: nat)
    requires Sized(n) && Sized(m) && |m.peers| == |n.peers| && p < |n.peers|
  {
    && m.peers[p] == n.peers[p] && m.votes[p] == n.votes[p] && m.active[p] == n.active[p]
    && m.next[p] == n.next[p] && m.matched[p] == n.matched[p] && m.outbox[p] == n.outbox[p]
  }

  /** A slot that held no member starts over with one. */
  ghost predicate SlotReset<V, S>(n: Node<V, S>, m: Node<V, S>, p: nat)
    requires Sized(m) && |m.peers| == |n.peers| && p < |m.peers|
  {
    && (n.peers[p].None? || !Contains(m.membership, n.peers[p].value))
    && m.peers[p].Some? && Contains(m.membership, m.peers[p].value) && !m.votes[p] && !m.active[p]
    && m.next[p] == 1 && m.matched[p] == 0 && m.outbox[p].None?
  }

  /** Every slot is untouched or starts over with a new peer; a member's slot is untouched. */
  ghost predicate SlotsMoved<V, S>(n: Node<V, S>, m: Node<V, S>) {
    && Sized(n) && Sized(m) && |m.peers| == |n.peers|
    && forall p | 0 <= p < |n.peers| :: SlotKept(n, m, p) || SlotReset(n, m, p)
  }

  lemma MovedTrans<V, S>(n: Node<V, S>, m: Node<V, S>, r: Node<V, S>)
    requires SlotsMoved(n, m) && SlotsMoved(m, r) && r.membership == m.membership
    ensures SlotsMoved(n, r)
  {
    hide Contains;
    forall p | 0 <= p < |n.peers| ensures SlotKept(n, r, p) || SlotReset(n, r, p) {
      assert SlotKept(n, m, p) || SlotReset(n, m, p);
      assert SlotKept(m, r, p) || SlotReset(m, r, p);
    }
  }

  /** Seating one more identity in a free slot. */
  lemma SeatedDistinct<V, S>(n: Node<V, S>, id: Id)
    requires Sized(n) && DistinctPeers(n.peers) && Contains(n.membership, id)
    ensures DistinctPeers(Seated(n, id).peers) && SlotsMoved(n, Seated(n, id))
  {
    hide Contains;
    var slot := FreeSlot(n.peers, n.membership);
    if Some(id) !in n.peers && slot < |n.peers| {
      DistinctUpdate(n.peers, slot, id);
      hide DistinctPeers;
      var r := Seated(n, id);
      forall p | 0 <= p < |n.peers| ensures SlotKept(n, r, p) || SlotReset(n, r, p) {
      }
    }
  }

  lemma DistinctUpdate(peers: seq<Option<Id>>, slot: nat, id: Id)
    requires DistinctPeers(peers) && slot < |peers| && Some(id) !in peers
    ensures DistinctPeers(peers[slot := Some(id)])
  {
  }

  /** Nobody who is a member loses a slot. */
  lemma SeatedKeeps<V, S>(n: Node<V, S>, id: Id, other: Id)
    requires Sized(n) && Some(other) in n.peers && Contains(n.membership, other)
    ensures Some(other) in Seated(n, id).peers
  {
    var p :| 0 <= p < |n.peers| && n.peers[p] == Some(other);
    assert Seated(n, id).peers[p] == n.peers[p];
  }

  lemma SeatedSeats<V, S>(n: Node<V, S>, k: nat)
    requires Sized(n) && DistinctPeers(n.peers) && |n.membership.slots| == |n.peers|
    requires k < |n.membership.slots| && n.membership.slots[k].Some? && SeatedUpTo(n, k)
    ensures
      var r := Seated(n, n.membership.slots[k].value.id);
      DistinctPeers(r.peers) && SeatedUpTo(r, k + 1) && SlotsMoved(n, r)
      && r.membership == n.membership && |r.peers| == |n.peers| && Sized(r)
  {
    hide SlotsMoved, Proper;
    var id := n.membership.slots[k].value.id;
    assert Contains(n.membership, id);
    SeatedDistinct(n, id);
    if Some(id) !in n.peers {
      FreeSlotExists(n.peers, n.membership, id);
      hide DistinctPeers;
      assert Seated(n, id).peers[FreeSlot(n.peers, n.membership)] == Some(id);
    }
    hide DistinctPeers;
    forall i | 0 <= i < k && n.membership.slots[i].Some?
      ensures Some(n.membership.slots[i].value.id) in Seated(n, id).peers
    {
      assert Contains(n.membership, n.membership.slots[i].value.id);
      SeatedKeeps(n, id, n.membership.slots[i].value.id);
    }
  }

  lemma {:induction false} SeatAllSeats<V, S>(n: Node<V, S>, from: nat)
    requires Sized(n) && DistinctPeers(n.peers) && |n.membership.slots| == |n.peers|
    requires SeatedUpTo(n, from)
    ensures
      var r := SeatAll(n, from);
      DistinctPeers(r.peers) && SeatedUpTo(r, |r.membership.slots|) && r.membership == n.membership && SlotsMoved(n, r)
    decreases |n.membership.slots| - from
  {
    hide DistinctPeers, Seated, SlotsMoved, Proper;
    if from >= |n.membership.slots| {
      MovedRefl(n);
    } else if n.membership.slots[from].None? {
      SeatAllSeats(n, from + 1);
    } else {
      var m := Seated(n, n.membership.slots[from].value.id);
      SeatedSeats(n, from);
      SeatAllSeats(m, from + 1);
      MovedTrans(n, m, SeatAll(m, from + 1));
    }
  }

  lemma MovedRefl<V, S>(n: Node<V, S>)
    requires Sized(n)
    ensures SlotsMoved(n, n)
  {
  }

  // ---- Cache coherence.

  /** Folding records over a whole log. */
  ghost function Records<V, S>(entries: seq<Entry<V>>, hooks: Hooks<V, S>, found: (U64, Membership)): (U64, Membership)
  {
    if entries == [] then found
    else
      var e := entries[|entries| - 1];
      var m := if e.value.Some? then hooks.record(e.value.value) else None;
      if m.Some? then (e.id.index, m.value) else Records(entries[..|entries| - 1], hooks, found)
  }

  lemma {:induction false} RecordsSplit<V, S>(
    a: seq<Entry<V>>, b: seq<Entry<V>>, hooks: Hooks<V, S>, found: (U64, Membership))
    ensures Records(a + b, hooks, found) == Records(b, hooks, Records(a, hooks, found))
    decreases |b|
  {
    if b == [] {
      assert a + b == a;
    } else {
      RecordsSplit(a, b[..|b| - 1], hooks, found);
      assert (a + b)[..|a + b| - 1] == a + b[..|b| - 1];
    }
  }

  /** Reading in log order up to `index` is folding the entries at or before it. */
  lemma {:induction false} LastRecordFolds<V, S>(
    entries: seq<Entry<V>>, index: U64, hooks: Hooks<V, S>, found: (U64, Membership), cut: nat)
    requires cut <= |entries|
    requires forall k | 0 <= k < cut :: entries[k].id.index <= index
    requires cut < |entries| ==> entries[cut].id.index > index
    ensures LastRecord(entries, index, hooks, found) == Records(entries[..cut], hooks, found)
    decreases |entries|
  {
    if cut > 0 {
      var e := entries[0];
      var m := if e.value.Some? then hooks.record(e.value.value) else None;
      var next := if m.Some? then (e.id.index, m.value) else found;
      LastRecordFolds(entries[1..], index, hooks, next, cut - 1);
      assert entries[..cut] == [e] + entries[1..][..cut - 1];
      RecordsSplit([e], entries[1..][..cut - 1], hooks, found);
      assert [e][..0] == [];
    }
  }

  ghost function Origin<V, S>(n: Node<V, S>): (U64, Membership)
    requires n.hooks.Some?
  {
    if n.state.snapshot.None? then (0, n.bootstrap)
    else (n.state.snapshot.value.last.index, n.hooks.value.snapshot(n.state.snapshot.value.value))
  }

  /** The record in force at the end of the log, and where it is. */
  ghost function InForce<V, S>(n: Node<V, S>): (U64, Membership) {
    MembershipAt(n, Last(n.state).index)
  }

  lemma InForceFolds<V, S>(n: Node<V, S>)
    requires WellFormed(n.state) && n.hooks.Some?
    ensures InForce(n) == Records(n.state.entries, n.hooks.value, Origin(n))
  {
    LastIndex(n.state);
    LastRecordFolds(n.state.entries, Last(n.state).index, n.hooks.value, Origin(n), |n.state.entries|);
    assert n.state.entries[..|n.state.entries|] == n.state.entries;
  }

  ghost predicate AllSeated<V, S>(n: Node<V, S>) {
    SeatedUpTo(n, |n.membership.slots|)
  }

  ghost predicate Seating<V(!new), S(!new)>(n: Node<V, S>) {
    && Fits(n) && DistinctPeers(n.peers) && AllSeated(n)
    && n.membership == InForce(n).1
    && n.local == PositionOf(n.peers, n.config.id)
    && (n.role == Leader && !IsVoter(n.membership, n.config.id) ==> InForce(n).0 > n.state.hard.commit)
    && (n.role == Candidate || n.prevoting.Some? ==> IsVoter(n.membership, n.config.id))
  }

  /** A voter has a slot. */
  lemma SeatingPlaced<V(!new), S(!new)>(n: Node<V, S>)
    requires Seating(n)
    ensures Placed(n)
  {
    hide InForce, Fits, Proper;
    if IsVoter(n.membership, n.config.id) {
      var k :| 0 <= k < |n.membership.slots| && n.membership.slots[k].Some?
               && n.membership.slots[k].value.id == n.config.id;
      assert Some(n.config.id) in n.peers;
    }
  }

  /** A refresh re-establishes everything from a table without duplicates. */
  lemma RefreshedSeating<V(!new), S(!new)>(n: Node<V, S>)
    requires Sized(n) && Timed(n) && Fits(n) && DistinctPeers(n.peers)
    requires n.role != Candidate && n.prevoting.None?
    ensures Seating(Refreshed(n)) && SlotsMoved(n, Refreshed(n))
  {
    hide Proper, MembershipAt, DistinctPeers, SlotKept, SlotReset, IsVoter;
    var at := MembershipAt(n, Last(n.state).index);
    MembershipFits(n, Last(n.state).index);
    var c := n.(membership := at.1);
    SeatAllSeats(c, 0);
    SeatAllFrame(c, 0);
    var seated := SeatAll(c, 0);
    MovedFrame(n, c, seated, Refreshed(n));
    InForceFrame(n, seated);
    InForceFrame(n, Refreshed(n));
  }

  lemma MovedFrame<V, S>(n: Node<V, S>, c: Node<V, S>, m: Node<V, S>, r: Node<V, S>)
    requires SlotsMoved(c, m) && Sized(n) && Sized(r) && SameSlots(n, c) && SameSlots(m, r)
    requires r.membership == m.membership
    ensures SlotsMoved(n, r)
  {
    hide Contains;
    forall p | 0 <= p < |n.peers| ensures SlotKept(n, r, p) || SlotReset(n, r, p) {
      assert SlotKept(c, m, p) || SlotReset(c, m, p);
    }
  }

  ghost predicate SameSlots<V, S>(n: Node<V, S>, m: Node<V, S>) {
    && m.peers == n.peers && m.votes == n.votes && m.active == n.active
    && m.next == n.next && m.matched == n.matched && m.outbox == n.outbox
  }

  /** The record in force depends only on the log, the snapshot and the bootstrap. */
  lemma InForceFrame<V, S>(n: Node<V, S>, m: Node<V, S>)
    requires m.hooks == n.hooks && m.bootstrap == n.bootstrap
    requires m.state.entries == n.state.entries && m.state.snapshot == n.state.snapshot
    ensures InForce(m) == InForce(n)
  {
  }
}
