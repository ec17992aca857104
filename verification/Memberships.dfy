/**
 * Voters, learners and joint configurations in a fixed number of slots
 * (jarl/src/membership.rs), as values: what they contain and who is a quorum.
 */
module Memberships {
  import opened Types

  datatype Member = Member(id: Id, voter: bool, oldVoter: bool, learner: bool)

  datatype Kind = Voters | Learners | OldVoters

  /** One optional member per slot; |slots| is the const generic MAX. */
  datatype Roster = Roster(slots: seq<Option<Member>>)

  predicate Has(m: Member, kind: Kind) {
    match kind
    case Voters => m.voter
    case Learners => m.learner
    case OldVoters => m.oldVoter
  }

  /** Slot k holds a member of this kind. */
  predicate Seats(slots: seq<Option<Member>>, k: nat, kind: Kind) {
    k < |slots| && slots[k].Some? && Has(slots[k].value, kind)
  }

  ghost function SetOf(r: Roster, kind: Kind): set<Id> {
    set k | 0 <= k < |r.slots| && Seats(r.slots, k, kind) :: r.slots[k].value.id
  }

  ghost function Everyone(r: Roster): set<Id> {
    set k | 0 <= k < |r.slots| && r.slots[k].Some? :: r.slots[k].value.id
  }

  predicate Distinct(slots: seq<Option<Member>>) {
    forall i, k | 0 <= i < k < |slots| && slots[i].Some? && slots[k].Some? ::
      slots[i].value.id != slots[k].value.id
  }

  predicate Flagged(slots: seq<Option<Member>>) {
    forall k | 0 <= k < |slots| && slots[k].Some? ::
      && (slots[k].value.voter || slots[k].value.oldVoter || slots[k].value.learner)
      && !(slots[k].value.voter && slots[k].value.learner)
  }

  predicate HasVoter(slots: seq<Option<Member>>) {
    exists k :: 0 <= k < |slots| && Seats(slots, k, Voters)
  }

  /** What the private field and the constructors of the type guarantee. */
  predicate Proper(r: Roster) {
    Distinct(r.slots) && Flagged(r.slots) && HasVoter(r.slots)
  }

  lemma OneVoterIsProper()
    ensures Proper(Roster([Some(Member(Id(0), true, false, false))]))
  {
    assert Seats([Some(Member(Id(0), true, false, false))], 0, Voters);
  }

  type Membership = r: Roster | Proper(r)
    ghost witness (OneVoterIsProper(); Roster([Some(Member(Id(0), true, false, false))]))

  // ---- Reading.

  predicate IsJoint(r: Roster) {
    exists k :: 0 <= k < |r.slots| && Seats(r.slots, k, OldVoters)
  }

  predicate IsVoter(r: Roster, id: Id) {
    exists k :: 0 <= k < |r.slots| && r.slots[k].Some? && r.slots[k].value.id == id
                && (r.slots[k].value.voter || r.slots[k].value.oldVoter)
  }

  predicate Contains(r: Roster, id: Id) {
    exists k :: 0 <= k < |r.slots| && r.slots[k].Some? && r.slots[k].value.id == id
  }

  /** Reading the flags of the slots is asking for the sets. */
  lemma FlagsMeanSets(r: Roster, id: Id)
    ensures IsVoter(r, id) <==> id in SetOf(r, Voters) + SetOf(r, OldVoters)
    ensures Contains(r, id) <==> id in Everyone(r)
    ensures IsJoint(r) <==> SetOf(r, OldVoters) != {}
  {
    if k :| 0 <= k < |r.slots| && Seats(r.slots, k, OldVoters) {
      assert r.slots[k].value.id in SetOf(r, OldVoters);
    }
    if k :| 0 <= k < |r.slots| && r.slots[k].Some? && r.slots[k].value.id == id
            && (r.slots[k].value.voter || r.slots[k].value.oldVoter) {
      assert Seats(r.slots, k, if r.slots[k].value.voter then Voters else OldVoters);
    }
  }

  function Peers(r: Roster): seq<Option<Id>> {
    seq(|r.slots|, k requires 0 <= k < |r.slots| => if r.slots[k].Some? then Some(r.slots[k].value.id) else None)
  }

  /** The identities of one kind, in slot order. */
  function ListOf(slots: seq<Option<Member>>, kind: Kind): seq<Id> {
    if slots == [] then []
    else
      var n := |slots| - 1;
      ListOf(slots[..n], kind) +
      if Seats(slots, n, kind) then [slots[n].value.id] else []
  }

  /** How many members of a kind acknowledge. */
  function Tally(slots: seq<Option<Member>>, kind: Kind, ack: Id -> bool): nat {
    if slots == [] then 0
    else
      var n := |slots| - 1;
      Tally(slots[..n], kind, ack) +
      if Seats(slots, n, kind) && ack(slots[n].value.id) then 1 else 0
  }

  function Everybody(): Id -> bool { _ => true }

  predicate MajorityAcks(r: Roster, kind: Kind, ack: Id -> bool) {
    Tally(r.slots, kind, ack) > Tally(r.slots, kind, Everybody()) / 2
  }

  predicate Quorum(r: Roster, ack: Id -> bool) {
    MajorityAcks(r, Voters, ack) && (IsJoint(r) ==> MajorityAcks(r, OldVoters, ack))
  }

  // ---- Counting slots is counting identities.

  ghost function Ackers(slots: seq<Option<Member>>, kind: Kind, ack: Id -> bool): set<Id> {
    set k | 0 <= k < |slots| && Seats(slots, k, kind) && ack(slots[k].value.id) :: slots[k].value.id
  }

  /** The last slot adds its member, if it counts. */
  lemma AckersStep(slots: seq<Option<Member>>, kind: Kind, ack: Id -> bool)
    requires slots != []
    ensures
      var n := |slots| - 1;
      Ackers(slots, kind, ack) ==
      Ackers(slots[..n], kind, ack) +
      if Seats(slots, n, kind) && ack(slots[n].value.id) then {slots[n].value.id} else {}
  {
    var n := |slots| - 1;
    var less := slots[..n];
    assert forall k | 0 <= k < n :: less[k] == slots[k];
    forall x | x in Ackers(less, kind, ack) ensures x in Ackers(slots, kind, ack) {
      var k :| 0 <= k < n && Seats(less, k, kind) && ack(less[k].value.id) && less[k].value.id == x;
      assert Seats(slots, k, kind);
    }
    forall x | x in Ackers(slots, kind, ack) && x !in Ackers(less, kind, ack)
      ensures Seats(slots, n, kind) && ack(slots[n].value.id) && x == slots[n].value.id
    {
      var k :| 0 <= k < |slots| && Seats(slots, k, kind) && ack(slots[k].value.id) && slots[k].value.id == x;
      if k < n {
        assert Seats(less, k, kind);
      }
    }
  }

  lemma AckersMember(slots: seq<Option<Member>>, kind: Kind, ack: Id -> bool, x: Id) returns (k: nat)
    requires x in Ackers(slots, kind, ack)
    ensures k < |slots| && Seats(slots, k, kind) && slots[k].value.id == x
  {
    k :| 0 <= k < |slots| && Seats(slots, k, kind) && ack(slots[k].value.id) && slots[k].value.id == x;
  }

  lemma {:induction false} TallyCounts(slots: seq<Option<Member>>, kind: Kind, ack: Id -> bool)
    requires Distinct(slots)
    ensures Tally(slots, kind, ack) == |Ackers(slots, kind, ack)|
    decreases |slots|
  {
    if slots != [] {
      var n := |slots| - 1;
      TallyCounts(slots[..n], kind, ack);
      AckersStep(slots, kind, ack);
      if Seats(slots, n, kind) && slots[n].value.id in Ackers(slots[..n], kind, ack) {
        var k := AckersMember(slots[..n], kind, ack, slots[n].value.id);
      }
    }
  }

  /** More than half of `whole` acknowledge. */
  ghost predicate MostOf(whole: set<Id>, ack: Id -> bool) {
    2 * |set j | j in whole && ack(j)| > |whole|
  }

  lemma MajorityIsMost(r: Roster, kind: Kind, ack: Id -> bool)
    requires Distinct(r.slots)
    ensures MajorityAcks(r, kind, ack) == MostOf(SetOf(r, kind), ack)
  {
    TallyCounts(r.slots, kind, ack);
    TallyCounts(r.slots, kind, Everybody());
    assert Ackers(r.slots, kind, Everybody()) == SetOf(r, kind);
    assert Ackers(r.slots, kind, ack) == set j | j in SetOf(r, kind) && ack(j);
  }

  /** The quorum test on slots is the two-majorities rule on sets of identities. */
  lemma QuorumIsMajorities(r: Roster, ack: Id -> bool)
    requires Distinct(r.slots)
    ensures Quorum(r, ack) ==
            (MostOf(SetOf(r, Voters), ack) && (SetOf(r, OldVoters) != {} ==> MostOf(SetOf(r, OldVoters), ack)))
  {
    MajorityIsMost(r, Voters, ack);
    MajorityIsMost(r, OldVoters, ack);
    JointIsNonempty(r);
  }

  lemma JointIsNonempty(r: Roster)
    ensures IsJoint(r) == (SetOf(r, OldVoters) != {})
  {
    if k :| 0 <= k < |r.slots| && Seats(r.slots, k, OldVoters) {
      assert r.slots[k].value.id in SetOf(r, OldVoters);
    }
  }
}
