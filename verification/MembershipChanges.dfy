/**
 * Changing a membership: equality is equality of sets, joining a target and finalizing
 * gives back the target, and a quorum of each configuration in a change meets every
 * quorum of the one it replaces (section 6 of the Raft paper).
 */
module MembershipChanges {
  import opened Types
  import opened FiniteSets
  import opened Memberships
  import opened MembershipSets

  ghost predicate SameSets(a: Roster, b: Roster) {
    forall kind: Kind :: SetOf(a, kind) == SetOf(b, kind)
  }

  lemma ProperEveryone(r: Roster)
    requires Proper(r)
    ensures Everyone(r) == SetOf(r, Voters) + SetOf(r, Learners) + SetOf(r, OldVoters)
  {
    forall x | x in Everyone(r) ensures x in SetOf(r, Voters) + SetOf(r, Learners) + SetOf(r, OldVoters) {
      var k := InEveryone(r.slots, x);
      RoleOf(r, k, Voters);
      RoleOf(r, k, Learners);
      RoleOf(r, k, OldVoters);
    }
    forall kind: Kind, x | x in SetOf(r, kind) ensures x in Everyone(r) {
      var k := SetMember(r.slots, kind, x);
    }
  }

  /** A member's flags are the sets it is in. */
  lemma FlagsOf(r: Roster, k: nat)
    requires Distinct(r.slots) && k < |r.slots| && r.slots[k].Some?
    ensures
      var m := r.slots[k].value;
      && m.voter == (m.id in SetOf(r, Voters)) && m.learner == (m.id in SetOf(r, Learners))
      && m.oldVoter == (m.id in SetOf(r, OldVoters))
  {
    RoleOf(r, k, Voters);
    RoleOf(r, k, Learners);
    RoleOf(r, k, OldVoters);
  }

  /** Equality compares the three sets, whatever the slot layout. */
  lemma EqualityIsSets(a: Roster, b: Roster)
    requires Proper(a) && Proper(b)
    ensures SameMembers(a, b) <==> SameSets(a, b)
  {
    OccupantsAreEveryone(a.slots);
    OccupantsAreEveryone(b.slots);
    if SameSets(a, b) {
      SetsGiveMembers(a, b);
    }
    if SameMembers(a, b) {
      MembersGiveSets(a, b);
    }
  }

  lemma SetsGiveMembers(a: Roster, b: Roster)
    requires Proper(a) && Proper(b) && SameSets(a, b)
    ensures Everyone(a) == Everyone(b)
    ensures forall k | 0 <= k < |a.slots| && a.slots[k].Some? :: a.slots[k] in b.slots
  {
    ProperEveryone(a);
    ProperEveryone(b);
    forall k | 0 <= k < |a.slots| && a.slots[k].Some? ensures a.slots[k] in b.slots {
      assert a.slots[k].value.id in Everyone(b);
      var j := InEveryone(b.slots, a.slots[k].value.id);
      FlagsOf(a, k);
      FlagsOf(b, j);
      assert b.slots[j] == a.slots[k];
    }
  }

  lemma MembersIncluded(a: Roster, b: Roster)
    requires forall k | 0 <= k < |a.slots| && a.slots[k].Some? :: a.slots[k] in b.slots
    ensures Everyone(a) <= Everyone(b) && forall kind: Kind :: SetOf(a, kind) <= SetOf(b, kind)
  {
    forall x | x in Everyone(a) ensures x in Everyone(b) {
      var k := InEveryone(a.slots, x);
      var j :| 0 <= j < |b.slots| && b.slots[j] == a.slots[k];
    }
    forall kind: Kind, x | x in SetOf(a, kind) ensures x in SetOf(b, kind) {
      var k := SetMember(a.slots, kind, x);
      var j :| 0 <= j < |b.slots| && b.slots[j] == a.slots[k];
      assert Seats(b.slots, j, kind);
    }
  }

  lemma MembersGiveSets(a: Roster, b: Roster)
    requires Proper(a) && Proper(b) && SameMembers(a, b) && |Everyone(a)| == |Everyone(b)|
    ensures SameSets(a, b)
  {
    MembersIncluded(a, b);
    SubsetSameSize(Everyone(a), Everyone(b));
    forall k | 0 <= k < |b.slots| && b.slots[k].Some? ensures b.slots[k] in a.slots {
      var j := InEveryone(a.slots, b.slots[k].value.id);
      var i :| 0 <= i < |b.slots| && b.slots[i] == a.slots[j];
      assert i == k;
    }
    MembersIncluded(b, a);
  }

  // ---- Joint consensus.

  lemma {:induction false} ListIsSet(slots: seq<Option<Member>>, kind: Kind)
    ensures IdSet(ListOf(slots, kind)) == SetOf(Roster(slots), kind)
    decreases |slots|
  {
    if slots != [] {
      var n := |slots| - 1;
      ListIsSet(slots[..n], kind);
      SetSnoc(slots, kind);
      var l := ListOf(slots[..n], kind);
      assert ListOf(slots, kind) == l + if Seats(slots, n, kind) then [slots[n].value.id] else [];
      hide ListOf;
      assert IdSet(l + if Seats(slots, n, kind) then [slots[n].value.id] else []) ==
             IdSet(l) + if Seats(slots, n, kind) then {slots[n].value.id} else {};
    }
  }

  lemma SetSnoc(slots: seq<Option<Member>>, kind: Kind)
    requires slots != []
    ensures
      var n := |slots| - 1;
      SetOf(Roster(slots), kind) ==
      SetOf(Roster(slots[..n]), kind) + if Seats(slots, n, kind) then {slots[n].value.id} else {}
  {
    var n := |slots| - 1;
    var less := slots[..n];
    forall x | x in SetOf(Roster(less), kind) ensures x in SetOf(Roster(slots), kind) {
      var k := SetMember(less, kind, x);
      assert Seats(slots, k, kind);
    }
    forall x | x in SetOf(Roster(slots), kind) && !(Seats(slots, n, kind) && slots[n].value.id == x)
      ensures x in SetOf(Roster(less), kind)
    {
      var k := SetMember(slots, kind, x);
      assert Seats(less, k, kind);
    }
  }

  lemma StableSets(r: Roster)
    requires !IsJoint(r)
    ensures SetOf(r, OldVoters) == {}
  {
    JointIsNonempty(r);
  }

  /** Joining fails exactly on a joint side or a union that does not fit, and keeps both sides' sets. */
  lemma JointHolds(current: Membership, target: Membership)
    ensures
      var j := Joint(current, target);
      && (j.Ok? <==>
            && !IsJoint(current) && !IsJoint(target)
            && |Everyone(target) + SetOf(current, Voters)| <= |target.slots|)
      && (j.Err? ==> j.error == if IsJoint(current) || IsJoint(target) then Reconfiguring else Full)
      && (j.Ok? ==> Holds(j.value, SetOf(target, Voters), SetOf(current, Voters), SetOf(target, Learners)))
  {
    if !IsJoint(current) && !IsJoint(target) {
      JointFits(current, target);
    }
  }

  /** What adding the old voters to a stable target gives. */
  lemma JoinedHolds(target: Membership, all: seq<Option<Member>>, old_: set<Id>)
    requires !IsJoint(target) && Adds(target.slots, all, old_, OldVoters)
    ensures Holds(Roster(all), SetOf(target, Voters), old_, SetOf(target, Learners))
  {
    ProperEveryone(target);
    StableSets(target);
    ProperApart(target);
    ProperVoters(target);
    hide Distinct, Proper, SetOf, Everyone;
    var r := Roster(all);
    assert SetOf(r, Voters) == SetOf(target, Voters) + {};
    assert SetOf(r, Learners) == SetOf(target, Learners) + {};
    assert SetOf(r, OldVoters) == {} + old_;
    hide Adds, IsJoint;
    assert Everyone(r) == SetOf(target, Voters) + SetOf(target, Learners) + old_ by {
      AddsFacts(target.slots, all, old_, OldVoters);
    }
    AddsFacts(target.slots, all, old_, OldVoters);
    SetsMakeProper(r);
  }

  lemma JointFits(current: Membership, target: Membership)
    requires !IsJoint(current) && !IsJoint(target)
    ensures
      var j := Joint(current, target);
      && (j.Ok? <==> |Everyone(target) + SetOf(current, Voters)| <= |target.slots|)
      && (j.Err? ==> j.error == Full)
      && (j.Ok? ==> Holds(j.value, SetOf(target, Voters), SetOf(current, Voters), SetOf(target, Learners)))
  {
    hide SetOf, Everyone, ListOf, Adds, IncludedAll, IdSet, Holds, IsJoint;
    var ids := ListOf(current.slots, Voters);
    ListIsSet(current.slots, Voters);
    ProperVoters(target);
    hide Proper, Distinct;
    IncludedAllAdds(target.slots, ids, OldVoters);
    if IncludedAll(target.slots, ids, OldVoters).Ok? {
      JoinedHolds(target, IncludedAll(target.slots, ids, OldVoters).value, SetOf(current, Voters));
    }
  }

  lemma ProperVoters(r: Roster)
    requires Proper(r)
    ensures SetOf(r, Voters) != {} && Distinct(r.slots)
  {
    var k :| 0 <= k < |r.slots| && Seats(r.slots, k, Voters);
    assert r.slots[k].value.id in SetOf(r, Voters);
  }

  lemma ProperApart(r: Roster)
    requires Proper(r)
    ensures SetOf(r, Voters) * SetOf(r, Learners) == {}
  {
    forall x | x in SetOf(r, Voters) ensures x !in SetOf(r, Learners) {
      var k := SetMember(r.slots, Voters, x);
      RoleOf(r, k, Learners);
    }
  }

  /** Finalizing forgets the old voters and whoever was nothing else. */
  lemma FinalizedSets(r: Roster)
    requires Proper(r)
    ensures Holds(Finalized(r), SetOf(r, Voters), {}, SetOf(r, Learners)) && |Finalized(r).slots| == |r.slots|
  {
    var f := Finalized(r);
    forall k | 0 <= k < |r.slots|
      ensures Seats(f.slots, k, Voters) == Seats(r.slots, k, Voters)
      ensures Seats(f.slots, k, Learners) == Seats(r.slots, k, Learners)
      ensures !Seats(f.slots, k, OldVoters)
      ensures f.slots[k].Some? ==> r.slots[k].Some? && f.slots[k].value.id == r.slots[k].value.id
    {
    }
    FinalizedSet(r, Voters);
    FinalizedSet(r, Learners);
    FinalizedProper(r);
    ProperEveryone(f);
    assert SetOf(f, OldVoters) == {};
  }

  lemma FinalizedSet(r: Roster, kind: Kind)
    requires kind != OldVoters
    ensures SetOf(Finalized(r), kind) == SetOf(r, kind)
  {
    var f := Finalized(r);
    forall x | x in SetOf(r, kind) ensures x in SetOf(f, kind) {
      var k := SetMember(r.slots, kind, x);
      assert Seats(f.slots, k, kind);
    }
    forall x | x in SetOf(f, kind) ensures x in SetOf(r, kind) {
      var k := SetMember(f.slots, kind, x);
      assert Seats(r.slots, k, kind);
    }
  }

  lemma FinalizedProper(r: Roster)
    requires Proper(r)
    ensures Proper(Finalized(r))
  {
    var k :| 0 <= k < |r.slots| && Seats(r.slots, k, Voters);
    assert Seats(Finalized(r).slots, k, Voters);
  }

  /** Joining a stable target and finalizing gives back the target. */
  lemma JointThenFinal(current: Membership, target: Membership)
    requires Joint(current, target).Ok?
    ensures SameMembers(Finalized(Joint(current, target).value), target)
  {
    hide Joint, Proper, SetOf, Finalized, SameMembers, Everyone, IsJoint;
    JointHolds(current, target);
    var f := Finalized(Joint(current, target).value);
    FinalizedSets(Joint(current, target).value);
    StableSets(target);
    EqualityIsSets(f, target);
    forall kind: Kind ensures SetOf(f, kind) == SetOf(target, kind) {
      match kind {
        case Voters =>
        case Learners =>
        case OldVoters =>
      }
    }
  }

  /** Replacing learners keeps exactly the voters, and succeeds exactly when nobody is listed twice or votes. */
  lemma WithLearnersHolds(current: Membership, learners: seq<Id>)
    requires !IsJoint(current)
    ensures
      var r := WithLearners(current, learners);
      && (r.Ok? <==>
            && NoDuplicates(learners) && IdSet(learners) * SetOf(current, Voters) == {}
            && |SetOf(current, Voters) + IdSet(learners)| <= |current.slots|)
      && (r.Ok? ==> Holds(r.value, SetOf(current, Voters), {}, IdSet(learners)))
  {
    StableSets(current);
    forall id ensures IsVoter(current, id) <==> id in SetOf(current, Voters) {
      VoterIsInSet(current, id);
    }
    assert (exists id :: id in learners && IsVoter(current, id)) <==>
        IdSet(learners) * SetOf(current, Voters) != {} by {
      if id :| id in learners && IsVoter(current, id) {
        assert id in IdSet(learners) * SetOf(current, Voters);
      }
      if id :| id in IdSet(learners) * SetOf(current, Voters) {
        assert id in learners && IsVoter(current, id);
      }
    }
    if NoDuplicates(learners) && IdSet(learners) * SetOf(current, Voters) == {} {
      LearnersFit(current, learners);
    }
  }

  lemma VoterIsInSet(r: Roster, id: Id)
    requires SetOf(r, OldVoters) == {}
    ensures IsVoter(r, id) <==> id in SetOf(r, Voters)
  {
    if id in SetOf(r, Voters) {
      var k := SetMember(r.slots, Voters, id);
    }
    if k :| 0 <= k < |r.slots| && r.slots[k].Some? && r.slots[k].value.id == id
            && (r.slots[k].value.voter || r.slots[k].value.oldVoter) {
      if r.slots[k].value.voter {
        assert Seats(r.slots, k, Voters);
      } else {
        assert Seats(r.slots, k, OldVoters);
        assert id in SetOf(r, OldVoters);
      }
    }
  }

  lemma LearnersFit(current: Membership, learners: seq<Id>)
    requires NoDuplicates(learners) && IdSet(learners) * SetOf(current, Voters) == {}
    requires !exists id :: id in learners && IsVoter(current, id)
    ensures
      var r := WithLearners(current, learners);
      && (r.Ok? <==> |SetOf(current, Voters) + IdSet(learners)| <= |current.slots|)
      && (r.Ok? ==> Holds(r.value, SetOf(current, Voters), {}, IdSet(learners)))
  {
    hide SetOf, Everyone, ListOf, Adds, IncludedAll, IdSet, Holds, IsJoint, NoMembers, NoDuplicates, IsVoter;
    var n := |current.slots|;
    var ids := ListOf(current.slots, Voters);
    var v, l := SetOf(current, Voters), IdSet(learners);
    ProperVoters(current);
    ListIsSet(current.slots, Voters);
    hide Proper, Distinct;
    NobodyYet(n);
    NoMembersSize(n);
    IncludedAllAdds(NoMembers(n), ids, Voters);
    assert {} + v == v;
    SubsetCardinality(v, v + l);
    if IncludedAll(NoMembers(n), ids, Voters).Ok? {
      var b := IncludedAll(NoMembers(n), ids, Voters).value;
      AddsFacts(NoMembers(n), b, v, Voters);
      IncludedAllAdds(b, learners, Learners);
      if IncludedAll(b, learners, Learners).Ok? {
        LearnersAdded(NoMembers(n), b, IncludedAll(b, learners, Learners).value, v, l);
      }
    }
  }

  lemma LearnersAdded(
    a: seq<Option<Member>>, b: seq<Option<Member>>, c: seq<Option<Member>>, v: set<Id>, l: set<Id>)
    requires Everyone(Roster(a)) == {} && forall k: Kind :: SetOf(Roster(a), k) == {}
    requires Adds(a, b, v, Voters) && Adds(b, c, l, Learners) && v != {} && l * v == {}
    ensures Holds(Roster(c), v, {}, l)
  {
    hide SetOf, Everyone, Distinct, Proper;
    assert SetOf(Roster(c), Voters) == {} + v + {};
    assert SetOf(Roster(c), Learners) == {} + {} + l;
    assert SetOf(Roster(c), OldVoters) == {} + {} + {};
    assert v * l == {};
    SetsMakeProper(Roster(c));
  }

  // ---- Quorums of successive configurations meet.

  /** What a membership record may replace: other learners, a joint step, or its final step. */
  ghost predicate Succeeds(current: Roster, next: Roster) {
    || (!IsJoint(current) && !IsJoint(next) && SetOf(next, Voters) == SetOf(current, Voters))
    || (!IsJoint(current) && IsJoint(next) && SetOf(next, OldVoters) == SetOf(current, Voters))
    || (IsJoint(current) && !IsJoint(next) && SetOf(next, Voters) == SetOf(current, Voters))
  }

  lemma MajoritiesShare(whole: set<Id>, a: Id -> bool, b: Id -> bool) returns (j: Id)
    requires MostOf(whole, a) && MostOf(whole, b)
    ensures j in whole && a(j) && b(j)
  {
    var x := set j | j in whole && a(j);
    var y := set j | j in whole && b(j);
    if x * y == {} {
      assert |x + y| == |x| + |y|;
      SubsetCardinality(x + y, whole);
      assert false;
    }
    j :| j in x * y;
  }

  /** Section 6: no two quorums of a configuration and its replacement can act apart. */
  lemma QuorumsMeet(current: Roster, next: Roster, a: Id -> bool, b: Id -> bool) returns (j: Id)
    requires Distinct(current.slots) && Distinct(next.slots) && Succeeds(current, next)
    requires Quorum(current, a) && Quorum(next, b)
    ensures a(j) && b(j)
  {
    QuorumIsMajorities(current, a);
    QuorumIsMajorities(next, b);
    JointIsNonempty(current);
    JointIsNonempty(next);
    hide MostOf, Quorum, SetOf, IsJoint, Distinct;
    j := MajoritiesShare(SetOf(current, Voters), a, b);
  }
}
