/**
 * A membership is its sets: what building, joining and finalizing do to the voters,
 * learners and old voters, whatever the slot layout (jarl/src/membership.rs), and that
 * quorums of successive configurations share a voter.
 */
module MembershipSets {
  import opened Types
  import opened FiniteSets
  import opened Memberships

  // ---- Slots.

  function IdSlot(slots: seq<Option<Member>>, id: Id): (r: nat)
    ensures r <= |slots|
    ensures r < |slots| ==> slots[r].Some? && slots[r].value.id == id
    ensures forall k | 0 <= k < r :: slots[k].Some? ==> slots[k].value.id != id
  {
    if slots == [] || (slots[0].Some? && slots[0].value.id == id) then 0 else 1 + IdSlot(slots[1..], id)
  }

  function EmptySlot(slots: seq<Option<Member>>): (r: nat)
    ensures r <= |slots|
    ensures r < |slots| ==> slots[r].None?
    ensures forall k | 0 <= k < r :: slots[k].Some?
  {
    if slots == [] || slots[0].None? then 0 else 1 + EmptySlot(slots[1..])
  }

  /** The slot an identity has or would get; |slots| when there is no room. */
  function SlotFor(slots: seq<Option<Member>>, id: Id): (r: nat)
    ensures r <= |slots|
  {
    if IdSlot(slots, id) < |slots| then IdSlot(slots, id) else EmptySlot(slots)
  }

  function Marked(m: Member, kind: Kind): Member {
    match kind
    case Voters => m.(voter := true)
    case Learners => m.(learner := true)
    case OldVoters => m.(oldVoter := true)
  }

  function Included(slots: seq<Option<Member>>, id: Id, kind: Kind): Result<seq<Option<Member>>, Error> {
    var slot := SlotFor(slots, id);
    if slot == |slots| then Err(Config)
    else
      var m := if slots[slot].Some? then slots[slot].value else Member(id, false, false, false);
      Ok(slots[slot := Some(Marked(m, kind))])
  }

  function IncludedAll(slots: seq<Option<Member>>, ids: seq<Id>, kind: Kind): Result<seq<Option<Member>>, Error>
    decreases |ids|
  {
    if ids == [] then Ok(slots)
    else
      match Included(slots, ids[0], kind)
      case Err(e) => Err(e)
      case Ok(more) => IncludedAll(more, ids[1..], kind)
  }

  predicate NoDuplicates(ids: seq<Id>) {
    forall p, q | 0 <= p < q < |ids| :: ids[p] != ids[q]
  }

  predicate Apart(a: seq<Id>, b: seq<Id>) {
    forall x | x in a :: x !in b
  }

  function NoMembers(max: nat): (r: seq<Option<Member>>)
    ensures |r| == max && forall k | 0 <= k < max :: r[k].None?
  {
    seq(max, _ => None)
  }

  /** Membership::restore: voters, then learners, then old voters. */
  function RestoredRoster(max: nat, voters: seq<Id>, oldVoters: seq<Id>, learners: seq<Id>): Result<Roster, Error> {
    if || voters == []
       || !NoDuplicates(voters) || !NoDuplicates(learners) || !NoDuplicates(oldVoters)
       || !Apart(learners, voters)
    then Err(Config)
    else
      match IncludedAll(NoMembers(max), voters, Voters)
      case Err(e) => Err(e)
      case Ok(withVoters) =>
        match IncludedAll(withVoters, learners, Learners)
        case Err(e) => Err(e)
        case Ok(withLearners) =>
          match IncludedAll(withLearners, oldVoters, OldVoters)
          case Err(e) => Err(e)
          case Ok(all) => Ok(Roster(all))
  }

  /** Membership::joint: the target, with the current voters as old voters. */
  function Joint(current: Roster, target: Roster): Result<Roster, Error> {
    if IsJoint(current) || IsJoint(target) then Err(Reconfiguring)
    else
      match IncludedAll(target.slots, ListOf(current.slots, Voters), OldVoters)
      case Err(_) => Err(Full)
      case Ok(all) => Ok(Roster(all))
  }

  function FinalSlot(m: Option<Member>): Option<Member> {
    if m.None? || (!m.value.voter && !m.value.learner) then None else Some(m.value.(oldVoter := false))
  }

  function Finalized(r: Roster): Roster {
    Roster(seq(|r.slots|, k requires 0 <= k < |r.slots| => FinalSlot(r.slots[k])))
  }

  function WithLearners(current: Roster, learners: seq<Id>): Result<Roster, Error> {
    if !NoDuplicates(learners) || exists id :: id in learners && IsVoter(current, id) then Err(Config)
    else
      match IncludedAll(NoMembers(|current.slots|), ListOf(current.slots, Voters), Voters)
      case Err(e) => Err(e)
      case Ok(voters) =>
        match IncludedAll(voters, learners, Learners)
        case Err(e) => Err(e)
        case Ok(all) => Ok(Roster(all))
  }

  /** PartialEq: as many members, each of them a member there with the same flags. */
  predicate SameMembers(a: Roster, b: Roster) {
    && Occupants(a.slots) == Occupants(b.slots)
    && forall k | 0 <= k < |a.slots| && a.slots[k].Some? :: a.slots[k] in b.slots
  }

  function Occupants(slots: seq<Option<Member>>): nat {
    if slots == [] then 0
    else Occupants(slots[..|slots| - 1]) + if slots[|slots| - 1].Some? then 1 else 0
  }

  // ---- Counting.

  lemma InEveryone(slots: seq<Option<Member>>, x: Id) returns (k: nat)
    requires x in Everyone(Roster(slots))
    ensures k < |slots| && slots[k].Some? && slots[k].value.id == x
  {
    k :| 0 <= k < |slots| && slots[k].Some? && slots[k].value.id == x;
  }

  /** The last slot adds its member, who has no other slot. */
  lemma EveryoneSnoc(slots: seq<Option<Member>>)
    requires slots != [] && Distinct(slots)
    ensures
      var n := |slots| - 1;
      && Everyone(Roster(slots)) ==
         Everyone(Roster(slots[..n])) + (if slots[n].Some? then {slots[n].value.id} else {})
      && (slots[n].Some? ==> slots[n].value.id !in Everyone(Roster(slots[..n])))
  {
    var n := |slots| - 1;
    var less := slots[..n];
    forall x | x in Everyone(Roster(slots)) && !(slots[n].Some? && slots[n].value.id == x)
      ensures x in Everyone(Roster(less))
    {
      var k := InEveryone(slots, x);
      assert less[k] == slots[k];
    }
    forall x | x in Everyone(Roster(less))
      ensures x in Everyone(Roster(slots)) && !(slots[n].Some? && slots[n].value.id == x)
    {
      var k := InEveryone(less, x);
      assert less[k] == slots[k];
    }
  }

  lemma {:induction false} OccupantsAreEveryone(slots: seq<Option<Member>>)
    requires Distinct(slots)
    ensures Occupants(slots) == |Everyone(Roster(slots))|
    decreases |slots|
  {
    if slots != [] {
      var n := |slots| - 1;
      EveryoneSnoc(slots);
      DistinctPrefix(slots, n);
      hide Everyone, Distinct;
      OccupantsAreEveryone(slots[..n]);
    }
  }

  lemma DistinctPrefix(slots: seq<Option<Member>>, n: nat)
    requires Distinct(slots) && n <= |slots|
    ensures Distinct(slots[..n])
  {
  }

  lemma {:induction false} OccupantsFull(slots: seq<Option<Member>>)
    ensures Occupants(slots) <= |slots|
    ensures Occupants(slots) == |slots| <==> forall k | 0 <= k < |slots| :: slots[k].Some?
    decreases |slots|
  {
    if slots != [] {
      var n := |slots| - 1;
      OccupantsFull(slots[..n]);
      assert forall k | 0 <= k < n :: slots[..n][k] == slots[k];
    }
  }

  // ---- Including.

  ghost function IdSet(ids: seq<Id>): set<Id> {
    set x | x in ids
  }

  /** b is a with the ids added to one kind. */
  ghost predicate Adds(a: seq<Option<Member>>, b: seq<Option<Member>>, ids: set<Id>, kind: Kind) {
    && |b| == |a| && Distinct(b)
    && Everyone(Roster(b)) == Everyone(Roster(a)) + ids
    && forall k: Kind :: SetOf(Roster(b), k) == SetOf(Roster(a), k) + if k == kind then ids else {}
  }

  lemma IdSlotHolds(slots: seq<Option<Member>>, id: Id)
    ensures IdSlot(slots, id) < |slots| ==> id in Everyone(Roster(slots))
  {
  }

  lemma SlotForHasRoom(slots: seq<Option<Member>>, id: Id)
    requires Distinct(slots)
    ensures SlotFor(slots, id) < |slots| <==> |Everyone(Roster(slots)) + {id}| <= |slots|
  {
    OccupantsAreEveryone(slots);
    OccupantsFull(slots);
    var all := Everyone(Roster(slots));
    IdSlotHolds(slots, id);
    if id in all {
      var k := InEveryone(slots, id);
      assert all + {id} == all;
    } else {
      assert |all + {id}| == |all| + 1;
    }
  }

  lemma SetMember(slots: seq<Option<Member>>, kind: Kind, x: Id) returns (k: nat)
    requires x in SetOf(Roster(slots), kind)
    ensures k < |slots| && Seats(slots, k, kind) && slots[k].value.id == x
  {
    k :| 0 <= k < |slots| && Seats(slots, k, kind) && slots[k].value.id == x;
  }

  lemma UpdatedDistinct(slots: seq<Option<Member>>, slot: nat, m: Member)
    requires Distinct(slots) && slot < |slots|
    requires slots[slot].Some? ==> slots[slot].value.id == m.id
    requires slots[slot].None? ==> m.id !in Everyone(Roster(slots))
    ensures Distinct(slots[slot := Some(m)])
    ensures Everyone(Roster(slots[slot := Some(m)])) == Everyone(Roster(slots)) + {m.id}
  {
    var more := slots[slot := Some(m)];
    forall k | 0 <= k < |slots| && k != slot && slots[k].Some? ensures slots[k].value.id != m.id {
      if slots[slot].None? {
        assert slots[k].value.id in Everyone(Roster(slots));
      }
    }
    forall x | x in Everyone(Roster(slots)) + {m.id} ensures x in Everyone(Roster(more)) {
      if x == m.id {
        assert more[slot].Some?;
      } else {
        var k := InEveryone(slots, x);
        assert more[k] == slots[k];
      }
    }
  }

  lemma UpdatedSet(slots: seq<Option<Member>>, slot: nat, m: Member, kind: Kind)
    requires slot < |slots|
    requires slots[slot].Some? ==> slots[slot].value.id == m.id
    requires slots[slot].Some? && Has(slots[slot].value, kind) ==> Has(m, kind)
    ensures SetOf(Roster(slots[slot := Some(m)]), kind) ==
            SetOf(Roster(slots), kind) + if Has(m, kind) then {m.id} else {}
  {
    var more := slots[slot := Some(m)];
    var goal := SetOf(Roster(slots), kind) + if Has(m, kind) then {m.id} else {};
    forall x | x in goal ensures x in SetOf(Roster(more), kind) {
      if x in SetOf(Roster(slots), kind) {
        var k := SetMember(slots, kind, x);
        assert Seats(more, k, kind);
      } else {
        assert Seats(more, slot, kind);
      }
    }
    forall x | x in SetOf(Roster(more), kind) ensures x in goal {
      var k := SetMember(more, kind, x);
      if k != slot {
        assert Seats(slots, k, kind);
      }
    }
  }

  lemma IncludedAdds(slots: seq<Option<Member>>, id: Id, kind: Kind)
    requires Distinct(slots)
    ensures Included(slots, id, kind).Ok? <==> |Everyone(Roster(slots)) + {id}| <= |slots|
    ensures Included(slots, id, kind).Err? ==> Included(slots, id, kind).error == Config
    ensures Included(slots, id, kind).Ok? ==> Adds(slots, Included(slots, id, kind).value, {id}, kind)
  {
    SlotForHasRoom(slots, id);
    var slot := SlotFor(slots, id);
    if slot < |slots| {
      var old_ := if slots[slot].Some? then slots[slot].value else Member(id, false, false, false);
      var m := Marked(old_, kind);
      if slots[slot].None? && id in Everyone(Roster(slots)) {
        var k := InEveryone(slots, id);
      }
      UpdatedDistinct(slots, slot, m);
      forall k: Kind
        ensures SetOf(Roster(slots[slot := Some(m)]), k) == SetOf(Roster(slots), k) + if k == kind then {id} else {}
      {
        UpdatedSet(slots, slot, m, k);
        if Has(m, k) && k != kind {
          assert Seats(slots, slot, k);
          assert id in SetOf(Roster(slots), k);
        }
      }
    }
  }

  lemma AddsNothing(slots: seq<Option<Member>>, kind: Kind)
    requires Distinct(slots)
    ensures Adds(slots, slots, {}, kind)
  {
  }

  lemma AddsFacts(a: seq<Option<Member>>, b: seq<Option<Member>>, ids: set<Id>, kind: Kind)
    requires Adds(a, b, ids, kind)
    ensures |b| == |a| && Distinct(b) && Everyone(Roster(b)) == Everyone(Roster(a)) + ids
  {
  }

  lemma IdSetHead(ids: seq<Id>)
    requires ids != []
    ensures IdSet(ids) == {ids[0]} + IdSet(ids[1..])
  {
    assert ids == [ids[0]] + ids[1..];
  }

  /** Including a list succeeds exactly when everybody fits, and then adds exactly them. */
  lemma {:induction false} IncludedAllAdds(slots: seq<Option<Member>>, ids: seq<Id>, kind: Kind)
    requires Distinct(slots)
    ensures
      var r := IncludedAll(slots, ids, kind);
      && (r.Ok? <==> |Everyone(Roster(slots)) + IdSet(ids)| <= |slots|)
      && (r.Err? ==> r.error == Config)
      && (r.Ok? ==> Adds(slots, r.value, IdSet(ids), kind))
    decreases |ids|
  {
    hide Adds, Everyone, Distinct, Included;
    var all := Everyone(Roster(slots));
    if ids == [] {
      OccupantsAreEveryone(slots);
      OccupantsFull(slots);
      assert all + IdSet(ids) == all && IdSet(ids) == {};
      AddsNothing(slots, kind);
    } else {
      IncludedAdds(slots, ids[0], kind);
      IdSetHead(ids);
      hide IdSet;
      assert all + IdSet(ids) == (all + {ids[0]}) + IdSet(ids[1..]);
      match Included(slots, ids[0], kind) {
        case Err(_) => SubsetCardinality(all + {ids[0]}, all + IdSet(ids));
        case Ok(more) =>
          AddsFacts(slots, more, {ids[0]}, kind);
          IncludedAllAdds(more, ids[1..], kind);
          AddsTwice(slots, more, {ids[0]}, IdSet(ids[1..]), kind);
      }
    }
  }

  lemma AddsTwice(a: seq<Option<Member>>, b: seq<Option<Member>>, xs: set<Id>, ys: set<Id>, kind: Kind)
    requires Adds(a, b, xs, kind)
    ensures forall c | Adds(b, c, ys, kind) :: Adds(a, c, xs + ys, kind)
  {
    forall c | Adds(b, c, ys, kind) ensures Adds(a, c, xs + ys, kind) {
    }
  }

  // ---- Restoring.

  lemma NobodyYet(max: nat)
    ensures Distinct(NoMembers(max)) && Everyone(Roster(NoMembers(max))) == {}
    ensures forall k: Kind :: SetOf(Roster(NoMembers(max)), k) == {}
  {
  }

  /** Everybody has a role, nobody is voter and learner, somebody votes. */
  lemma SetsMakeProper(r: Roster)
    requires Distinct(r.slots) && SetOf(r, Voters) != {}
    requires Everyone(r) == SetOf(r, Voters) + SetOf(r, Learners) + SetOf(r, OldVoters)
    requires SetOf(r, Voters) * SetOf(r, Learners) == {}
    ensures Proper(r)
  {
    var x :| x in SetOf(r, Voters);
    var s := SetMember(r.slots, Voters, x);
    forall k | 0 <= k < |r.slots| && r.slots[k].Some?
      ensures r.slots[k].value.voter || r.slots[k].value.oldVoter || r.slots[k].value.learner
      ensures !(r.slots[k].value.voter && r.slots[k].value.learner)
    {
      var id := r.slots[k].value.id;
      assert id in Everyone(r) && id !in SetOf(r, Voters) * SetOf(r, Learners);
      RoleOf(r, k, Voters);
      RoleOf(r, k, Learners);
      RoleOf(r, k, OldVoters);
    }
  }

  /** With one slot per identity, being in a set is having the flag. */
  lemma RoleOf(r: Roster, k: nat, kind: Kind)
    requires Distinct(r.slots) && k < |r.slots| && r.slots[k].Some?
    ensures r.slots[k].value.id in SetOf(r, kind) <==> Has(r.slots[k].value, kind)
  {
    if Has(r.slots[k].value, kind) {
      assert Seats(r.slots, k, kind);
    } else if r.slots[k].value.id in SetOf(r, kind) {
      var j := SetMember(r.slots, kind, r.slots[k].value.id);
    }
  }

  /** r is proper and holds exactly these sets. */
  ghost predicate Holds(r: Roster, voters: set<Id>, oldVoters: set<Id>, learners: set<Id>) {
    && Proper(r)
    && SetOf(r, Voters) == voters && SetOf(r, OldVoters) == oldVoters && SetOf(r, Learners) == learners
    && Everyone(r) == voters + oldVoters + learners
  }

  /**
   * Restore succeeds exactly on a nonempty voter list, lists without duplicates, voters
   * apart from learners and a union that fits, and then holds exactly those sets.
   */
  lemma RestoreHolds(max: nat, voters: seq<Id>, oldVoters: seq<Id>, learners: seq<Id>)
    ensures
      var r := RestoredRoster(max, voters, oldVoters, learners);
      && (r.Ok? <==>
            && voters != [] && NoDuplicates(voters) && NoDuplicates(oldVoters) && NoDuplicates(learners)
            && Apart(learners, voters)
            && |IdSet(voters) + IdSet(oldVoters) + IdSet(learners)| <= max)
      && (r.Ok? ==> Holds(r.value, IdSet(voters), IdSet(oldVoters), IdSet(learners)) && |r.value.slots| == max)
  {
    hide Adds, Everyone, Distinct, SetOf, IncludedAll, NoMembers;
    if voters != [] && NoDuplicates(voters) && NoDuplicates(oldVoters) && NoDuplicates(learners)
       && Apart(learners, voters)
    {
      assert voters[0] in IdSet(voters);
      assert IdSet(voters) * IdSet(learners) == {};
      RestoreFits(max, voters, oldVoters, learners);
    }
  }

  lemma RestoreFits(max: nat, voters: seq<Id>, oldVoters: seq<Id>, learners: seq<Id>)
    requires voters != [] && NoDuplicates(voters) && NoDuplicates(oldVoters) && NoDuplicates(learners)
    requires Apart(learners, voters) && IdSet(voters) != {} && IdSet(voters) * IdSet(learners) == {}
    ensures
      var r := RestoredRoster(max, voters, oldVoters, learners);
      && (r.Ok? <==> |IdSet(voters) + IdSet(oldVoters) + IdSet(learners)| <= max)
      && (r.Ok? ==> Holds(r.value, IdSet(voters), IdSet(oldVoters), IdSet(learners)) && |r.value.slots| == max)
  {
    hide Everyone, Distinct, SetOf, IncludedAll, NoMembers, IdSet, NoDuplicates, Apart, Proper;
    var v, o, l := IdSet(voters), IdSet(oldVoters), IdSet(learners);
    var a := NoMembers(max);
    NobodyYet(max);
    assert |a| == max by { NoMembersSize(max); }
    assert {} + v == v;
    assert v + o + l == v + l + o;
    SubsetCardinality(v, v + l + o);
    SubsetCardinality(v + l, v + l + o);
    IncludedAllAdds(a, voters, Voters);
    if IncludedAll(a, voters, Voters).Ok? {
      var b := IncludedAll(a, voters, Voters).value;
      IncludedAllAdds(b, learners, Learners);
      if IncludedAll(b, learners, Learners).Ok? {
        var c := IncludedAll(b, learners, Learners).value;
        IncludedAllAdds(c, oldVoters, OldVoters);
        if IncludedAll(c, oldVoters, OldVoters).Ok? {
          var d := IncludedAll(c, oldVoters, OldVoters).value;
          assert SetOf(Roster(d), Voters) == v && SetOf(Roster(d), Learners) == l && SetOf(Roster(d), OldVoters) == o;
          SetsMakeProper(Roster(d));
        }
      }
    }
  }

  lemma NoMembersSize(max: nat)
    ensures |NoMembers(max)| == max
  {
  }
}
