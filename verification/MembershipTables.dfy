/**
 * The membership operations as the source runs them: loops that fill and edit a fixed
 * array of slots (jarl/src/membership.rs), proved against MembershipSets.dfy and
 * QuorumIndexes.dfy.
 */
module MembershipTables {
  import opened Types
  import opened Memberships
  import opened MembershipSets
  import opened QuorumIndexes

  /** Membership::include: the identity's own slot, or the first empty one. */
  method Include(members: array<Option<Member>>, id: Id, kind: Kind) returns (fits: bool)
    modifies members
    ensures fits == Included(old(members[..]), id, kind).Ok?
    ensures members[..] == if fits then Included(old(members[..]), id, kind).value else old(members[..])
  {
    var slot := IdSlot(members[..], id);
    if slot == members.Length {
      slot := EmptySlot(members[..]);
    }
    if slot == members.Length {
      return false;
    }
    var member := if members[slot].Some? then members[slot].value else Member(id, false, false, false);
    match kind {
      case Voters => members[slot] := Some(member.(voter := true));
      case Learners => members[slot] := Some(member.(learner := true));
      case OldVoters => members[slot] := Some(member.(oldVoter := true));
    }
    return true;
  }

  /** Nothing listed from i on was listed before or is banned. */
  ghost predicate Clear(ids: seq<Id>, banned: seq<Id>, i: nat) {
    forall k | 0 <= k < |ids| && k < i :: ids[k] !in ids[..k] && ids[k] !in banned
  }

  lemma ClearIsNoDuplicates(ids: seq<Id>, banned: seq<Id>)
    ensures Clear(ids, banned, |ids|) <==> NoDuplicates(ids) && Apart(ids, banned)
  {
    if Clear(ids, banned, |ids|) {
      forall p, q | 0 <= p < q < |ids| ensures ids[p] != ids[q] {
        assert ids[..q][p] == ids[p];
      }
    }
    if NoDuplicates(ids) && Apart(ids, banned) {
      forall k | 0 <= k < |ids| ensures ids[k] !in ids[..k] && ids[k] !in banned {
      }
    }
  }

  /** One pass of the loop over a list: check each identity, then include it. */
  method IncludeList(members: array<Option<Member>>, ids: seq<Id>, kind: Kind, banned: seq<Id>) returns (fits: bool)
    modifies members
    ensures fits ==
            (NoDuplicates(ids) && Apart(ids, banned) && IncludedAll(old(members[..]), ids, kind).Ok?)
    ensures fits ==> members[..] == IncludedAll(old(members[..]), ids, kind).value
  {
    ClearIsNoDuplicates(ids, banned);
    ghost var start := members[..];
    for i := 0 to |ids|
      invariant Clear(ids, banned, i)
      invariant IncludedAll(members[..], ids[i..], kind) == IncludedAll(start, ids, kind)
    {
      if ids[i] in ids[..i] || ids[i] in banned {
        return false;
      }
      assert ids[i..][0] == ids[i] && ids[i..][1..] == ids[i + 1..];
      var included := Include(members, ids[i], kind);
      if !included {
        return false;
      }
    }
    assert ids[|ids|..] == [];
    return true;
  }

  /** Membership::restore. */
  method Restore(max: nat, voters: seq<Id>, oldVoters: seq<Id>, learners: seq<Id>) returns (r: Result<Roster, Error>)
    ensures r == RestoredRoster(max, voters, oldVoters, learners)
  {
    if voters == [] {
      return Err(Config);
    }
    IncludedAllFails(NoMembers(max), voters, Voters);
    var members := new Option<Member>[max](_ => None);
    assert members[..] == NoMembers(max);
    var fits := IncludeList(members, voters, Voters, []);
    if !fits {
      return Err(Config);
    }
    IncludedAllFails(members[..], learners, Learners);
    fits := IncludeList(members, learners, Learners, voters);
    if !fits {
      return Err(Config);
    }
    IncludedAllFails(members[..], oldVoters, OldVoters);
    fits := IncludeList(members, oldVoters, OldVoters, []);
    if !fits {
      return Err(Config);
    }
    return Ok(Roster(members[..]));
  }

  lemma {:induction false} IncludedAllFails(slots: seq<Option<Member>>, ids: seq<Id>, kind: Kind)
    ensures IncludedAll(slots, ids, kind).Err? ==> IncludedAll(slots, ids, kind).error == Config
    decreases |ids|
  {
    if ids != [] && Included(slots, ids[0], kind).Ok? {
      IncludedAllFails(Included(slots, ids[0], kind).value, ids[1..], kind);
    }
  }

  /** The identities of one kind, in slot order. */
  method Listed(r: Roster, kind: Kind) returns (ids: seq<Id>)
    ensures ids == ListOf(r.slots, kind)
  {
    ids := [];
    for k := 0 to |r.slots|
      invariant ids == ListOf(r.slots[..k], kind)
    {
      assert r.slots[..k + 1][..k] == r.slots[..k];
      if r.slots[k].Some? && Has(r.slots[k].value, kind) {
        ids := ids + [r.slots[k].value.id];
      }
    }
    assert r.slots[..|r.slots|] == r.slots;
  }

  lemma {:induction false} ListedDistinct(slots: seq<Option<Member>>, kind: Kind)
    requires Distinct(slots)
    ensures NoDuplicates(ListOf(slots, kind))
    ensures forall x | x in ListOf(slots, kind) :: x in Everyone(Roster(slots))
    decreases |slots|
  {
    if slots != [] {
      var n := |slots| - 1;
      EveryoneSnoc(slots);
      DistinctPrefix(slots, n);
      hide Everyone, Distinct;
      ListedDistinct(slots[..n], kind);
    }
  }

  /** Membership::joint. */
  method JointWith(current: Membership, target: Membership) returns (r: Result<Roster, Error>)
    ensures r == Joint(current, target)
  {
    if IsJoint(current) || IsJoint(target) {
      return Err(Reconfiguring);
    }
    var members := new Option<Member>[|target.slots|](k requires 0 <= k < |target.slots| => target.slots[k]);
    assert members[..] == target.slots;
    var voters := Listed(current, Voters);
    ListedDistinct(current.slots, Voters);
    var fits := IncludeList(members, voters, OldVoters, []);
    if !fits {
      return Err(Full);
    }
    return Ok(Roster(members[..]));
  }

  /** Membership::finalized, slot by slot. */
  method Finalize(r: Roster) returns (f: Roster)
    ensures f == Finalized(r)
  {
    var members := new Option<Member>[|r.slots|](k requires 0 <= k < |r.slots| => r.slots[k]);
    for k := 0 to members.Length
      invariant members.Length == |r.slots|
      invariant forall i | 0 <= i < members.Length ::
        members[i] == if i < k then FinalSlot(r.slots[i]) else r.slots[i]
    {
      if members[k].Some? {
        var member := members[k].value.(oldVoter := false);
        members[k] := if !member.voter && !member.learner then None else Some(member);
      }
    }
    f := Roster(members[..]);
    assert f.slots == Finalized(r).slots;
  }

  /** Membership::quorum_index: collect, sort, and take the position a majority has reached. */
  method QuorumPosition(r: Membership, matched: Id -> U64) returns (index: U64)
    ensures index == QuorumIndex(r, matched)
  {
    var voters := Collected(r, Voters, matched);
    PositionsNonempty(r.slots, Voters, matched);
    OrderedKeeps(voters, 0);
    index := Ordered(voters)[|voters| - (|voters| / 2 + 1)];
    if IsJoint(r) {
      var olds := Collected(r, OldVoters, matched);
      PositionsNonempty(r.slots, OldVoters, matched);
      OrderedKeeps(olds, 0);
      index := Min(index, Ordered(olds)[|olds| - (|olds| / 2 + 1)]);
    }
  }

  method Collected(r: Roster, kind: Kind, matched: Id -> U64) returns (positions: seq<U64>)
    ensures positions == Positions(r.slots, kind, matched)
  {
    positions := [];
    for k := 0 to |r.slots|
      invariant positions == Positions(r.slots[..k], kind, matched)
    {
      assert r.slots[..k + 1][..k] == r.slots[..k];
      if r.slots[k].Some? && Has(r.slots[k].value, kind) {
        positions := positions + [matched(r.slots[k].value.id)];
      }
    }
    assert r.slots[..|r.slots|] == r.slots;
  }
}
