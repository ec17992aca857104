/**
 * The highest position a quorum has reached (Membership::quorum_index), computed by
 * sorting as the source does, and its agreement with counting.
 */
module QuorumIndexes {
  import opened Types
  import opened Memberships

  function Reached(matched: Id -> U64, t: U64): Id -> bool {
    id => matched(id) >= t
  }

  function CountFrom(s: seq<U64>, t: U64): nat {
    if s == [] then 0 else CountFrom(s[..|s| - 1], t) + if s[|s| - 1] >= t then 1 else 0
  }

  predicate Ascending(s: seq<U64>) {
    forall i, k | 0 <= i <= k < |s| :: s[i] <= s[k]
  }

  function Inserted(s: seq<U64>, x: U64): seq<U64> {
    if s == [] || s[|s| - 1] <= x then s + [x]
    else Inserted(s[..|s| - 1], x) + [s[|s| - 1]]
  }

  function Ordered(s: seq<U64>): seq<U64> {
    if s == [] then [] else Inserted(Ordered(s[..|s| - 1]), s[|s| - 1])
  }

  lemma CountSnoc(s: seq<U64>, x: U64, t: U64)
    ensures CountFrom(s + [x], t) == CountFrom(s, t) + if x >= t then 1 else 0
  {
    assert (s + [x])[..|s|] == s;
  }

  lemma {:induction false} InsertedCount(s: seq<U64>, x: U64, t: U64)
    ensures CountFrom(Inserted(s, x), t) == CountFrom(s, t) + if x >= t then 1 else 0
    decreases |s|
  {
    CountSnoc(s, x, t);
    if s != [] && s[|s| - 1] > x {
      InsertedCount(s[..|s| - 1], x, t);
      CountSnoc(Inserted(s[..|s| - 1], x), s[|s| - 1], t);
    }
  }

  lemma {:induction false} InsertedAscends(s: seq<U64>, x: U64)
    requires Ascending(s)
    ensures |Inserted(s, x)| == |s| + 1 && Ascending(Inserted(s, x))
    ensures forall k | 0 <= k < |Inserted(s, x)| :: Inserted(s, x)[k] <= if s == [] then x else Max(s[|s| - 1], x)
    decreases |s|
  {
    if s != [] && s[|s| - 1] > x {
      InsertedAscends(s[..|s| - 1], x);
    }
  }

  lemma {:induction false} OrderedKeeps(s: seq<U64>, t: U64)
    ensures |Ordered(s)| == |s| && Ascending(Ordered(s))
    ensures CountFrom(Ordered(s), t) == CountFrom(s, t)
    decreases |s|
  {
    if s != [] {
      var less := s[..|s| - 1];
      OrderedKeeps(less, t);
      InsertedAscends(Ordered(less), s[|s| - 1]);
      InsertedCount(Ordered(less), s[|s| - 1], t);
    }
  }

  /** In ascending order, position k reaches t exactly when all later ones do too. */
  lemma {:induction false} AscendingCount(s: seq<U64>, k: nat, t: U64)
    requires Ascending(s) && k < |s|
    ensures s[k] >= t <==> CountFrom(s, t) >= |s| - k
    decreases |s|
  {
    var less := s[..|s| - 1];
    if k == |s| - 1 {
      if s[k] < t {
        NoneFrom(s, t);
      }
    } else {
      AscendingCount(less, k, t);
      if s[|s| - 1] < t {
        NoneFrom(s, t);
      }
    }
  }

  lemma {:induction false} NoneFrom(s: seq<U64>, t: U64)
    requires forall k | 0 <= k < |s| :: s[k] < t
    ensures CountFrom(s, t) == 0
    decreases |s|
  {
    if s != [] {
      NoneFrom(s[..|s| - 1], t);
    }
  }

  /** The position that a majority of the sorted list has reached. */
  function MajorityPosition(s: seq<U64>): U64
    requires s != []
  {
    OrderedKeeps(s, 0);
    Ordered(s)[|s| - (|s| / 2 + 1)]
  }

  lemma MajorityPositionCounts(s: seq<U64>, t: U64)
    requires s != []
    ensures MajorityPosition(s) >= t <==> CountFrom(s, t) > |s| / 2
  {
    OrderedKeeps(s, t);
    AscendingCount(Ordered(s), |s| - (|s| / 2 + 1), t);
  }

  function Positions(slots: seq<Option<Member>>, kind: Kind, matched: Id -> U64): seq<U64> {
    if slots == [] then []
    else
      var n := |slots| - 1;
      Positions(slots[..n], kind, matched) +
      if Seats(slots, n, kind) then [matched(slots[n].value.id)] else []
  }

  lemma {:induction false} PositionsTally(slots: seq<Option<Member>>, kind: Kind, matched: Id -> U64, t: U64)
    ensures CountFrom(Positions(slots, kind, matched), t) == Tally(slots, kind, Reached(matched, t))
    ensures |Positions(slots, kind, matched)| == Tally(slots, kind, Everybody())
    decreases |slots|
  {
    if slots != [] {
      var n := |slots| - 1;
      PositionsTally(slots[..n], kind, matched, t);
      var p := Positions(slots[..n], kind, matched);
      if Seats(slots, n, kind) {
        assert (p + [matched(slots[n].value.id)])[..|p|] == p;
      } else {
        assert p + [] == p;
      }
    }
  }

  lemma {:induction false} PositionsNonempty(slots: seq<Option<Member>>, kind: Kind, matched: Id -> U64)
    ensures Positions(slots, kind, matched) != [] <==> exists k :: 0 <= k < |slots| && Seats(slots, k, kind)
    decreases |slots|
  {
    if slots != [] {
      var n := |slots| - 1;
      PositionsNonempty(slots[..n], kind, matched);
      assert forall k | 0 <= k < n :: Seats(slots[..n], k, kind) == Seats(slots, k, kind);
    }
  }

  function QuorumIndex(r: Roster, matched: Id -> U64): U64
    requires HasVoter(r.slots)
  {
    PositionsNonempty(r.slots, Voters, matched);
    PositionsNonempty(r.slots, OldVoters, matched);
    var target := MajorityPosition(Positions(r.slots, Voters, matched));
    if !IsJoint(r) then target
    else Min(target, MajorityPosition(Positions(r.slots, OldVoters, matched)))
  }

  /** The sorted index reaches t exactly when a quorum has matched at least t. */
  lemma QuorumIndexCounts(r: Roster, matched: Id -> U64, t: U64)
    requires HasVoter(r.slots)
    ensures QuorumIndex(r, matched) >= t <==> Quorum(r, Reached(matched, t))
  {
    PositionsNonempty(r.slots, Voters, matched);
    PositionsTally(r.slots, Voters, matched, t);
    MajorityPositionCounts(Positions(r.slots, Voters, matched), t);
    if IsJoint(r) {
      PositionsNonempty(r.slots, OldVoters, matched);
      PositionsTally(r.slots, OldVoters, matched, t);
      MajorityPositionCounts(Positions(r.slots, OldVoters, matched), t);
    }
  }
}
