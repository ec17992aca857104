/**
 * When a leader commits, said by quorums of identities alone: the greatest index that a
 * quorum holds, if its entry is of the leader's own term (jarl/src/node.rs, advance_commit).
 */
module CommitRules {
  import opened Types
  import opened Checkpoints
  import opened Memberships
  import opened QuorumIndexes
  import opened NodeModel
  import opened LocalHistory
  import opened NodeHistory
  import opened SlotTables
  import opened DynamicNodes
  import opened DynamicElections

  // ---- What a quorum holds.

  /** Whose slot says that it holds everything up to t; everybody holds nothing. */
  ghost function Holding<V, S>(n: Node<V, S>, t: U64): Id -> bool {
    id => t == 0 || exists p :: 0 <= p < |n.peers| && p < |n.matched| && n.peers[p] == Some(id) && n.matched[p] >= t
  }

  /** t is the greatest index that a quorum holds. */
  ghost predicate Carried<V, S>(n: Node<V, S>, t: U64) {
    Quorum(n.membership, Holding(n, t)) && forall u: U64 | u > t :: !Quorum(n.membership, Holding(n, u))
  }

  ghost predicate OfOwnTerm<V, S>(s: Checkpoint<V, S>, t: U64) {
    IdAt(s, t).Some? && IdAt(s, t).value.term == s.hard.term
  }

  /**
   * The commit rule: what a quorum holds is committed if that is news and of the leader's
   * own term; otherwise the commit index stays.
   */
  ghost predicate CommitRule<V, S>(n: Node<V, S>, before: U64, after: U64) {
    exists t: U64 :: Carried(n, t) && after == if t > before && OfOwnTerm(n.state, t) then t else before
  }

  lemma HoldingIsReached<V, S>(n: Node<V, S>, t: U64, id: Id)
    requires Sized(n) && DistinctPeers(n.peers)
    ensures Holding(n, t)(id) == Reached(MatchedBy(n), t)(id)
  {
    var i := PositionOf(n.peers, id);
    if i < |n.peers| {
      assert n.peers[i] == Some(id);
    }
  }

  lemma QuorumSame(r: Roster, a: Id -> bool, b: Id -> bool)
    requires forall id :: a(id) == b(id)
    ensures Quorum(r, a) == Quorum(r, b)
  {
    hide Quorum;
    if Quorum(r, a) {
      QuorumGrows(r, a, b);
    }
    if Quorum(r, b) {
      QuorumGrows(r, b, a);
    }
  }

  lemma QuorumHolds<V, S>(n: Node<V, S>, t: U64)
    requires Sized(n) && DistinctPeers(n.peers)
    ensures Quorum(n.membership, Holding(n, t)) <==> t <= QuorumMatched(n)
  {
    hide Quorum, QuorumIndex, Holding, Reached;
    forall id ensures Holding(n, t)(id) == Reached(MatchedBy(n), t)(id) {
      HoldingIsReached(n, t, id);
    }
    QuorumSame(n.membership, Holding(n, t), Reached(MatchedBy(n), t));
    QuorumIndexCounts(n.membership, MatchedBy(n), t);
  }

  /** There is exactly one greatest index that a quorum holds, and sorting finds it. */
  lemma CarriedIsMatched<V, S>(n: Node<V, S>, t: U64)
    requires Sized(n) && DistinctPeers(n.peers)
    ensures Carried(n, t) <==> t == QuorumMatched(n)
  {
    hide Quorum, QuorumIndex, Holding, DistinctPeers;
    forall u: U64 ensures Quorum(n.membership, Holding(n, u)) <==> u <= QuorumMatched(n) {
      QuorumHolds(n, u);
    }
    var at := QuorumMatched(n);
    assert Quorum(n.membership, Holding(n, at));
  }

  /** Of the log, AdvanceCommit touches the commit index alone. */
  lemma AdvanceLog<V, S>(n: Node<V, S>)
    requires Sized(n) && Timed(n)
    ensures
      var r := AdvanceCommit(n);
      && r.state == n.state.(hard := n.state.hard.(commit := r.state.hard.commit))
      && (MayCommit(n) <==> r.state.hard.commit > n.state.hard.commit)
      && r.state.hard.commit == (if MayCommit(n) then QuorumMatched(n) else n.state.hard.commit)
      && r.logFrom == n.logFrom && r.dirty == (n.dirty || MayCommit(n))
  {
    hide Refreshed, QuorumMatched;
    var at := QuorumMatched(n);
    RefreshedFrame(n.(state := n.state.(hard := n.state.hard.(commit := at)), dirty := true));
  }

  /** AdvanceCommit follows the rule. */
  lemma AdvanceRule<V, S>(n: Node<V, S>)
    requires Sized(n) && Timed(n) && DistinctPeers(n.peers)
    ensures CommitRule(n, n.state.hard.commit, AdvanceCommit(n).state.hard.commit)
  {
    hide Carried, QuorumMatched, DistinctPeers, AdvanceCommit;
    CarriedIsMatched(n, QuorumMatched(n));
    AdvanceLog(n);
  }

  // ---- Committing leaves a seated table alone.

  lemma {:induction false} SeatAllStays<V, S>(n: Node<V, S>, from: nat)
    requires Sized(n) && AllSeated(n)
    ensures SeatAll(n, from) == n
    decreases |n.membership.slots| - from
  {
    if from < |n.membership.slots| {
      SeatAllStays(n, from + 1);
      if n.membership.slots[from].Some? {
        assert Some(n.membership.slots[from].value.id) in n.peers;
      }
    }
  }

  /** Nothing but the role, the timers and the log differs. */
  ghost predicate SameSeats<V, S>(n: Node<V, S>, r: Node<V, S>) {
    && Same(n, r) && SameSlots(n, r) && r.membership == n.membership && r.local == n.local
    && r.extraReply == n.extraReply && Sized(r)
  }

  /** Only the log changed. */
  ghost predicate LogOnly<V, S>(n: Node<V, S>, r: Node<V, S>) {
    r == n.(state := r.state, dirty := r.dirty, logFrom := r.logFrom)
  }

  /**
   * A leader goes on leading, except that one outside the voters stops as soon as the
   * record that took it out is committed.
   */
  ghost predicate Tenure<V, S>(r: Node<V, S>) {
    if IsVoter(r.membership, r.config.id) || InForce(r).0 > r.state.hard.commit then r.role == Leader
    else r.role == Follower
  }

  lemma RefreshedStays<V, S>(n: Node<V, S>)
    requires Sized(n) && Timed(n) && AllSeated(n)
    requires n.membership == InForce(n).1 && n.local == PositionOf(n.peers, n.config.id)
    ensures SameSeats(n, Refreshed(n)) && SameDurable(n, Refreshed(n))
    ensures IsVoter(n.membership, n.config.id) ==> Refreshed(n) == n
    ensures Refreshed(n).role == n.role || (Refreshed(n).role == Follower && !IsVoter(n.membership, n.config.id))
    ensures n.role == Leader ==> Tenure(Refreshed(n))
  {
    hide IsVoter, AllSeated, MembershipAt;
    SeatAllStays(n, 0);
    assert n.(membership := InForce(n).1) == n;
    InForceFrame(n, Refreshed(n));
  }

  lemma CommitStays<V(!new), S(!new)>(n: Node<V, S>, index: U64)
    requires Sized(n) && Timed(n) && Seating(n)
    ensures SameSeats(n, CommitTo(n, index)) && SameSeats(n, AdvanceCommit(n))
    ensures IsVoter(n.membership, n.config.id) ==>
              LogOnly(n, CommitTo(n, index)) && LogOnly(n, AdvanceCommit(n))
    ensures CommitTo(n, index).role in {n.role, Follower} && AdvanceCommit(n).role in {n.role, Follower}
    ensures n.role == Leader ==> Tenure(CommitTo(n, index)) && Tenure(AdvanceCommit(n))
  {
    hide Refreshed, IsVoter, AllSeated, InForce, DistinctPeers, Fits, QuorumMatched;
    forall i: U64
      ensures
        var c := n.(state := n.state.(hard := n.state.hard.(commit := i)), dirty := true);
        && SameSeats(n, Refreshed(c)) && Refreshed(c).role in {n.role, Follower}
        && (IsVoter(n.membership, n.config.id) ==> Refreshed(c) == c)
        && (n.role == Leader ==> Tenure(Refreshed(c)))
    {
      var c := n.(state := n.state.(hard := n.state.hard.(commit := i)), dirty := true);
      InForceFrame(n, c);
      SeatedSame(n, c);
      RefreshedStays(c);
    }
  }

  /** Being in office or not does not change by telling, counting or committing more. */
  lemma TenureStays<V, S>(n: Node<V, S>, r: Node<V, S>)
    requires Tenure(n) && r.role == n.role && r.membership == n.membership && r.config == n.config
    requires r.hooks == n.hooks && r.bootstrap == n.bootstrap
    requires r.state == n.state.(hard := r.state.hard) && r.state.hard.commit == n.state.hard.commit
    ensures Tenure(r)
  {
    hide IsVoter;
    InForceFrame(n, r);
  }

  lemma TenureAdvances<V(!new), S(!new)>(n: Node<V, S>)
    requires Sized(n) && Timed(n) && Seating(n) && Tenure(n)
    ensures Tenure(AdvanceCommit(n))
  {
    hide IsVoter, Refreshed, AdvanceCommit, Seating, QuorumMatched;
    CommitStays(n, 0);
    AdvanceLog(n);
    InForceFrame(n, AdvanceCommit(n));
  }

  lemma SeatedSame<V, S>(n: Node<V, S>, c: Node<V, S>)
    requires AllSeated(n) && c.membership == n.membership && c.peers == n.peers
    ensures AllSeated(c)
  {
  }

  /** The rule again, on the node as it stands afterwards. */
  lemma AdvanceSettles<V(!new), S(!new)>(n: Node<V, S>)
    requires Sized(n) && Timed(n) && Seating(n)
    ensures CommitRule(AdvanceCommit(n), n.state.hard.commit, AdvanceCommit(n).state.hard.commit)
  {
    hide Quorum, Holding, AdvanceCommit, Seating, Carried;
    SeatingTable(n);
    AdvanceLog(n);
    AdvanceRule(n);
    CommitStays(n, 0);
    var r := AdvanceCommit(n);
    var t: U64 :| Carried(n, t) && r.state.hard.commit ==
                  if t > n.state.hard.commit && OfOwnTerm(n.state, t) then t else n.state.hard.commit;
    SameCarried(n, r, t);
    SameTerms(n.state, r.state, t);
  }

  lemma SameCarried<V, S>(n: Node<V, S>, r: Node<V, S>, t: U64)
    requires r.peers == n.peers && r.matched == n.matched && r.membership == n.membership
    ensures Carried(r, t) == Carried(n, t)
  {
    hide Quorum;
    forall u: U64 ensures Quorum(r.membership, Holding(r, u)) == Quorum(n.membership, Holding(n, u)) {
      QuorumSame(n.membership, Holding(r, u), Holding(n, u));
    }
  }

  lemma SameTerms<V, S>(s: Checkpoint<V, S>, s1: Checkpoint<V, S>, t: U64)
    requires s1 == s.(hard := s1.hard) && s1.hard.term == s.hard.term
    ensures OfOwnTerm(s1, t) == OfOwnTerm(s, t)
  {
  }

  // ---- A single voter.

  /** The node is the only voter, and no configuration is being left. */
  ghost predicate Alone<V, S>(n: Node<V, S>) {
    forall id :: IsVoter(n.membership, id) <==> id == n.config.id
  }

  lemma AloneDecides<V, S>(n: Node<V, S>, ack: Id -> bool)
    requires Alone(n)
    ensures Quorum(n.membership, ack) <==> ack(n.config.id)
  {
    var m, self := n.membership, n.config.id;
    hide Quorum;
    QuorumIsMajorities(m, ack);
    ProperHasVoter(m);
    forall kind | kind != Learners ensures SetOf(m, kind) <= {self} {
      forall id | id in SetOf(m, kind) ensures id == self {
        assert IsVoter(m, id);
      }
    }
    assert SetOf(m, Voters) == {self};
    assert SetOf(m, OldVoters) == {} || SetOf(m, OldVoters) == {self};
    SingleMost(self, ack);
  }

  lemma ProperHasVoter(m: Membership)
    ensures SetOf(m, Voters) != {} && Distinct(m.slots)
  {
    var k :| 0 <= k < |m.slots| && Seats(m.slots, k, Voters);
    assert m.slots[k].value.id in SetOf(m, Voters);
  }

  lemma SingleMost(self: Id, ack: Id -> bool)
    ensures MostOf({self}, ack) == ack(self)
  {
    var acked := set j | j in {self} && ack(j);
    assert acked == if ack(self) then {self} else {};
  }
}
