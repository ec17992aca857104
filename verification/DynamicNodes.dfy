/**
 * What every operation of a node keeps in either engine, under any accepted input: a
 * coherent slot table, replication positions inside the log, votes that were really
 * granted in the candidate's own term, and an outbox of messages that are valid to send.
 */
module DynamicNodes {
  import opened Types
  import opened Checkpoints
  import opened Memberships
  import opened QuorumIndexes
  import opened NodeModel
  import opened LocalHistory
  import opened NodeHistory
  import opened SlotTables

  /** The real votes a node has been sent so far: term and voter. */
  type Grants = set<(U64, Id)>

  /** Every vote a candidate counts is its own or a real grant of its term. */
  ghost predicate VotesReal<V, S>(n: Node<V, S>, grants: Grants) {
    n.role == Candidate ==>
      forall p | 0 <= p < |n.votes| && p < |n.peers| && n.votes[p] && n.peers[p].Some? ::
        n.peers[p].value == n.config.id || (n.state.hard.term, n.peers[p].value) in grants
  }

  /** Replication positions stay inside the log. */
  ghost predicate Bounded<V, S>(n: Node<V, S>) {
    forall p | 0 <= p < |n.next| && p < |n.matched| ::
      1 <= n.next[p] <= SaturatingInc(Last(n.state).index) && n.matched[p] <= Last(n.state).index
  }

  ghost predicate Sendable<V, S>(n: Node<V, S>, next: U64, out: Outbound) {
    match out
    case SendPreVote(campaign) => campaign > n.state.hard.term
    case SendPreVoted(campaign, _) => campaign > 0
    case SendVote => n.state.hard.term > 0
    case SendVoted(_) => n.state.hard.term > 0
    case SendReplicate => n.state.hard.term > 0 && 1 <= next <= SaturatingInc(Last(n.state).index)
    case SendReplicated(_, rejection) =>
      n.state.hard.term > 0 && (rejection.Some? && rejection.value.Conflict? ==> rejection.value.next > 0)
  }

  ghost predicate Outgoing<V, S>(n: Node<V, S>) {
    && (forall p | 0 <= p < |n.outbox| && p < |n.peers| && p < |n.next| && n.outbox[p].Some? ::
          n.peers[p].Some? && Sendable(n, n.next[p], n.outbox[p].value))
    && (n.extraReply.Some? ==> !n.extraReply.value.1.SendReplicate? && Sendable(n, 1, n.extraReply.value.1))
  }

  ghost predicate Silent<V, S>(n: Node<V, S>) {
    n.extraReply.None? && forall p | 0 <= p < |n.outbox| :: n.outbox[p].None?
  }

  /** Nothing queued. */
  ghost predicate Tidy<V(!new), S(!new)>(n: Node<V, S>, grants: Grants) {
    Seating(n) && VotesReal(n, grants) && (n.role == Leader ==> Bounded(n)) && Silent(n)
  }

  /** At rest between operations: what is queued can be sent. */
  ghost predicate Sound<V(!new), S(!new)>(n: Node<V, S>, grants: Grants) {
    Seating(n) && VotesReal(n, grants) && (n.role == Leader ==> Bounded(n)) && Outgoing(n)
  }

  lemma AvailableTidy<V(!new), S(!new)>(n: Node<V, S>, grants: Grants)
    requires Sound(n, grants) && Available(n)
    ensures Tidy(n, grants)
  {
    hide Seating, VotesReal, Bounded;
  }

  // ---- Frames.

  ghost predicate SameTable<V, S>(n: Node<V, S>, m: Node<V, S>) {
    && Same(n, m) && m.peers == n.peers && m.membership == n.membership && m.local == n.local
    && m.state.entries == n.state.entries && m.state.snapshot == n.state.snapshot
    && m.state.hard.commit == n.state.hard.commit
  }

  /** Roles only fall, unless a quorum of real grants says otherwise. */
  ghost predicate Falls<V, S>(n: Node<V, S>, m: Node<V, S>) {
    m.role == n.role || m.role == Follower
  }

  lemma SeatingFrame<V(!new), S(!new)>(n: Node<V, S>, m: Node<V, S>)
    requires Seating(n) && SameTable(n, m)
    requires m.role == Leader ==> n.role == Leader || IsVoter(n.membership, n.config.id)
    requires m.role == Candidate || m.prevoting.Some? ==> IsVoter(n.membership, n.config.id)
    ensures Seating(m)
  {
    hide InForce, Fits, IsVoter, Proper, DistinctPeers;
    InForceFrame(n, m);
    SameFits(n, m);
  }

  lemma SameFits<V(!new), S(!new)>(n: Node<V, S>, m: Node<V, S>)
    requires Fits(n) && Same(n, m)
    ensures Fits(m)
  {
  }

  lemma TidyFlags<V(!new), S(!new)>(n: Node<V, S>, m: Node<V, S>, grants: Grants)
    requires Tidy(n, grants) && SameTable(n, m) && Falls(n, m) && Silent(m)
    requires m.role == Candidate ==> m.votes == n.votes && m.state.hard.term == n.state.hard.term
    requires m.role == Leader ==> m.next == n.next && m.matched == n.matched
    requires m.prevoting.Some? ==> n.prevoting.Some?
    ensures Tidy(m, grants)
  {
    SeatingFlags(n, m);
    hide Seating;
  }

  lemma SeatingFlags<V(!new), S(!new)>(n: Node<V, S>, m: Node<V, S>)
    requires Seating(n) && SameTable(n, m) && Falls(n, m) && (m.prevoting.Some? ==> n.prevoting.Some?)
    ensures Seating(m)
  {
    hide InForce, Fits, IsVoter, Proper, DistinctPeers;
    SeatingFrame(n, m);
  }

  lemma RefreshedTidy<V(!new), S(!new)>(n: Node<V, S>, grants: Grants)
    requires Sized(n) && Timed(n) && Fits(n) && DistinctPeers(n.peers)
    requires n.role != Candidate && n.prevoting.None? && (n.role == Leader ==> Bounded(n)) && Silent(n)
    ensures Tidy(Refreshed(n), grants) && Falls(n, Refreshed(n))
    ensures Bounded(n) ==> Bounded(Refreshed(n))
  {
    RefreshedSeating(n);
    RefreshedFrame(n);
    RefreshedReply(n);
    hide Seating, Refreshed, DistinctPeers, Fits;
    MovedSilent(n, Refreshed(n));
  }

  lemma RefreshedReply<V, S>(n: Node<V, S>)
    requires Sized(n) && Timed(n)
    ensures Refreshed(n).extraReply == n.extraReply
  {
    SeatAllFrame(n.(membership := MembershipAt(n, Last(n.state).index).1), 0);
  }

  lemma MovedSilent<V, S>(n: Node<V, S>, m: Node<V, S>)
    requires SlotsMoved(n, m) && m.state == n.state
    ensures Silent(n) && m.extraReply.None? ==> Silent(m)
    ensures Bounded(n) ==> Bounded(m)
  {
    forall p | 0 <= p < |n.peers|
      ensures n.outbox[p].None? ==> m.outbox[p].None?
      ensures (m.next[p] == n.next[p] && m.matched[p] == n.matched[p]) || (m.next[p] == 1 && m.matched[p] == 0)
    {
      assert SlotKept(n, m, p) || SlotReset(n, m, p);
    }
  }

  lemma SeatingTable<V(!new), S(!new)>(n: Node<V, S>)
    requires Seating(n)
    ensures Fits(n) && DistinctPeers(n.peers)
  {
  }

  // ---- Commitment and barriers.

  lemma CommitTidy<V(!new), S(!new)>(n: Node<V, S>, grants: Grants, index: U64)
    requires Sized(n) && Timed(n) && Tidy(n, grants) && n.role != Candidate && n.prevoting.None?
    ensures Tidy(CommitTo(n, index), grants) && Falls(n, CommitTo(n, index))
    ensures Bounded(n) ==> Bounded(CommitTo(n, index))
  {
    hide Seating, Refreshed, VotesReal, DistinctPeers, Fits;
    SeatingTable(n);
    if index > n.state.hard.commit {
      var c := n.(state := n.state.(hard := n.state.hard.(commit := index)), dirty := true);
      SameFits(n, c);
      RefreshedTidy(c, grants);
    }
  }

  lemma AdvanceTidy<V(!new), S(!new)>(n: Node<V, S>, grants: Grants)
    requires Sized(n) && Timed(n) && Tidy(n, grants) && n.role != Candidate && n.prevoting.None?
    ensures Tidy(AdvanceCommit(n), grants) && Falls(n, AdvanceCommit(n))
    ensures Bounded(n) ==> Bounded(AdvanceCommit(n))
  {
    hide Tidy, CommitTo, Bounded;
    if MayCommit(n) {
      CommitTidy(n, grants, QuorumMatched(n));
    }
  }

  /** A barrier is not a configuration record. */
  lemma BarrierInForce<V, S>(n: Node<V, S>, id: LogId)
    requires WellFormed(n.state) && id.index == Last(n.state).index + 1 && id.term == n.state.hard.term > 0
    ensures InForce(n.(state := Pushed(n.state, Entry(id, None)))) == InForce(n)
  {
    var p := n.(state := Pushed(n.state, Entry(id, None)));
    if n.hooks.Some? {
      ContiguousPush(Base(n.state), n.state.entries, Entry(id, None), n.state.hard.term);
      LastTerm(n.state);
      LastIndex(n.state);
      InForceFolds(n);
      InForceFolds(p);
      assert p.state.entries[..|n.state.entries|] == n.state.entries;
    }
  }

  lemma PushedTidy<V(!new), S(!new)>(n: Node<V, S>, grants: Grants, index: U64)
    requires Sized(n) && Tidy(n, grants) && WellFormed(n.state) && n.role == Leader && Bounded(n)
    requires index == Last(n.state).index + 1 && n.state.hard.term > 0
    ensures
      var p := n.(state := Pushed(n.state, Entry(LogId(index, n.state.hard.term), None)), dirty := true,
          logFrom := Some(index));
      Tidy(MatchedSelf(p, index), grants) && Bounded(MatchedSelf(p, index))
  {
    hide InForce, Fits, DistinctPeers, IsVoter, Proper, WellFormed;
    var id := LogId(index, n.state.hard.term);
    BarrierInForce(n, id);
    var p := n.(state := Pushed(n.state, Entry(id, None)), dirty := true, logFrom := Some(index));
    InForceFrame(n.(state := Pushed(n.state, Entry(id, None))), MatchedSelf(p, index));
    SameFits(n, MatchedSelf(p, index));
    assert Last(p.state) == id;
  }

  lemma BarrierTidy<V(!new), S(!new)>(d: Checkpoint<V, S>, n: Node<V, S>, grants: Grants)
    requires Goes(d, n) && Tidy(n, grants) && n.role == Leader
    ensures Tidy(Barrier(n), grants) && Falls(n, Barrier(n)) && Bounded(Barrier(n))
  {
    hide Delta, Advances, WellFormed, Tidy, AdvanceCommit, MatchedSelf, Bounded;
    TidyBounded(n, grants);
    var last := Last(n.state);
    if last.term != n.state.hard.term && |n.state.entries| < n.cap && last.index < MAX_U64 {
      var index := last.index + 1;
      PushedTidy(n, grants, index);
      var e: Entry<V> := Entry(LogId(index, n.state.hard.term), None);
      var p := n.(state := Pushed(n.state, e), dirty := true, logFrom := Some(index));
      MatchedFrame(p, index);
      AdvanceTidy(MatchedSelf(p, index), grants);
    }
  }

  lemma MatchedFrame<V, S>(n: Node<V, S>, index: U64)
    requires Sized(n)
    ensures MatchedSelf(n, index).role == n.role && MatchedSelf(n, index).prevoting == n.prevoting
    ensures MatchedSelf(n, index).config == n.config && Sized(MatchedSelf(n, index))
  {
  }

  lemma TidyBounded<V(!new), S(!new)>(n: Node<V, S>, grants: Grants)
    requires Tidy(n, grants) && n.role == Leader
    ensures Bounded(n)
  {
  }
}
