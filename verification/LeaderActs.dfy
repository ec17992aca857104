/**
 * What a leader does, said without the functions that do it: where proposals land, when
 * they are committed, what an acknowledgment or a rejection changes, what taking office,
 * a heartbeat and a compaction write and whom they tell (jarl/src/node.rs).
 */
module LeaderActs {
  import opened Types
  import opened Checkpoints
  import opened Memberships
  import opened NodeModel
  import opened LocalHistory
  import opened NodeHistory
  import opened SlotTables
  import opened DynamicNodes
  import opened DynamicElections
  import opened CommitRules
  import opened Queues

  // ---- Proposals.

  /** What has to hold for a batch of this size to be admitted. */
  ghost predicate Admissible<V, S>(n: Node<V, S>, count: nat) {
    && AtRest(n) && n.role == Leader && 0 < count
    && |n.state.entries| + count <= n.cap && Last(n.state).index + count <= MAX_U64
  }

  /** The old log, then the values in their order, at the next indices, in the leader's term. */
  ghost predicate Lands<V, S>(s: Checkpoint<V, S>, t: Checkpoint<V, S>, values: seq<V>) {
    && t.snapshot == s.snapshot && t.hard == s.hard.(commit := t.hard.commit)
    && |t.entries| == |s.entries| + |values| && t.entries[..|s.entries|] == s.entries
    && Last(s).index + |values| <= MAX_U64
    && forall k | 0 <= k < |values| ::
         t.entries[|s.entries| + k] == Entry(LogId(Last(s).index + 1 + k, s.hard.term), Some(values[k]))
  }

  /** The commit rule was followed, the leader counts itself, and everybody else is told. */
  ghost predicate Announces<V, S>(n: Node<V, S>, r: Node<V, S>) {
    && CommitRule(r, n.state.hard.commit, r.state.hard.commit)
    && (r.local < |r.peers| && r.local < |r.matched| ==> r.matched[r.local] == Last(r.state).index)
    && Tells(r, Fellows(r), SendReplicate) && r.prevoting.None? && Tenure(r) && KeepsPlaces(n, r)
  }

  /** Whoever is still a member keeps the slot and the positions in it; only the own one may rise. */
  ghost predicate KeepsPlaces<V, S>(n: Node<V, S>, r: Node<V, S>) {
    && Sized(n) && Sized(r) && |r.peers| == |n.peers|
    && forall p | 0 <= p < |n.peers| && n.peers[p].Some? && Contains(r.membership, n.peers[p].value) ::
         && r.peers[p] == n.peers[p] && r.next[p] == n.next[p] && r.active[p] == n.active[p]
         && (p != r.local ==> r.matched[p] == n.matched[p])
  }

  lemma PlacesTrans<V, S>(n: Node<V, S>, p: Node<V, S>, r: Node<V, S>)
    requires KeepsPlaces(n, p) && KeepsPlaces(p, r) && r.membership == p.membership && r.local == p.local
    ensures KeepsPlaces(n, r)
  {
    hide Contains;
  }

  lemma MovedPlaces<V, S>(n: Node<V, S>, m: Node<V, S>)
    requires SlotsMoved(n, m)
    ensures KeepsPlaces(n, m)
  {
    hide Contains;
    forall p | 0 <= p < |n.peers| && n.peers[p].Some? && Contains(m.membership, n.peers[p].value)
      ensures SlotKept(n, m, p)
    {
      assert SlotKept(n, m, p) || SlotReset(n, m, p);
    }
  }

  /** Refused, for the first reason that applies, and nothing changed. */
  ghost predicate Refuses<V, S>(n: Node<V, S>, count: nat, error: Error) {
    if !AtRest(n) then error == Busy
    else if n.role != Leader then error == NotLeader(n.leader)
    else if count == 0 then error == Error.Config
    else if |n.state.entries| + count > n.cap then error == Full
    else error == Exhausted
  }

  lemma AdmittedExactly<V, S>(n: Node<V, S>, values: seq<V>)
    requires Sized(n) && Timed(n)
    ensures ProposeMany(n, values).error.None? <==> Admissible(n, |values|)
    ensures
      var r := ProposeMany(n, values);
      r.error.Some? ==> r.node == n && Refuses(n, |values|, r.error.value)
  {
    hide Refreshed, AdvanceCommit, Broadcast, Available, AtRest;
    RestIsAvailable(n);
  }

  lemma BatchValues<V>(values: seq<V>, first: LogId, k: nat)
    requires first.index + |values| <= MAX_U64 + 1 && k < |values|
    ensures |Batch(values, first)| == |values|
    ensures Batch(values, first)[k] == Entry(LogId(first.index + k, first.term), Some(values[k]))
  {
  }

  /** The node with the batch at the end of its log, before anything else happens. */
  ghost function Loaded<V, S>(n: Node<V, S>, values: seq<V>): Node<V, S>
    requires values != [] && Last(n.state).index + |values| <= MAX_U64
  {
    var first := LogId(Last(n.state).index + 1, n.state.hard.term);
    n.(state := n.state.(entries := n.state.entries + Batch(values, first)), dirty := true,
        logFrom := Some(first.index))
  }

  lemma LoadedParts<V, S>(n: Node<V, S>, values: seq<V>)
    requires Sized(n) && Timed(n) && values != [] && Last(n.state).index + |values| <= MAX_U64
    ensures
      var x := Loaded(n, values);
      && Same(n, x) && Sized(x) && Timed(x) && x.peers == n.peers && x.prevoting == n.prevoting && x.role == n.role
      && x.next == n.next && x.matched == n.matched && x.active == n.active
      && (Silent(n) ==> Silent(x))
      && x.state.hard == n.state.hard && x.state.snapshot == n.state.snapshot
      && x.state.entries == n.state.entries + Batch(values, LogId(Last(n.state).index + 1, n.state.hard.term))
      && Last(x.state) == LogId(Last(n.state).index + |values|, n.state.hard.term)
  {
    hide Batch;
    var first := LogId(Last(n.state).index + 1, n.state.hard.term);
    BatchValues(values, first, |values| - 1);
    var x := Loaded(n, values);
    assert x.state.entries[|x.state.entries| - 1] == Batch(values, first)[|values| - 1];
  }

  /** Refreshed, counted, committed and announced. */
  ghost function Finished<V, S>(x: Node<V, S>, last: U64): Node<V, S>
    requires Sized(x) && Timed(x)
  {
    Broadcast(AdvanceCommit(MatchedSelf(Refreshed(x), last)))
  }

  lemma ProposedBy<V, S>(n: Node<V, S>, values: seq<V>)
    requires Sized(n) && Timed(n) && Admissible(n, |values|)
    ensures ProposeMany(n, values).node == Finished(Loaded(n, values), Last(n.state).index + |values|)
  {
    hide Refreshed, AdvanceCommit, Broadcast, MatchedSelf, Available, AtRest, Batch;
    RestIsAvailable(n);
  }

  lemma FinishedLog<V, S>(x: Node<V, S>, last: U64)
    requires Sized(x) && Timed(x)
    ensures var r := Finished(x, last); r.state == x.state.(hard := x.state.hard.(commit := r.state.hard.commit))
  {
    hide Refreshed, AdvanceCommit;
    RefreshedFrame(x);
    AdvanceLog(MatchedSelf(Refreshed(x), last));
  }

  lemma ProposedLog<V, S>(n: Node<V, S>, values: seq<V>)
    requires Sized(n) && Timed(n) && Admissible(n, |values|)
    ensures
      var s, t := n.state, ProposeMany(n, values).node.state;
      && t.snapshot == s.snapshot && t.hard == s.hard.(commit := t.hard.commit)
      && t.entries == s.entries + Batch(values, LogId(Last(s).index + 1, s.hard.term))
  {
    hide Finished, Batch, AtRest, ProposeMany, Last;
    ProposedBy(n, values);
    FinishedLog(Loaded(n, values), Last(n.state).index + |values|);
  }

  /** The values land in their order, whatever happens to the commit index. */
  lemma ProposalLands<V, S>(n: Node<V, S>, values: seq<V>)
    requires Sized(n) && Timed(n) && Admissible(n, |values|)
    ensures Lands(n.state, ProposeMany(n, values).node.state, values)
  {
    hide Lands, Batch, AtRest, ProposeMany, Last;
    ProposedLog(n, values);
    LandsAtEnd(n.state, ProposeMany(n, values).node.state, values);
  }

  lemma LandsAtEnd<V, S>(s: Checkpoint<V, S>, t: Checkpoint<V, S>, values: seq<V>)
    requires values != [] && Last(s).index + |values| <= MAX_U64 && t.snapshot == s.snapshot
    requires t.entries == s.entries + Batch(values, LogId(Last(s).index + 1, s.hard.term))
    requires t.hard == s.hard.(commit := t.hard.commit)
    ensures Lands(s, t, values)
  {
    hide Batch, Last;
    var first := LogId(Last(s).index + 1, s.hard.term);
    BatchValues(values, first, 0);
    forall k | 0 <= k < |values|
      ensures t.entries[|s.entries| + k] == Entry(LogId(first.index + k, first.term), Some(values[k]))
    {
      BatchValues(values, first, k);
    }
  }

  /** A leader whose table is in order and whose queue is empty. */
  ghost predicate Presides<V(!new), S(!new)>(n: Node<V, S>) {
    Sized(n) && Timed(n) && Seating(n) && Silent(n) && n.role != Candidate && n.prevoting.None?
  }

  /** Committing keeps the table in order; telling the others what happened is all that is left. */
  lemma AdvancePresides<V(!new), S(!new)>(n: Node<V, S>)
    requires Presides(n)
    ensures Presides(AdvanceCommit(n)) && SameSeats(n, AdvanceCommit(n))
  {
    hide Seating, Refreshed, QuorumMatched;
    SeatingTable(n);
    CommitStays(n, 0);
    var at := QuorumMatched(n);
    var c := n.(state := n.state.(hard := n.state.hard.(commit := at)), dirty := true);
    SameFits(n, c);
    RefreshedSeating(c);
    RefreshedFrame(c);
  }

  /** Raising the own position, committing what that allows, telling everybody. */
  lemma AnnouncedBy<V(!new), S(!new)>(n: Node<V, S>, index: U64)
    requires Presides(n) && index == Last(n.state).index
    requires Tenure(n)
    ensures
      var r := Broadcast(AdvanceCommit(MatchedSelf(n, index)));
      Announces(n, r) && r.membership == n.membership && r.local == n.local
  {
    hide Seating, AdvanceCommit, Broadcast, Quorum, Carried, Tenure, KeepsPlaces;
    var q := MatchedSelf(n, index);
    SeatingFlags(n, q);
    AdvancePresides(q);
    AdvanceSettles(q);
    AdvanceLog(q);
    TenureStays(n, q);
    TenureAdvances(q);
    var a := AdvanceCommit(q);
    BroadcastTenure(a);
    BroadcastTells(a);
    BroadcastRule(a, n.state.hard.commit);
    SameLast(q.state, a.state);
    PlacesStay(n, q, a);
  }

  lemma PlacesStay<V, S>(n: Node<V, S>, q: Node<V, S>, a: Node<V, S>)
    requires Sized(n) && Sized(q) && SameSeats(q, a) && |q.peers| == |n.peers|
    requires q == n.(matched := q.matched) && forall p | 0 <= p < |n.peers| && p != n.local ::
        q.matched[p] == n.matched[p]
    ensures KeepsPlaces(n, Broadcast(a))
  {
  }

  lemma SameLast<V, S>(s: Checkpoint<V, S>, t: Checkpoint<V, S>)
    requires t == s.(hard := t.hard)
    ensures Last(t) == Last(s) && Base(t) == Base(s)
  {
  }

  lemma BroadcastTenure<V, S>(n: Node<V, S>)
    requires Sized(n) && Tenure(n)
    ensures Tenure(Broadcast(n))
  {
    hide Tenure;
    TenureStays(n, Broadcast(n));
  }

  lemma BroadcastRule<V, S>(n: Node<V, S>, before: U64)
    requires Sized(n) && CommitRule(n, before, n.state.hard.commit)
    ensures CommitRule(Broadcast(n), before, Broadcast(n).state.hard.commit)
  {
    hide Carried;
    var b := Broadcast(n);
    var t: U64 :| Carried(n, t) && n.state.hard.commit == if t > before && OfOwnTerm(n.state, t) then t else before;
    SameCarried(n, b, t);
  }

  lemma RefreshedTenure<V, S>(x: Node<V, S>)
    requires Sized(x) && Timed(x) && x.role == Leader
    ensures Tenure(Refreshed(x))
  {
    hide IsVoter, MembershipAt, SeatAll;
    SeatAllFrame(x.(membership := MembershipAt(x, Last(x.state).index).1), 0);
    InForceFrame(x, Refreshed(x));
  }

  lemma FinishedAnnounces<V(!new), S(!new)>(n: Node<V, S>, x: Node<V, S>, last: U64)
    requires Sized(x) && Timed(x) && Fits(x) && DistinctPeers(x.peers) && x.prevoting.None?
    requires Silent(x) && x.role == Leader && last == Last(x.state).index && x.state.hard.commit == n.state.hard.commit
    requires Sized(n) && x.peers == n.peers && x.next == n.next && x.matched == n.matched && x.active == n.active
    ensures Announces(n, Finished(x, last))
  {
    hide Refreshed, AdvanceCommit, Broadcast, DistinctPeers, Seating, Fits, Announces, SlotsMoved, IsVoter;
    RefreshedTenure(x);
    RefreshedSeating(x);
    RefreshedFrame(x);
    RefreshedReply(x);
    MovedSilent(x, Refreshed(x));
    MovedPlaces(x, Refreshed(x));
    AnnouncedBy(Refreshed(x), last);
    AnnouncedFrom(x, Refreshed(x), last);
    AnnouncedAs(n, x, Finished(x, last));
  }

  lemma AnnouncedAs<V, S>(n: Node<V, S>, x: Node<V, S>, r: Node<V, S>)
    requires Announces(x, r) && Sized(n) && x.state.hard.commit == n.state.hard.commit
    requires x.peers == n.peers && x.next == n.next && x.matched == n.matched && x.active == n.active
    ensures Announces(n, r)
  {
    hide CommitRule, Tells;
  }

  /** An admitted batch is counted by its leader, committed by the rule, and announced. */
  lemma ProposalAnnounced<V(!new), S(!new)>(n: Node<V, S>, values: seq<V>)
    requires Sized(n) && Timed(n) && Fits(n) && DistinctPeers(n.peers) && n.prevoting.None?
    requires Admissible(n, |values|)
    ensures Announces(n, ProposeMany(n, values).node)
  {
    hide Finished, ProposeMany, Announces, Fits, DistinctPeers, Batch, Last, Loaded;
    ProposedBy(n, values);
    LoadedReady(n, values);
    FinishedAnnounces(n, Loaded(n, values), Last(n.state).index + |values|);
  }

  lemma LoadedReady<V(!new), S(!new)>(n: Node<V, S>, values: seq<V>)
    requires Sized(n) && Timed(n) && Fits(n) && DistinctPeers(n.peers) && n.prevoting.None?
    requires Admissible(n, |values|)
    ensures
      var x := Loaded(n, values);
      && Sized(x) && Timed(x) && Fits(x) && DistinctPeers(x.peers) && x.prevoting.None? && Silent(x) && x.role == Leader
      && Last(x.state).index == Last(n.state).index + |values| && x.state.hard.commit == n.state.hard.commit
      && x.peers == n.peers && x.next == n.next && x.matched == n.matched && x.active == n.active
  {
    hide Loaded, Fits, DistinctPeers, Batch, Last;
    LoadedParts(n, values);
    SameFits(n, Loaded(n, values));
  }

  lemma AnnouncedFrom<V, S>(n: Node<V, S>, p: Node<V, S>, index: U64)
    requires Sized(p) && Timed(p) && p.state.hard.commit == n.state.hard.commit
    requires KeepsPlaces(n, p)
    requires
      var r := Broadcast(AdvanceCommit(MatchedSelf(p, index)));
      Announces(p, r) && r.membership == p.membership && r.local == p.local
    ensures Announces(n, Broadcast(AdvanceCommit(MatchedSelf(p, index))))
  {
    hide CommitRule, Tells, KeepsPlaces;
    PlacesTrans(n, p, Broadcast(AdvanceCommit(MatchedSelf(p, index))));
  }

  // ---- Barriers.

  /** Nothing of the leader's own term is in the log, and there is room for it. */
  ghost predicate LacksBarrier<V, S>(s: Checkpoint<V, S>, cap: nat) {
    Last(s).term != s.hard.term && |s.entries| < cap && Last(s).index < MAX_U64
  }

  /** If the log lacks an entry of the own term it gets an empty one, which the commit rule then judges. */
  ghost predicate Bars<V, S>(s: Checkpoint<V, S>, r: Node<V, S>) {
    if LacksBarrier(s, r.cap) then
      && r.state.entries == s.entries + [Entry(LogId(Last(s).index + 1, s.hard.term), None)]
      && r.state.snapshot == s.snapshot && r.state.hard == s.hard.(commit := r.state.hard.commit)
      && CommitRule(r, s.hard.commit, r.state.hard.commit)
    else r.state == s
  }

  /** The positions of everybody else stay, and the own one is the end of the log if it was. */
  ghost predicate KeepsPositions<V, S>(n: Node<V, S>, r: Node<V, S>) {
    && r.peers == n.peers && r.membership == n.membership && r.local == n.local && r.next == n.next
    && |r.matched| == |n.matched|
    && (forall p | 0 <= p < |n.matched| && p != n.local :: r.matched[p] == n.matched[p])
    && (n.local < |n.matched| && n.matched[n.local] == Last(n.state).index ==>
          r.matched[n.local] == Last(r.state).index)
  }

  lemma PushedSeating<V(!new), S(!new)>(n: Node<V, S>, m: Node<V, S>)
    requires Seating(n) && WellFormed(n.state) && n.role == Leader && n.state.hard.term > 0
    requires Last(n.state).index < MAX_U64
    requires m == n.(state := Pushed(n.state, Entry(LogId(Last(n.state).index + 1, n.state.hard.term), None)),
                     dirty := m.dirty, logFrom := m.logFrom, matched := m.matched)
    ensures Seating(m)
  {
    hide InForce, Fits, DistinctPeers, IsVoter, Proper, WellFormed;
    var id := LogId(Last(n.state).index + 1, n.state.hard.term);
    BarrierInForce(n, id);
    InForceFrame(n.(state := Pushed(n.state, Entry(id, None))), m);
    SameFits(n, m);
  }

  /** The leader with the barrier at the end of its log, and itself holding it. */
  ghost function WithBarrier<V, S>(n: Node<V, S>): Node<V, S>
    requires Sized(n) && Last(n.state).index < MAX_U64
  {
    var id := LogId(Last(n.state).index + 1, n.state.hard.term);
    MatchedSelf(n.(state := Pushed(n.state, Entry(id, None)), dirty := true, logFrom := Some(id.index)), id.index)
  }

  lemma WithBarrierParts<V(!new), S(!new)>(n: Node<V, S>)
    requires Presides(n) && WellFormed(n.state) && n.role == Leader && n.state.hard.term > 0
    requires Last(n.state).index < MAX_U64
    ensures
      var q := WithBarrier(n);
      && Presides(q) && KeepsPositions(n, q) && q.role == Leader && q.leader == n.leader
      && q.cap == n.cap && q.config == n.config
      && q.state.entries == n.state.entries + [Entry(LogId(Last(n.state).index + 1, n.state.hard.term), None)]
      && q.state.snapshot == n.state.snapshot && q.state.hard == n.state.hard
  {
    hide Seating, WellFormed;
    PushedSeating(n, WithBarrier(n));
  }

  lemma SeatedTenure<V(!new), S(!new)>(n: Node<V, S>)
    requires Seating(n) && n.role == Leader
    ensures Tenure(n)
  {
    hide Fits, DistinctPeers, AllSeated, IsVoter, InForce;
  }

  lemma BarrierIs<V, S>(n: Node<V, S>)
    requires Sized(n) && Timed(n)
    ensures Barrier(n) == if LacksBarrier(n.state, n.cap) then AdvanceCommit(WithBarrier(n)) else n
  {
    hide AdvanceCommit, MatchedSelf, Pushed;
  }

  /** A leader's barrier, and what it commits. */
  lemma BarrierActs<V(!new), S(!new)>(n: Node<V, S>)
    requires Presides(n) && WellFormed(n.state) && n.role == Leader && n.state.hard.term > 0
    ensures Presides(Barrier(n)) && Bars(n.state, Barrier(n)) && KeepsPositions(n, Barrier(n))
    ensures IsVoter(n.membership, n.config.id) ==> Barrier(n).role == Leader && Barrier(n).leader == n.leader
    ensures Tenure(Barrier(n)) && Barrier(n).cap == n.cap && Barrier(n).config == n.config
  {
    hide Seating, AdvanceCommit, CommitRule, WellFormed, IsVoter, WithBarrier, Barrier, Silent, InForce;
    BarrierIs(n);
    SeatedTenure(n);
    if LacksBarrier(n.state, n.cap) {
      var q := WithBarrier(n);
      WithBarrierParts(n);
      AdvancePresides(q);
      AdvanceSettles(q);
      AdvanceLog(q);
      SameLast(q.state, AdvanceCommit(q).state);
      CommitStays(q, 0);
    }
  }

  /** The counts towards the quorum check stay, and a wait that just began stays so. */
  lemma BarrierChecks<V(!new), S(!new)>(n: Node<V, S>)
    requires Presides(n) && WellFormed(n.state) && n.role == Leader && n.state.hard.term > 0
    ensures Barrier(n).active == n.active && Barrier(n).quorumElapsed == n.quorumElapsed
    ensures n.elapsed == 0 ==> Barrier(n).elapsed == 0
  {
    hide Seating, AdvanceCommit, WellFormed, WithBarrier, Barrier, Silent;
    BarrierIs(n);
    if LacksBarrier(n.state, n.cap) {
      WithBarrierParts(n);
      AdvancePresides(WithBarrier(n));
      AdvanceChecks(WithBarrier(n));
      WithBarrierChecks(n);
    }
  }

  lemma WithBarrierChecks<V, S>(n: Node<V, S>)
    requires Sized(n) && Last(n.state).index < MAX_U64
    ensures WithBarrier(n).active == n.active && WithBarrier(n).quorumElapsed == n.quorumElapsed
    ensures WithBarrier(n).elapsed == n.elapsed
  {
  }

  lemma AdvanceChecks<V, S>(n: Node<V, S>)
    requires Sized(n) && Timed(n)
    ensures AdvanceCommit(n).quorumElapsed == n.quorumElapsed && (n.elapsed == 0 ==> AdvanceCommit(n).elapsed == 0)
  {
    hide SeatAll, QuorumMatched, MembershipAt;
    var at := QuorumMatched(n);
    var c := n.(state := n.state.(hard := n.state.hard.(commit := at)), dirty := true);
    SeatAllFrame(c.(membership := MembershipAt(c, Last(c.state).index).1), 0);
  }

  // ---- Taking office.

  /**
   * A new leader sends everybody on from the end of its log, has heard of nobody's log but
   * its own, puts a barrier at its end, and tells everybody else.
   */
  ghost predicate TakesOffice<V, S>(s: Checkpoint<V, S>, n: Node<V, S>, r: Node<V, S>) {
    && r.role == Leader && r.leader == Some(n.config.id) && r.prevoting.None?
    && r.elapsed == 0 && r.quorumElapsed == 0 && (forall p | 0 <= p < |r.active| :: !r.active[p])
    && r.peers == n.peers && r.membership == n.membership && r.local == n.local
    && |r.next| == |r.matched| == |n.peers|
    && (forall p | 0 <= p < |n.peers| ::
          && r.next[p] == SaturatingInc(Last(s).index)
          && r.matched[p] == if p == r.local then Last(r.state).index else 0)
    && Bars(s, r) && Tells(r, Fellows(r), SendReplicate)
  }

  lemma BroadcastBars<V, S>(s: Checkpoint<V, S>, n: Node<V, S>)
    requires Sized(n) && Bars(s, n)
    ensures Bars(s, Broadcast(n))
  {
    hide CommitRule;
    if LacksBarrier(s, n.cap) {
      BroadcastRule(n, s.hard.commit);
    }
  }

  lemma OfficeTaken<V(!new), S(!new)>(n: Node<V, S>)
    requires Sized(n) && Timed(n) && Seating(n) && Silent(n) && WellFormed(n.state) && n.state.hard.term > 0
    requires n.role == Candidate && n.prevoting.None?
    ensures TakesOffice(n.state, n, BecomeLeader(n))
  {
    hide Seating, Barrier, Broadcast, WellFormed, Tells, Bars, CommitRule;
    var e := Enthroned(n);
    EnthronedFrame(n);
    EnthronedSeating(n);
    EnthronedParts(n);
    hide Enthroned;
    BarrierActs(e);
    BarrierChecks(e);
    BroadcastTells(Barrier(e));
    BroadcastBars(n.state, Barrier(e));
  }

  lemma EnthronedSeating<V(!new), S(!new)>(n: Node<V, S>)
    requires Sized(n) && Seating(n) && n.role == Candidate
    ensures Seating(Enthroned(n)) && IsVoter(n.membership, n.config.id)
  {
    assert IsVoter(n.membership, n.config.id);
    SeatingFrame(n, Enthroned(n));
  }

  lemma EnthronedParts<V, S>(n: Node<V, S>)
    requires Sized(n)
    ensures
      var e := Enthroned(n);
      && Same(n, e) && e.peers == n.peers && e.membership == n.membership && e.local == n.local
      && e.elapsed == 0 && e.quorumElapsed == 0 && (forall p | 0 <= p < |e.active| :: !e.active[p])
      && e.leader == Some(n.config.id) && e.prevoting == n.prevoting && e.outbox == n.outbox
      && e.extraReply == n.extraReply
      && (forall p | 0 <= p < |n.peers| ::
            && e.next[p] == SaturatingInc(Last(n.state).index)
            && e.matched[p] == if p == e.local then Last(n.state).index else 0)
  {
  }

  // ---- Heartbeats and the quorum check.

  /** Who counts as heard from since the last check. */
  ghost function Heard<V, S>(n: Node<V, S>): Id -> bool {
    id => id == n.config.id || exists p :: 0 <= p < |n.peers| && p < |n.active| && n.peers[p] == Some(id) && n.active[p]
  }

  /** An election timeout has passed since the last check. */
  ghost predicate CheckDue<V, S>(n: Node<V, S>) {
    n.hooks.Some? && SaturatingInc(n.quorumElapsed) >= n.config.electionTicks
  }

  /** A leader's tick: resign without a quorum, beat when it is time, and otherwise only count. */
  ghost predicate LeaderTicks<V, S>(n: Node<V, S>, r: Node<V, S>) {
    r.prevoting.None? &&
    if CheckDue(n) && !Quorum(n.membership, Heard(n)) then
      r.role == Follower && r.leader == None && r.state == n.state && Quiet(r)
    else
      && (if CheckDue(n) then r.quorumElapsed == 0 && forall p | 0 <= p < |r.active| :: !r.active[p]
          else r.active == n.active && (n.hooks.Some? ==> r.quorumElapsed == SaturatingInc(n.quorumElapsed)))
      && KeepsPositions(n, r) && Tenure(r)
      && if SaturatingInc(n.elapsed) >= n.config.heartbeatTicks
         then Bars(n.state, r) && Tells(r, Fellows(r), SendReplicate) && r.elapsed == 0
         else r.role == Leader && r.state == n.state && Quiet(r) && r.elapsed == SaturatingInc(n.elapsed)
  }

  lemma HeardIsActive<V, S>(n: Node<V, S>)
    requires Sized(n) && DistinctPeers(n.peers)
    ensures Quorum(n.membership, Heard(n)) == ActiveQuorum(n)
  {
    hide Quorum;
    var flag := SelfOr(n.config.id, FlagAt(n.peers, n.active));
    forall id ensures Heard(n)(id) == flag(id) {
      var i := PositionOf(n.peers, id);
      if i < |n.peers| {
        assert n.peers[i] == Some(id);
      }
    }
    QuorumSame(n.membership, Heard(n), flag);
  }
}
