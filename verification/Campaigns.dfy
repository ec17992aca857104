/**
 * Which election steps (Ballots.dfy) each operation takes: ticks of a node that does not lead,
 * votes and probe grants.
 */
module Campaigns {
  import opened Types
  import opened Checkpoints
  import opened Memberships
  import opened NodeModel
  import opened LocalHistory
  import opened NodeHistory
  import opened SlotTables
  import opened DynamicNodes
  import opened DynamicElections
  import opened CommitRules
  import opened Queues
  import opened LeaderActs
  import opened LeaderSteps
  import opened Ballots

  /** A node between operations that may stand for election. */
  ghost predicate Rests<V(!new), S(!new)>(n: Node<V, S>) {
    Steady(n) && Seating(n) && AtRest(n) && WellFormed(n.state)
  }

  lemma RestsListens<V(!new), S(!new)>(n: Node<V, S>)
    requires Rests(n)
    ensures Listens(n) && Silent(n) && DistinctPeers(n.peers)
  {
    hide InForce, Fits, AllSeated, WellFormed;
  }

  // ---- Probes.

  /** The prober right after it counted its own vote. */
  ghost function Probing<V, S>(n: Node<V, S>, term: U64): Node<V, S>
    requires Sized(n) && Timed(n)
  {
    ResetElection(SelfVote(n.(role := Follower, prevoting := Some(term))))
  }

  lemma ProbingParts<V(!new), S(!new)>(n: Node<V, S>, term: U64)
    requires Sized(n) && Timed(n) && Seating(n) && Silent(n) && IsVoter(n.membership, n.config.id)
    ensures
      var p := Probing(n, term);
      && Sized(p) && Timed(p) && Seating(p) && Silent(p) && StartsWaiting(p)
      && p.role == Follower && p.prevoting == Some(term) && p.state == n.state
      && p.peers == n.peers && p.membership == n.membership && p.local == n.local && p.config == n.config
      && p.cap == n.cap
      && forall id :: Counted(p)(id) == (id == n.config.id)
  {
    var p := Probing(n, term);
    SeatingFrame(n, p);
    forall id ensures Counted(p)(id) == (id == n.config.id) {
      OnlyOwnVote(n, p, id);
    }
  }

  lemma StandsFrom<V, S>(n: Node<V, S>, p: Node<V, S>, r: Node<V, S>, term: U64)
    requires Stands(p, r, term) && p.state == n.state && p.config == n.config
    requires p.peers == n.peers && p.membership == n.membership && p.local == n.local
    ensures Stands(n, r, term)
  {
    hide Quorum, Bars, Tells, Counted;
  }

  lemma ProbeIs<V, S>(n: Node<V, S>, term: U64)
    requires Sized(n) && Timed(n)
    ensures Sized(Probing(n, term)) && Timed(Probing(n, term))
    ensures
      var p := Probing(n, term);
      Probe(n, term) ==
      if ElectionQuorum(p) then Campaign(p, term) else SentToAll(p, VotersOf(p.membership), SendPreVote(term))
  {
    hide Campaign, Quorum;
  }

  /** A probe is what Probes says. */
  lemma ProbeActs<V(!new), S(!new)>(n: Node<V, S>, term: U64)
    requires Sized(n) && Timed(n) && Seating(n) && Silent(n) && IsVoter(n.membership, n.config.id)
    requires WellFormed(n.state) && n.state.hard.term < term
    ensures Probes(n, Probe(n, term), term)
  {
    hide Seating, Silent, WellFormed, Counted, Campaign, SentToAll, Quorum, Tells, Bars, IsVoter, ElectionQuorum, Asks,
         Probing, Probe, Stands;
    var p := Probing(n, term);
    ProbingParts(n, term);
    ProbeIs(n, term);
    SeatingTable(p);
    CountedQuorum(p, Only(n.config.id));
    if ElectionQuorum(p) {
      CampaignActs(p, term);
      StandsFrom(n, p, Campaign(p, term), term);
    } else {
      AskedAll(n, p, SendPreVote(term));
    }
  }

  // ---- Ticks.

  /** The tick of a node that does not lead: wait, or stand once the deadline has passed. */
  ghost predicate WaiterTicks<V, S>(n: Node<V, S>, r: Node<V, S>, error: Option<Error>) {
    if !IsVoter(n.membership, n.config.id) || SaturatingInc(n.elapsed) < n.electionDeadline then
      error.None? && r == n.(elapsed := SaturatingInc(n.elapsed), leaderAge := SaturatingInc(n.leaderAge))
    else if n.state.hard.term == MAX_U64 then
      error == Some(Exhausted) && r == n.(elapsed := SaturatingInc(n.elapsed), leaderAge := SaturatingInc(n.leaderAge))
    else
      error.None? && if n.hooks.Some? then Probes(n, r, n.state.hard.term + 1) else Stands(n, r, n.state.hard.term + 1)
  }

  lemma TickWaits<V(!new), S(!new)>(n: Node<V, S>)
    requires Rests(n) && n.role != Leader
    ensures WaiterTicks(n, Tick(n).node, Tick(n).error)
  {
    hide Seating, WellFormed, Probe, Campaign, Stands, Available, AtRest, IsVoter, ProbeSound;
    RestIsAvailable(n);
    RestsListens(n);
    var t := Ticked(n);
    SeatingFlags(n, t);
    if IsVoter(t.membership, t.config.id) && t.elapsed >= t.electionDeadline && t.state.hard.term < MAX_U64 {
      var term := t.state.hard.term + 1;
      if t.hooks.Some? {
        ProbeActs(t, term);
        ProbesFrom(n, t, Probe(t, term), term);
      } else {
        CampaignActs(t, term);
        StandsFrom(n, t, Campaign(t, term), term);
      }
    }
  }

  lemma ProbesFrom<V, S>(n: Node<V, S>, p: Node<V, S>, r: Node<V, S>, term: U64)
    requires Probes(p, r, term) && p.state == n.state && p.config == n.config
    requires p.peers == n.peers && p.membership == n.membership && p.local == n.local
    ensures Probes(n, r, term)
  {
    hide Stands, Quorum, Tells, Counted;
    if Quorum(n.membership, Only(n.config.id)) {
      StandsFrom(n, p, r, term);
    }
  }

  // ---- Votes.

  /** Nothing but the request's origin, and a newer term if there was one, is noted. */
  ghost predicate OnlyNotes<V, S>(n: Node<V, S>, r: Node<V, S>, term: U64) {
    && r.state == n.state.(hard := HardState(TermSeen(n, term), VoteSeen(n, term), n.state.hard.commit))
    && r.role == (if term > n.state.hard.term then Follower else n.role)
    && r.prevoting == (if term > n.state.hard.term then None else n.prevoting)
    && r.leader == (if term > n.state.hard.term then None else n.leader)
    && SameCounts(n, r) && Quiet(r) && Wait(n, r, term > n.state.hard.term)
  }

  /** One more vote is counted, and that is all. */
  ghost predicate Counts<V, S>(n: Node<V, S>, r: Node<V, S>, from: Id) {
    && r.state == n.state && r.role == n.role && r.prevoting == n.prevoting && r.peers == n.peers
    && r.membership == n.membership && (forall id :: Counted(r)(id) <==> CountedWith(n, from)(id)) && Quiet(r)
    && Wait(n, r, false) && r.leader == n.leader
  }

  /**
   * A vote makes its candidate leader exactly when it completes a quorum; any other vote changes no
   * more than the term.
   */
  ghost predicate TakesVote<V, S>(n: Node<V, S>, r: Node<V, S>, from: Id, term: U64, granted: bool) {
    if n.role == Candidate && granted && term == n.state.hard.term then
      if Quorum(n.membership, CountedWith(n, from)) then TakesOffice(n.state, n, r) else Counts(n, r, from)
    else OnlyNotes(n, r, term)
  }

  /** A probe's grant starts its campaign exactly when it completes a quorum and no newer term came with it. */
  ghost predicate TakesGrant<V, S>(n: Node<V, S>, r: Node<V, S>, from: Id, term: U64, campaign: U64, granted: bool) {
    if n.prevoting == Some(campaign) && granted && term <= n.state.hard.term then
      if Quorum(n.membership, CountedWith(n, from)) then Stands(n, r, campaign) else Counts(n, r, from)
    else OnlyNotes(n, r, term)
  }

  lemma CountedMore<V, S>(n: Node<V, S>, v: Node<V, S>, p: nat, from: Id, id: Id)
    requires Sized(n) && DistinctPeers(n.peers) && p < |n.peers| && n.peers[p] == Some(from)
    requires v.peers == n.peers && v.votes == n.votes[p := true]
    ensures Counted(v)(id) == CountedWith(n, from)(id)
  {
    if HasVote(v, id) {
      var q :| 0 <= q < |v.peers| && q < |v.votes| && v.peers[q] == Some(id) && v.votes[q];
      assert q != p ==> n.peers[q] == Some(id) && n.votes[q];
    }
    if HasVote(n, id) {
      var q :| 0 <= q < |n.peers| && q < |n.votes| && n.peers[q] == Some(id) && n.votes[q];
      assert v.peers[q] == Some(id) && v.votes[q];
    }
    assert v.peers[p] == Some(from) && v.votes[p];
  }

  /** A node with one more vote ticked off. */
  lemma VotedParts<V(!new), S(!new)>(n: Node<V, S>, v: Node<V, S>, p: nat, from: Id)
    requires Rests(n) && p < |n.peers| && n.peers[p] == Some(from)
    requires v == n.(votes := n.votes[p := true], requestFrom := v.requestFrom)
    ensures Sized(v) && Timed(v) && Seating(v) && Silent(v) && Counts(n, v, from)
    ensures ElectionQuorum(v) == Quorum(n.membership, CountedWith(n, from))
  {
    hide Quorum, WellFormed, ElectionQuorum, Counted;
    RestsListens(n);
    SeatingFlags(n, v);
    SilentIsQuiet(v);
    forall id ensures Counted(v)(id) == CountedWith(n, from)(id) {
      CountedMore(n, v, p, from, id);
    }
    CountedQuorum(v, CountedWith(n, from));
  }

  lemma NotesOnly<V, S>(n: Node<V, S>, e: Envelope<V, S>)
    requires Listens(n) && Answerable(n, e.from)
    ensures OnlyNotes(n, Seeing(n, e), e.message.term)
  {
    hide DistinctPeers;
    SilentIsQuiet(n);
    ObservedParts(n.(requestFrom := Some(e.from)), e.message.term);
    SeeingParts(n, e);
    hide Seeing;
    SilentIsQuiet(Seeing(n, e));
  }

  lemma VoteTaken<V(!new), S(!new)>(n: Node<V, S>, e: Envelope<V, S>, p: nat)
    requires Rests(n) && Delivered(n, e) && p < |n.peers| && n.peers[p] == Some(e.from) && e.message.Voted?
    ensures Step(n, e).error.None?
    ensures TakesVote(n, Step(n, e).node, e.from, e.message.term, e.message.granted)
  {
    hide Seating, WellFormed, ValidMessage, Counts, OnlyNotes, TakesOffice, Step, Quorum, BecomeLeader, Seeing,
         ElectionQuorum,
         Listens;
    RestsListens(n);
    SlotIsPosition(n, p, e.from);
    StepHears(n, e);
    SeeingParts(n, e);
    NotesOnly(n, e);
    var o := Seeing(n, e);
    if n.role == Candidate && e.message.granted && e.message.term == n.state.hard.term {
      SeesNothing(n, e);
      var v := o.(votes := o.votes[p := true]);
      VotedParts(n, v, p, e.from);
      if ElectionQuorum(v) {
        OfficeTaken(v);
        OfficeFrom(n, v, BecomeLeader(v));
      }
    }
  }

  lemma OfficeFrom<V, S>(n: Node<V, S>, v: Node<V, S>, r: Node<V, S>)
    requires TakesOffice(v.state, v, r) && v.state == n.state && v.config == n.config
    requires v.peers == n.peers && v.membership == n.membership && v.local == n.local
    ensures TakesOffice(n.state, n, r)
  {
    hide Bars, Tells;
  }

  lemma SeesNothing<V, S>(n: Node<V, S>, e: Envelope<V, S>)
    requires Timed(n) && e.message.term <= n.state.hard.term
    ensures Seeing(n, e) == n.(requestFrom := Some(e.from))
  {
  }

  lemma GrantTaken<V(!new), S(!new)>(n: Node<V, S>, e: Envelope<V, S>, p: nat)
    requires Rests(n) && Delivered(n, e) && p < |n.peers| && n.peers[p] == Some(e.from) && e.message.PreVoted?
    ensures Step(n, e).error.None?
    ensures TakesGrant(n, Step(n, e).node, e.from, e.message.term, e.message.campaign, e.message.granted)
  {
    hide Seating, WellFormed, ValidMessage, Counts, OnlyNotes, Stands, Step, Quorum, Campaign, Seeing, ElectionQuorum,
         Listens;
    RestsListens(n);
    SlotIsPosition(n, p, e.from);
    StepHears(n, e);
    SeeingParts(n, e);
    NotesOnly(n, e);
    var o := Seeing(n, e);
    if e.message.term <= n.state.hard.term {
      SeesNothing(n, e);
      if n.prevoting == Some(e.message.campaign) && e.message.granted {
        var v := o.(votes := o.votes[p := true]);
        VotedParts(n, v, p, e.from);
        ProberVotes(n);
        if ElectionQuorum(v) {
          CampaignActs(v, e.message.campaign);
          StandsFrom(n, v, Campaign(v, e.message.campaign), e.message.campaign);
        }
      }
    }
  }

  lemma ProberVotes<V(!new), S(!new)>(n: Node<V, S>)
    requires Rests(n) && n.prevoting.Some?
    ensures IsVoter(n.membership, n.config.id) && n.state.hard.term < n.prevoting.value
  {
    hide InForce, Fits, AllSeated, WellFormed, DistinctPeers, IsVoter;
  }
}
