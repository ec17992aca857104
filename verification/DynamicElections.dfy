/**
 * Elections of either engine: a node becomes leader only with real grants of that very
 * term from a quorum of its membership; grants of an election probe never count.
 */
module DynamicElections {
  import opened Types
  import opened Checkpoints
  import opened Memberships
  import opened QuorumIndexes
  import opened NodeModel
  import opened LocalHistory
  import opened NodeHistory
  import opened SlotTables
  import opened DynamicNodes

  // ---- Quorums of real grants.

  ghost function Granted(self: Id, term: U64, grants: Grants): Id -> bool {
    id => id == self || (term, id) in grants
  }

  lemma {:induction false} TallyGrows(slots: seq<Option<Member>>, kind: Kind, a: Id -> bool, b: Id -> bool)
    requires forall id :: a(id) ==> b(id)
    ensures Tally(slots, kind, a) <= Tally(slots, kind, b)
    decreases |slots|
  {
    if slots != [] {
      TallyGrows(slots[..|slots| - 1], kind, a, b);
    }
  }

  lemma QuorumGrows(r: Roster, a: Id -> bool, b: Id -> bool)
    requires Quorum(r, a) && forall id :: a(id) ==> b(id)
    ensures Quorum(r, b)
  {
    TallyGrows(r.slots, Voters, a, b);
    TallyGrows(r.slots, OldVoters, a, b);
  }

  /** m leads and n did not: then a quorum really voted for it in m's term. */
  ghost predicate Earned<V, S>(n: Node<V, S>, m: Node<V, S>, grants: Grants) {
    m.role == Leader && n.role != Leader ==>
      Quorum(n.membership, Granted(n.config.id, m.state.hard.term, grants))
  }

  lemma CountedVotes<V, S>(n: Node<V, S>, grants: Grants)
    requires Sized(n) && n.role == Candidate && VotesReal(n, grants) && ElectionQuorum(n)
    ensures Quorum(n.membership, Granted(n.config.id, n.state.hard.term, grants))
  {
    var granted := Granted(n.config.id, n.state.hard.term, grants);
    forall id ensures VotedBy(n)(id) ==> granted(id) {
      if VotedBy(n)(id) {
        var p := PositionOf(n.peers, id);
        assert n.votes[p] && n.peers[p] == Some(id);
      }
    }
    QuorumGrows(n.membership, VotedBy(n), granted);
  }

  // ---- Sending.

  lemma SentSound<V(!new), S(!new)>(n: Node<V, S>, grants: Grants, peer: nat, out: Outbound)
    requires Sized(n) && Tidy(n, grants)
    requires peer < |n.peers| ==> n.peers[peer].Some? && Sendable(n, n.next[peer], out)
    requires peer >= |n.peers| ==> !out.SendReplicate? && Sendable(n, 1, out)
    ensures Sound(Sent(n, peer, out), grants)
  {
    hide Bounded, VotesReal, Seating, Sent;
    SentSeating(n, peer, out);
    SentVotes(n, grants, peer, out);
    SentOutgoing(n, peer, out);
  }

  lemma SentSeating<V(!new), S(!new)>(n: Node<V, S>, peer: nat, out: Outbound)
    requires Sized(n) && Seating(n)
    ensures Seating(Sent(n, peer, out)) && Sent(n, peer, out).role == n.role
  {
    SeatingFlags(n, Sent(n, peer, out));
  }

  lemma SentOutgoing<V, S>(n: Node<V, S>, peer: nat, out: Outbound)
    requires Sized(n) && Silent(n)
    requires peer < |n.peers| ==> n.peers[peer].Some? && Sendable(n, n.next[peer], out)
    requires peer >= |n.peers| ==> !out.SendReplicate? && Sendable(n, 1, out)
    ensures Outgoing(Sent(n, peer, out))
  {
  }

  lemma SentVotes<V, S>(n: Node<V, S>, grants: Grants, peer: nat, out: Outbound)
    requires Sized(n)
    ensures VotesReal(n, grants) ==> VotesReal(Sent(n, peer, out), grants)
    ensures Bounded(n) ==> Bounded(Sent(n, peer, out))
  {
  }

  lemma SentToAllSound<V(!new), S(!new)>(n: Node<V, S>, grants: Grants, wanted: Id -> bool, out: Outbound)
    requires Sized(n) && Tidy(n, grants)
    requires forall p | 0 <= p < |n.peers| :: Sendable(n, n.next[p], out)
    ensures Sound(SentToAll(n, wanted, out), grants)
  {
    var m := SentToAll(n, wanted, out);
    SeatingFlags(n, m);
    hide Seating;
    forall p | 0 <= p < |m.outbox| && m.outbox[p].Some?
      ensures m.peers[p].Some? && Sendable(m, m.next[p], m.outbox[p].value)
    {
      assert Sendable(n, n.next[p], out);
    }
  }

  lemma BroadcastSound<V(!new), S(!new)>(n: Node<V, S>, grants: Grants)
    requires Sized(n) && Tidy(n, grants) && Bounded(n) && n.state.hard.term > 0
    ensures Sound(Broadcast(n), grants)
  {
    hide Tidy, Sound, SentToAll;
    forall p | 0 <= p < |n.peers| ensures Sendable(n, n.next[p], SendReplicate) {
    }
    SentToAllSound(n, grants, MembersOf(n.membership), SendReplicate);
  }

  // ---- Terms stay put.

  lemma CommitTerm<V, S>(n: Node<V, S>, index: U64)
    requires Sized(n) && Timed(n)
    ensures CommitTo(n, index).state.hard.term == n.state.hard.term
    ensures AdvanceCommit(n).state.hard.term == n.state.hard.term
  {
    hide Refreshed;
    RefreshedFrame(n.(state := n.state.(hard := n.state.hard.(commit := index)), dirty := true));
    var at := QuorumMatched(n);
    RefreshedFrame(n.(state := n.state.(hard := n.state.hard.(commit := at)), dirty := true));
  }

  lemma BarrierTerm<V, S>(n: Node<V, S>)
    requires Sized(n) && Timed(n)
    ensures Barrier(n).state.hard.term == n.state.hard.term
  {
    hide AdvanceCommit;
    var last := Last(n.state);
    if last.index < MAX_U64 {
      var id := LogId(last.index + 1, n.state.hard.term);
      CommitTerm(MatchedSelf(
        n.(state := Pushed(n.state, Entry(id, None)), dirty := true, logFrom := Some(id.index)), id.index), 0);
    }
  }

  // ---- Becoming leader.

  /** The node BecomeLeader starts from. */
  function Enthroned<V, S>(n: Node<V, S>): Node<V, S>
    requires Sized(n)
  {
    var last := Last(n.state).index;
    MatchedSelf(
      n.(quorumElapsed := 0,
         active := Filled<bool>(|n.peers|, false),
         role := Leader,
         leader := Some(n.config.id),
         elapsed := 0,
         next := Filled<U64>(|n.peers|, SaturatingInc(last)),
         matched := Filled<U64>(|n.peers|, 0)),
      last)
  }

  lemma EnthronedTidy<V(!new), S(!new)>(n: Node<V, S>, grants: Grants)
    requires Sized(n) && Tidy(n, grants) && n.role == Candidate && n.prevoting.None?
    ensures Tidy(Enthroned(n), grants)
  {
    SeatingFrame(n, Enthroned(n));
    hide Seating;
  }

  lemma BecomeLeaderSound<V(!new), S(!new)>(d: Checkpoint<V, S>, n: Node<V, S>, grants: Grants)
    requires Goes(d, n) && Tidy(n, grants) && n.role == Candidate && n.prevoting.None?
    ensures Sound(BecomeLeader(n), grants) && BecomeLeader(n).state.hard.term == n.state.hard.term
  {
    hide Continues, Tidy, Sound, Barrier, Broadcast;
    EnthronedTidy(n, grants);
    EnthronedGoes(d, n);
    var e := Enthroned(n);
    EnthronedFrame(n);
    BarrierTidy(d, e, grants);
    BarrierTerm(e);
    BroadcastSound(Barrier(e), grants);
    BroadcastFrame(Barrier(e));
  }

  lemma BroadcastFrame<V, S>(n: Node<V, S>)
    requires Sized(n)
    ensures Broadcast(n).state == n.state && Broadcast(n).role == n.role
  {
  }

  lemma EnthronedFrame<V, S>(n: Node<V, S>)
    requires Sized(n) && Timed(n)
    ensures Sized(Enthroned(n)) && Timed(Enthroned(n)) && Enthroned(n).role == Leader && Enthroned(n).state == n.state
    ensures BecomeLeader(n) == Broadcast(Barrier(Enthroned(n)))
  {
  }

  lemma EnthronedGoes<V, S>(d: Checkpoint<V, S>, n: Node<V, S>)
    requires Goes(d, n) && n.state.hard.term > 0 && n.prevoting.None?
    ensures Goes(d, Enthroned(n))
  {
    hide Continues;
    GoesSame(d, n, Enthroned(n));
  }

  // ---- Campaigns and probes.

  /** The candidate right after it voted for itself. */
  function Standing<V, S>(n: Node<V, S>, term: U64): (r: Node<V, S>)
    requires Sized(n) && Timed(n)
    ensures Sized(r) && Same(n, r)
  {
    ResetElection(SelfVote(
      n.(prevoting := None,
         state := n.state.(hard := n.state.hard.(term := term, votedFor := Some(n.config.id))),
         dirty := true,
         role := Candidate,
         leader := None)))
  }

  lemma SelfVoteOnly<V(!new), S(!new)>(n: Node<V, S>, p: nat)
    requires Sized(n) && Seating(n) && p < |n.peers| && SelfVote(n).votes[p] && n.peers[p].Some?
    ensures n.peers[p].value == n.config.id
  {
    hide InForce, Fits, IsVoter;
  }

  lemma StandingTidy<V(!new), S(!new)>(n: Node<V, S>, grants: Grants, term: U64)
    requires Sized(n) && Timed(n) && Tidy(n, grants) && IsVoter(n.membership, n.config.id)
    ensures Tidy(Standing(n, term), grants)
  {
    var c := Standing(n, term);
    SeatingFrame(n, c);
    hide IsVoter;
    forall p | 0 <= p < |c.votes| && c.votes[p] && c.peers[p].Some? ensures c.peers[p].value == c.config.id {
      SelfVoteOnly(n, p);
    }
    hide Seating;
  }

  lemma StandingGoes<V, S>(d: Checkpoint<V, S>, n: Node<V, S>, term: U64)
    requires Goes(d, n) && n.state.hard.term < term
    ensures Goes(d, Standing(n, term))
  {
    hide WellFormed, Delta, Advances;
    var hard := n.state.hard.(term := term, votedFor := Some(n.config.id));
    LastTerm(n.state);
    HardContinues(d, n.state, n.logFrom, n.snapshotChanged, hard);
  }

  lemma CampaignSound<V(!new), S(!new)>(d: Checkpoint<V, S>, n: Node<V, S>, grants: Grants, term: U64)
    requires Goes(d, n) && Tidy(n, grants) && IsVoter(n.membership, n.config.id) && n.state.hard.term < term
    ensures Sound(Campaign(n, term), grants)
    ensures Campaign(n, term).role == Leader ==> Quorum(n.membership, Granted(n.config.id, term, grants))
    ensures Campaign(n, term).state.hard.term == term
  {
    hide Continues, BecomeLeader, Quorum, ElectionQuorum, IsVoter, Sound, Seating, Bounded;
    StandingTidy(n, grants, term);
    StandingGoes(d, n, term);
    var c := Standing(n, term);
    if ElectionQuorum(c) {
      CountedVotes(c, grants);
      BecomeLeaderSound(d, c, grants);
    } else {
      SentToAllSound(c, grants, VotersOf(c.membership), SendVote);
    }
  }

  lemma ProbedTidy<V(!new), S(!new)>(n: Node<V, S>, grants: Grants, term: U64)
    requires Sized(n) && Timed(n) && Tidy(n, grants) && IsVoter(n.membership, n.config.id)
    ensures Tidy(ResetElection(SelfVote(n.(role := Follower, prevoting := Some(term)))), grants)
  {
    var p := ResetElection(SelfVote(n.(role := Follower, prevoting := Some(term))));
    SeatingFrame(n, p);
    hide Seating;
  }

  lemma ProbeSoundly<V(!new), S(!new)>(d: Checkpoint<V, S>, n: Node<V, S>, grants: Grants, term: U64)
    requires Goes(d, n) && Tidy(n, grants) && IsVoter(n.membership, n.config.id) && n.state.hard.term + 1 == term
    ensures Sound(Probe(n, term), grants) && Earned(n, Probe(n, term), grants)
  {
    hide Continues, Campaign, Quorum, ElectionQuorum, IsVoter, Sound, Seating, Bounded;
    ProbedTidy(n, grants, term);
    var p := ResetElection(SelfVote(n.(role := Follower, prevoting := Some(term))));
    ProbedGoes(d, n, term);
    if ElectionQuorum(p) {
      CampaignSound(d, p, grants, term);
    } else {
      SentToAllSound(p, grants, VotersOf(p.membership), SendPreVote(term));
    }
  }

  lemma ProbedGoes<V(!new), S(!new)>(d: Checkpoint<V, S>, n: Node<V, S>, term: U64)
    requires Goes(d, n) && Seating(n) && IsVoter(n.membership, n.config.id) && n.state.hard.term + 1 == term
    ensures Goes(d, ResetElection(SelfVote(n.(role := Follower, prevoting := Some(term)))))
  {
    SeatingPlaced(n);
    hide Continues, Seating, IsVoter;
  }

  // ---- Votes and grants received.

  lemma VoteCountedSound<V(!new), S(!new)>(
    d: Checkpoint<V, S>, n: Node<V, S>, grants: Grants, peer: nat, from: Id, granted: bool)
    requires Goes(d, n) && Tidy(n, grants)
    requires peer < |n.peers| ==> n.peers[peer] == Some(from)
    requires granted ==> (n.state.hard.term, from) in grants
    ensures Sound(VoteCounted(n, peer, granted), grants) && Earned(n, VoteCounted(n, peer, granted), grants)
  {
    hide Continues, BecomeLeader, Quorum, ElectionQuorum, Sound, Seating;
    TidySound(n, grants);
    if n.role == Candidate && granted && peer < |n.peers| {
      var v := n.(votes := n.votes[peer := true]);
      VoteTidy(n, grants, peer);
      hide Tidy;
      TidySound(v, grants);
      if ElectionQuorum(v) {
        VoteGoes(d, n, v);
        TidyVotes(v, grants);
        CountedVotes(v, grants);
        BecomeLeaderSound(d, v, grants);
      }
    }
  }

  lemma TidyVotes<V(!new), S(!new)>(n: Node<V, S>, grants: Grants)
    requires Tidy(n, grants)
    ensures VotesReal(n, grants)
  {
  }

  lemma VoteGoes<V, S>(d: Checkpoint<V, S>, n: Node<V, S>, v: Node<V, S>)
    requires Goes(d, n) && Sized(v) && v == n.(votes := v.votes)
    ensures Goes(d, v)
  {
    hide Continues;
    GoesSame(d, n, v);
  }

  lemma VoteTidy<V(!new), S(!new)>(n: Node<V, S>, grants: Grants, peer: nat)
    requires Sized(n) && Tidy(n, grants) && peer < |n.peers| && n.peers[peer].Some?
    requires n.role == Candidate ==> (n.state.hard.term, n.peers[peer].value) in grants
    ensures Tidy(n.(votes := n.votes[peer := true]), grants)
  {
    SeatingFlags(n, n.(votes := n.votes[peer := true]));
    hide Seating;
  }

  lemma TidySound<V(!new), S(!new)>(n: Node<V, S>, grants: Grants)
    requires Tidy(n, grants)
    ensures Sound(n, grants)
  {
    hide Seating, VotesReal, Bounded;
  }

  /** A granted probe may start a campaign; its own grants are thrown away first. */
  lemma PolledSound<V(!new), S(!new)>(
    d: Checkpoint<V, S>, n: Node<V, S>, grants: Grants, peer: nat, campaign: U64, granted: bool)
    requires Goes(d, n) && Tidy(n, grants) && (peer < |n.peers| ==> n.peers[peer].Some?)
    ensures Sound(Polled(n, peer, campaign, granted), grants) && Earned(n, Polled(n, peer, campaign, granted), grants)
  {
    hide Continues, Campaign, Quorum, ElectionQuorum, Sound, Bounded, VotesReal;
    TidySound(n, grants);
    if n.prevoting == Some(campaign) && granted && peer < |n.peers| {
      var v := n.(votes := n.votes[peer := true]);
      assert IsVoter(v.membership, v.config.id);
      VoteTidy(n, grants, peer);
      hide Tidy, Seating;
      TidySound(v, grants);
      if ElectionQuorum(v) {
        VoteGoes(d, n, v);
        CampaignSound(d, v, grants, campaign);
      }
    }
  }
}
