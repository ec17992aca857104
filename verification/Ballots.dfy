/**
 * Elections, said without the functions that run them: exactly when a vote or a probe is
 * granted, what standing for election does, and which grant makes a candidate leader
 * (jarl/src/node.rs).
 */
module Ballots {
  import opened Types
  import opened Checkpoints
  import opened Memberships
  import opened NodeModel
  import opened LocalHistory
  import opened NodeHistory
  import opened SlotTables
  import opened DynamicNodes
  import opened DynamicElections
  import opened CommitRules
  import opened Queues
  import opened LeaderActs
  import opened LeaderSteps

  // ---- Answering.

  /** Whoever asked has a slot, or a slot is not needed to be answered. */
  ghost predicate Answerable<V, S>(n: Node<V, S>, from: Id) {
    Some(from) in n.peers || n.hooks.Some?
  }

  /** A node between operations whose slots are distinct. */
  ghost predicate Listens<V, S>(n: Node<V, S>) {
    Sized(n) && Timed(n) && AtRest(n) && DistinctPeers(n.peers)
  }

  /** A leader, or who heard from one within an election timeout, does not take part in elections. */
  ghost predicate HasLeader<V, S>(n: Node<V, S>) {
    n.role == Leader || n.leaderAge < n.config.electionTicks
  }

  /** The term and the vote once a message of this term has been seen. */
  ghost function TermSeen<V, S>(n: Node<V, S>, term: U64): U64 {
    if term > n.state.hard.term then term else n.state.hard.term
  }

  ghost function VoteSeen<V, S>(n: Node<V, S>, term: U64): Option<Id> {
    if term > n.state.hard.term then None else n.state.hard.votedFor
  }

  /** The log that ends in `last` is at least as up to date as one that ends in `ours`. */
  ghost predicate NoOlder(last: LogId, ours: LogId) {
    last.term > ours.term || (last.term == ours.term && last.index >= ours.index)
  }

  /** A vote is due: the term is not over, the vote is still free or already theirs, and their log is no older. */
  ghost predicate DeservesVote<V, S>(n: Node<V, S>, from: Id, term: U64, last: LogId) {
    && term >= n.state.hard.term
    && (VoteSeen(n, term).None? || VoteSeen(n, term) == Some(from))
    && NoOlder(last, Last(n.state))
  }

  /** The election timer starts over with a new deadline. */
  ghost predicate StartsWaiting<V, S>(r: Node<V, S>) {
    r.elapsed == 0 && r.config.electionTicks <= r.electionDeadline < 2 * r.config.electionTicks
  }

  /** The wait for an election starts over, or goes on as it was. */
  ghost predicate Wait<V, S>(n: Node<V, S>, r: Node<V, S>, restarts: bool) {
    if restarts then StartsWaiting(r) else r.elapsed == n.elapsed && r.electionDeadline == n.electionDeadline
  }

  /** The members, their slots, votes and positions are the same. */
  ghost predicate SameCounts<V, S>(n: Node<V, S>, r: Node<V, S>) {
    && r.peers == n.peers && r.membership == n.membership && r.local == n.local && r.config == n.config
    && r.votes == n.votes && r.matched == n.matched && r.next == n.next && r.cap == n.cap
  }

  /** What seeing a message of this term changes. */
  lemma ObservedParts<V, S>(n: Node<V, S>, term: U64)
    requires Sized(n) && Timed(n)
    ensures
      var o := Observed(n, term);
      && o.state == n.state.(hard := HardState(TermSeen(n, term), VoteSeen(n, term), n.state.hard.commit))
      && Same(n, o) && o.role == (if term > n.state.hard.term then Follower else n.role)
      && o.prevoting == (if term > n.state.hard.term then None else n.prevoting)
      && o.leader == (if term > n.state.hard.term then None else n.leader)
      && o.dirty == (n.dirty || term > n.state.hard.term)
      && (term <= n.state.hard.term ==> o == n)
      && SameSeats(n, o) && o.requestFrom == n.requestFrom && Wait(n, o, term > n.state.hard.term)
  {
  }

  lemma VoteAnswerActs<V, S>(o: Node<V, S>, peer: nat, from: Id, last: LogId)
    requires Sized(o) && Timed(o) && Silent(o)
    requires if peer < |o.peers| then o.peers[peer] == Some(from) else o.requestFrom == Some(from)
    ensures
      var r := VoteAnswer(o, peer, from, last);
      var due := (o.state.hard.votedFor.None? || o.state.hard.votedFor == Some(from)) && NoOlder(last, Last(o.state));
      && Tells(r, Only(from), SendVoted(due))
      && r.state == o.state.(hard := o.state.hard.(votedFor := if due then Some(from) else o.state.hard.votedFor))
      && r.role == o.role && (r.dirty <==> o.dirty || r.state != o.state) && Wait(o, r, due)
      && SameCounts(o, r) && r.prevoting == o.prevoting && r.leader == o.leader
  {
    hide Tells, Sent, ResetElection, Silent;
    var due := (o.state.hard.votedFor.None? || o.state.hard.votedFor == Some(from)) && NoOlder(last, Last(o.state));
    var v := if due && o.state.hard.votedFor != Some(from)
             then o.(state := o.state.(hard := o.state.hard.(votedFor := Some(from))), dirty := true) else o;
    var w := if due then ResetElection(v) else v;
    ResetParts(v);
    SilentParts(o, w);
    SentTells(w, peer, from, SendVoted(due));
    SentParts(w, peer, SendVoted(due));
  }

  lemma SilentParts<V, S>(o: Node<V, S>, w: Node<V, S>)
    requires Silent(o) && w.outbox == o.outbox && w.extraReply == o.extraReply
    ensures Silent(w)
  {
  }

  /** The node with the question noted and its term seen. */
  ghost function Seeing<V, S>(n: Node<V, S>, e: Envelope<V, S>): Node<V, S>
    requires Timed(n)
  {
    Observed(n.(requestFrom := Some(e.from)), e.message.term)
  }

  lemma SeeingParts<V, S>(n: Node<V, S>, e: Envelope<V, S>)
    requires Listens(n) && Answerable(n, e.from)
    ensures
      var o, term := Seeing(n, e), e.message.term;
      && Sized(o) && Timed(o) && Silent(o) && o.requestFrom == Some(e.from)
      && o.state == n.state.(hard := HardState(TermSeen(n, term), VoteSeen(n, term), n.state.hard.commit))
      && o.role == (if term > n.state.hard.term then Follower else n.role) && o.dirty == (term > n.state.hard.term)
      && o.peers == n.peers && o.membership == n.membership && o.config == n.config && o.hooks == n.hooks
      && SameCounts(n, o) && o.cap == n.cap && o.bootstrap == n.bootstrap
      && o.prevoting == (if term > n.state.hard.term then None else n.prevoting)
      && o.leader == (if term > n.state.hard.term then None else n.leader) && Wait(n, o, term > n.state.hard.term)
    ensures
      var o, peer := Seeing(n, e), PositionOf(n.peers, e.from);
      if peer < |o.peers| then o.peers[peer] == Some(e.from) else o.requestFrom == Some(e.from)
  {
    ObservedParts(n.(requestFrom := Some(e.from)), e.message.term);
  }

  lemma StepHears<V, S>(n: Node<V, S>, e: Envelope<V, S>)
    requires Listens(n) && Delivered(n, e) && !e.message.PreVote?
    requires Some(e.from) in n.peers || (n.hooks.Some? && AnswersStrangers(e.message))
    requires n.hooks.Some? && e.message.Vote? ==> !HasLeader(n)
    ensures Sized(Seeing(n, e)) && Timed(Seeing(n, e))
    ensures Step(n, e) == Outcome(Settled(Seeing(n, e), PositionOf(n.peers, e.from), e.from, e.message), None)
  {
    hide Settled, ValidMessage, Available, AtRest, DistinctPeers, Followed;
    RestIsAvailable(n);
    if Some(e.from) in n.peers {
      SeatedPosition(n.peers, e.from);
    }
    ObservedParts(n.(requestFrom := Some(e.from)), e.message.term);
  }

  lemma SeatedPosition(peers: seq<Option<Id>>, id: Id)
    requires Some(id) in peers
    ensures PositionOf(peers, id) < |peers|
  {
  }

  /**
   * The answer is yes, and the vote theirs, exactly when it is due; otherwise it is no
   * and the vote is what it was. A newer term is taken over either way.
   */
  ghost predicate AnswersVote<V, S>(n: Node<V, S>, r: Node<V, S>, from: Id, term: U64, last: LogId) {
    var due := DeservesVote(n, from, term, last);
    && Tells(r, Only(from), SendVoted(due))
    && r.state.hard == HardState(TermSeen(n, term), if due then Some(from) else VoteSeen(n, term), n.state.hard.commit)
    && r.state == n.state.(hard := r.state.hard)
    && r.role == (if term > n.state.hard.term then Follower else n.role)
    && (r.dirty <==> r.state != n.state) && Wait(n, r, due || term > n.state.hard.term)
    && SameCounts(n, r) && r.prevoting == (if term > n.state.hard.term then None else n.prevoting)
    && r.leader == (if term > n.state.hard.term then None else n.leader)
  }

  /** A request for a vote that is not suppressed is answered at once, and only to whoever asked. */
  lemma VoteAnswered<V, S>(n: Node<V, S>, e: Envelope<V, S>)
    requires Listens(n) && Delivered(n, e) && Answerable(n, e.from) && e.message.Vote?
    requires n.hooks.Some? ==> !HasLeader(n)
    ensures Step(n, e).error.None?
    ensures AnswersVote(n, Step(n, e).node, e.from, e.message.term, e.message.last)
  {
    hide Seeing, VoteAnswer, Tells, Observed, DistinctPeers, AtRest, ValidMessage, Listens, Silent;
    StepHears(n, e);
    SeeingParts(n, e);
    var o, peer := Seeing(n, e), PositionOf(n.peers, e.from);
    if e.message.term < n.state.hard.term {
      SentTells(o, peer, e.from, SendVoted(false));
      SentParts(o, peer, SendVoted(false));
      StaleVote(o, peer, e);
    } else {
      VoteAnswerActs(o, peer, e.from, e.message.last);
    }
  }

  lemma StaleVote<V, S>(o: Node<V, S>, peer: nat, e: Envelope<V, S>)
    requires Sized(o) && Timed(o) && e.message.Vote? && e.message.term < o.state.hard.term
    ensures Settled(o, peer, e.from, e.message) == Sent(o, peer, SendVoted(false))
  {
  }

  lemma ResetParts<V, S>(n: Node<V, S>)
    requires Timed(n)
    ensures
      var r := ResetElection(n);
      r == n.(random := r.random, electionDeadline := r.electionDeadline, elapsed := 0)
      && n.config.electionTicks <= r.electionDeadline < 2 * n.config.electionTicks
  {
  }

  lemma SentParts<V, S>(n: Node<V, S>, peer: nat, out: Outbound)
    requires Sized(n)
    ensures var r := Sent(n, peer, out); r == n.(outbox := r.outbox, extraReply := r.extraReply)
  {
  }

  /** A request for a vote that a recent leader suppresses is only noted. */
  lemma VoteSuppressed<V, S>(n: Node<V, S>, e: Envelope<V, S>)
    requires Listens(n) && Delivered(n, e) && e.message.Vote? && n.hooks.Some? && HasLeader(n)
    ensures Step(n, e) == Outcome(n.(requestFrom := Some(e.from)), None)
  {
    hide ValidMessage, Available, AtRest, DistinctPeers;
    RestIsAvailable(n);
  }

  /** The answer is yes exactly when the term is new, no leader was heard from, and their log is no older. */
  ghost predicate AnswersProbe<V, S>(n: Node<V, S>, r: Node<V, S>, from: Id, term: U64, last: LogId) {
    var yes := term > n.state.hard.term && !HasLeader(n) && NoOlder(last, Last(n.state));
    && Tells(r, Only(from), SendPreVoted(term, yes))
    && r == n.(requestFrom := Some(from), outbox := r.outbox, extraReply := r.extraReply)
  }

  /** A probe is answered to whoever asked and changes nothing else. */
  lemma ProbeAnswered<V, S>(n: Node<V, S>, e: Envelope<V, S>)
    requires Listens(n) && Delivered(n, e) && Answerable(n, e.from) && e.message.PreVote?
    ensures Step(n, e).error.None?
    ensures AnswersProbe(n, Step(n, e).node, e.from, e.message.term, e.message.last)
  {
    hide ValidMessage, Available, AtRest, DistinctPeers, Tells, Sent;
    RestIsAvailable(n);
    var m := n.(requestFrom := Some(e.from));
    var peer := PositionOf(n.peers, e.from);
    var yes := e.message.term > n.state.hard.term && !HasLeader(n) && NoOlder(e.message.last, Last(n.state));
    SilentRest(n);
    SentTells(m, peer, e.from, SendPreVoted(e.message.term, yes));
    SentParts(m, peer, SendPreVoted(e.message.term, yes));
  }

  lemma SilentRest<V, S>(n: Node<V, S>)
    requires AtRest(n)
    ensures Silent(n) && !n.dirty
  {
  }

  // ---- Standing for election.

  /** Whose votes are counted. */
  ghost predicate HasVote<V, S>(n: Node<V, S>, id: Id) {
    exists p :: 0 <= p < |n.peers| && p < |n.votes| && n.peers[p] == Some(id) && n.votes[p]
  }

  ghost function Counted<V, S>(n: Node<V, S>): Id -> bool {
    id => HasVote(n, id)
  }

  ghost function CountedWith<V, S>(n: Node<V, S>, from: Id): Id -> bool {
    id => HasVote(n, id) || id == from
  }

  /** The node has voted for itself, counts that vote alone, and asks every other voter. */
  ghost predicate Asks<V, S>(n: Node<V, S>, r: Node<V, S>, out: Outbound) {
    && r.peers == n.peers && r.membership == n.membership
    && (forall id :: Counted(r)(id) <==> id == n.config.id)
    && StartsWaiting(r) && Tells(r, FellowVoters(r), out)
  }

  /** A campaign of this term: office at once if the own vote decides, and otherwise a request to every other voter. */
  ghost predicate Stands<V, S>(n: Node<V, S>, r: Node<V, S>, term: U64) {
    var s := n.state.(hard := HardState(term, Some(n.config.id), n.state.hard.commit));
    if Quorum(n.membership, Only(n.config.id)) then TakesOffice(s, n, r)
    else r.role == Candidate && r.leader == None && r.prevoting == None && r.state == s && Asks(n, r, SendVote)
  }

  /** A probe of this term, which leaves the term and the vote alone. */
  ghost predicate Probes<V, S>(n: Node<V, S>, r: Node<V, S>, term: U64) {
    if Quorum(n.membership, Only(n.config.id)) then Stands(n, r, term)
    else r.role == Follower && r.prevoting == Some(term) && r.state == n.state && Asks(n, r, SendPreVote(term))
  }

  lemma CountedIsVoted<V, S>(n: Node<V, S>, id: Id)
    requires Sized(n) && DistinctPeers(n.peers)
    ensures Counted(n)(id) == VotedBy(n)(id)
  {
    var i := PositionOf(n.peers, id);
    if i < |n.peers| {
      assert n.peers[i] == Some(id);
    }
  }

  lemma CountedQuorum<V, S>(n: Node<V, S>, wanted: Id -> bool)
    requires Sized(n) && DistinctPeers(n.peers) && forall id :: Counted(n)(id) == wanted(id)
    ensures ElectionQuorum(n) == Quorum(n.membership, wanted)
  {
    hide Quorum, DistinctPeers, Counted;
    forall id ensures VotedBy(n)(id) == wanted(id) {
      CountedIsVoted(n, id);
    }
    QuorumSame(n.membership, VotedBy(n), wanted);
  }

  lemma OnlyOwnVote<V(!new), S(!new)>(n: Node<V, S>, c: Node<V, S>, id: Id)
    requires Sized(n) && Seating(n) && IsVoter(n.membership, n.config.id)
    requires c.peers == n.peers && c.votes == SelfVote(n).votes
    ensures Counted(c)(id) == (id == n.config.id)
  {
    SeatingPlaced(n);
    hide IsVoter, InForce, Fits, AllSeated;
    if id == n.config.id {
      assert c.peers[n.local] == Some(id) && c.votes[n.local];
    }
  }

  lemma StandingParts<V(!new), S(!new)>(n: Node<V, S>, term: U64)
    requires Sized(n) && Timed(n) && Seating(n) && Silent(n) && IsVoter(n.membership, n.config.id)
    requires WellFormed(n.state) && n.state.hard.term < term
    ensures
      var c := Standing(n, term);
      && Sized(c) && Timed(c) && Seating(c) && Silent(c) && WellFormed(c.state)
      && c.role == Candidate && c.prevoting.None? && c.leader.None? && StartsWaiting(c)
      && c.state == n.state.(hard := HardState(term, Some(n.config.id), n.state.hard.commit))
      && c.peers == n.peers && c.membership == n.membership && c.local == n.local && c.config == n.config
      && c.cap == n.cap
    ensures forall id :: Counted(Standing(n, term))(id) == (id == n.config.id)
  {
    var c := Standing(n, term);
    SeatingFrame(n, c);
    forall id ensures Counted(c)(id) == (id == n.config.id) {
      OnlyOwnVote(n, c, id);
    }
    hide Seating, IsVoter, Counted;
    TermRaised(n.state, c.state);
  }

  lemma TermRaised<V, S>(s: Checkpoint<V, S>, t: Checkpoint<V, S>)
    requires WellFormed(s) && t == s.(hard := t.hard) && s.hard.term < t.hard.term && t.hard.commit == s.hard.commit
    ensures WellFormed(t)
  {
  }

  lemma CampaignIs<V, S>(n: Node<V, S>, term: U64)
    requires Sized(n) && Timed(n)
    ensures
      var c := Standing(n, term);
      Campaign(n, term) == if ElectionQuorum(c) then BecomeLeader(c) else SentToAll(c, VotersOf(c.membership), SendVote)
  {
  }

  lemma AskedAll<V(!new), S(!new)>(n: Node<V, S>, c: Node<V, S>, out: Outbound)
    requires Sized(c) && Seating(c) && Silent(c) && StartsWaiting(c)
    requires c.peers == n.peers && c.membership == n.membership && c.config == n.config
    requires forall id :: Counted(c)(id) == (id == n.config.id)
    ensures
      var r := SentToAll(c, VotersOf(c.membership), out);
      Asks(n, r, out) && r == c.(outbox := r.outbox)
  {
    hide Seating, Silent, Tells;
    VotersTold(c, out);
    var r := SentToAll(c, VotersOf(c.membership), out);
    assert forall id :: Counted(r)(id) == Counted(c)(id);
  }

  /** A campaign is what Stands says. */
  lemma CampaignActs<V(!new), S(!new)>(n: Node<V, S>, term: U64)
    requires Sized(n) && Timed(n) && Seating(n) && Silent(n) && IsVoter(n.membership, n.config.id)
    requires WellFormed(n.state) && n.state.hard.term < term
    ensures Stands(n, Campaign(n, term), term)
  {
    hide Standing, Seating, Silent, WellFormed, Counted, Campaign, BecomeLeader, SentToAll, Quorum, Tells, Bars,
         IsVoter,
         ElectionQuorum, Asks;
    var c := Standing(n, term);
    CampaignIs(n, term);
    StandingParts(n, term);
    SeatingTable(c);
    CountedQuorum(c, Only(n.config.id));
    if ElectionQuorum(c) {
      OfficeTaken(c);
    } else {
      AskedAll(n, c, SendVote);
    }
  }
}
