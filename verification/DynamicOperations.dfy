/** Every operation of either engine keeps a sound node sound (DynamicNodes.dfy). */
module DynamicOperations {
  import opened Types
  import opened Checkpoints
  import opened Memberships
  import opened QuorumIndexes
  import opened NodeModel
  import opened LocalHistory
  import opened NodeHistory
  import opened SlotTables
  import opened DynamicNodes
  import opened DynamicElections

  // ---- Slots never empty.

  ghost predicate Occupied<V, S>(n: Node<V, S>, m: Node<V, S>) {
    |m.peers| == |n.peers| && forall p | 0 <= p < |n.peers| && n.peers[p].Some? :: m.peers[p].Some?
  }

  lemma {:induction false} SeatAllOccupied<V, S>(n: Node<V, S>, from: nat)
    requires Sized(n)
    ensures Occupied(n, SeatAll(n, from))
    decreases |n.membership.slots| - from
  {
    if from < |n.membership.slots| {
      if n.membership.slots[from].None? {
        SeatAllOccupied(n, from + 1);
      } else {
        SeatAllOccupied(Seated(n, n.membership.slots[from].value.id), from + 1);
      }
    }
  }

  lemma RefreshedOccupied<V, S>(n: Node<V, S>)
    requires Sized(n) && Timed(n)
    ensures Occupied(n, Refreshed(n))
  {
    SeatAllOccupied(n.(membership := MembershipAt(n, Last(n.state).index).1), 0);
  }

  lemma CommitOccupied<V, S>(n: Node<V, S>, index: U64)
    requires Sized(n) && Timed(n)
    ensures Occupied(n, CommitTo(n, index))
    ensures n.prevoting.None? ==> CommitTo(n, index).prevoting.None?
  {
    hide Refreshed;
    var c := n.(state := n.state.(hard := n.state.hard.(commit := index)), dirty := true);
    RefreshedOccupied(c);
    RefreshedFrame(c);
  }

  // ---- Replication, follower side.

  ghost predicate Follows<V(!new), S(!new)>(d: Checkpoint<V, S>, n: Node<V, S>, grants: Grants) {
    Goes(d, n) && Tidy(n, grants) && n.role == Follower && n.prevoting.None?
  }

  lemma ReplacedTidy<V(!new), S(!new)>(n: Node<V, S>, grants: Grants, e: Entry<V>)
    requires Sized(n) && Timed(n) && Tidy(n, grants) && n.role == Follower && n.prevoting.None?
    ensures Tidy(Replaced(n, e), grants) && Replaced(n, e).role == Follower && Replaced(n, e).prevoting.None?
  {
    hide Seating, VotesReal, Refreshed, DistinctPeers, Fits, Truncated;
    SeatingTable(n);
    var x := n.(state := Pushed(Truncated(n.state, e.id.index), e));
    SameFits(n, x);
    RefreshedTidy(x, grants);
    RefreshedFrame(x);
    TidyFlags(Refreshed(x), Replaced(n, e), grants);
  }

  /** Committing keeps a follower one. */
  lemma CommitFollows<V(!new), S(!new)>(n: Node<V, S>, grants: Grants, index: U64)
    requires Sized(n) && Timed(n) && Tidy(n, grants) && n.role == Follower && n.prevoting.None?
    ensures Tidy(CommitTo(n, index), grants) && CommitTo(n, index).role == Follower
    ensures CommitTo(n, index).prevoting.None? && Occupied(n, CommitTo(n, index))
  {
    hide Tidy, CommitTo;
    CommitTidy(n, grants, index);
    CommitOccupied(n, index);
  }

  lemma ReplacedFollows<V(!new), S(!new)>(n: Node<V, S>, grants: Grants, e: Entry<V>, commit: U64)
    requires Sized(n) && Timed(n) && Tidy(n, grants) && n.role == Follower && n.prevoting.None?
    ensures
      var r := CommitTo(Replaced(n, e), commit);
      Tidy(r, grants) && r.role == Follower && r.prevoting.None? && Occupied(n, r)
  {
    hide Tidy, CommitTo, Refreshed, Truncated;
    ReplacedTidy(n, grants, e);
    CommitFollows(Replaced(n, e), grants, commit);
    RefreshedOccupied(n.(state := Pushed(Truncated(n.state, e.id.index), e)));
  }

  lemma AppendedSound<V(!new), S(!new)>(
    d: Checkpoint<V, S>, n: Node<V, S>, grants: Grants, previous: LogId, entry: Option<Entry<V>>, commit: U64)
    requires Follows(d, n, grants)
    requires entry.Some? ==> ValidNext(previous, entry.value.id, n.state.hard.term)
    ensures
      var r := Appended(n, previous, entry, commit);
      && Follows(d, r.node, grants) && r.node.state.hard.term == n.state.hard.term && Occupied(n, r.node)
      && (r.rejection.Some? && r.rejection.value.Conflict? ==> r.rejection.value.next > 0)
  {
    hide Continues, Tidy, CommitTo, Refreshed, Truncated, ProbeSound;
    AppendedGoes(d, n, previous, entry, commit);
    if IdAt(n.state, previous.index) == Some(previous) {
      CommitFollows(n, grants, Min(commit, previous.index));
      if entry.Some? {
        var e := entry.value;
        CommitFollows(n, grants, Min(commit, e.id.index));
        ReplacedFollows(n, grants, e, Min(commit, e.id.index));
        if e.id.index > n.state.hard.commit && (|n.state.entries| < n.cap || e.id.index <= Last(n.state).index) {
          TruncatedFits(d, n, previous, e);
        }
      }
    }
  }

  /** After the capacity check, truncation always leaves room. */
  lemma TruncatedFits<V, S>(d: Checkpoint<V, S>, n: Node<V, S>, previous: LogId, e: Entry<V>)
    requires Goes(d, n) && n.prevoting.None? && ValidNext(previous, e.id, n.state.hard.term)
    requires IdAt(n.state, previous.index) == Some(previous) && e.id.index > n.state.hard.commit
    requires |n.state.entries| < n.cap || e.id.index <= Last(n.state).index
    ensures |Truncated(n.state, e.id.index).entries| < n.cap
  {
    hide Delta, Advances, Contiguous, CommitTo, Refreshed, Truncated;
    HeldIsWithin(n.state, previous.index);
    ReplacedGoes(d, n, e, 0);
  }

  lemma {:induction false} BatchSound<V(!new), S(!new)>(
    d: Checkpoint<V, S>, n: Node<V, S>, grants: Grants, previous: LogId, entries: seq<Option<Entry<V>>>, commit: U64,
    accepted: bool, answer: (U64, Option<Rejection>))
    requires Follows(d, n, grants) && ValidBatch(previous, entries, n.state.hard.term)
    requires answer.1.Some? && answer.1.value.Conflict? ==> answer.1.value.next > 0
    ensures
      var r := BatchFrom(n, previous, entries, commit, accepted, answer);
      && Follows(d, r.node, grants) && r.node.state.hard.term == n.state.hard.term && Occupied(n, r.node)
      && (r.rejection.Some? && r.rejection.value.Conflict? ==> r.rejection.value.next > 0)
    decreases |entries|
  {
    hide Continues, Tidy, Appended, ProbeSound;
    if entries != [] {
      if entries[0].None? {
        NoneAnswers(n, previous, entries, commit, accepted, answer);
      } else {
        AppendedSound(d, n, grants, previous, entries[0], commit);
        var r := Appended(n, previous, entries[0], commit);
        if r.rejection.None? {
          BatchSound(d, r.node, grants, entries[0].value.id, entries[1..], commit, true, (r.index, None));
        }
      }
    }
  }

  lemma {:induction false} NoneAnswers<V, S>(
    n: Node<V, S>, previous: LogId, entries: seq<Option<Entry<V>>>, commit: U64,
    accepted: bool, answer: (U64, Option<Rejection>))
    requires Sized(n) && Timed(n) && forall k | 0 <= k < |entries| :: entries[k].None?
    ensures BatchFrom(n, previous, entries, commit, accepted, answer) == Reply(n, answer.0, answer.1)
    decreases |entries|
  {
    if entries != [] {
      NoneAnswers(n, previous, entries[1..], commit, accepted, answer);
    }
  }

  lemma InstalledSound<V(!new), S(!new)>(d: Checkpoint<V, S>, n: Node<V, S>, grants: Grants, snapshot: Snapshot<S>)
    requires Follows(d, n, grants) && n.logFrom.None? && 0 < snapshot.last.term <= n.state.hard.term
    ensures
      var r := InstalledBy(n, snapshot);
      && Follows(d, r.node, grants) && r.node.state.hard.term == n.state.hard.term && Occupied(n, r.node)
      && (r.rejection.Some? && r.rejection.value.Conflict? ==> r.rejection.value.next > 0)
  {
    hide Continues, ProbeSound, Seating, VotesReal, DistinctPeers, Fits, Refreshed, IdAt;
    InstalledByGoes(d, n, snapshot);
    SeatingTable(n);
    var i := n.(logFrom := if IdAt(n.state, snapshot.last.index) != Some(snapshot.last)
                           then CheckedInc(snapshot.last.index) else n.logFrom,
                state := Installed(n.state, snapshot));
    SameFits(n, i);
    RefreshedTidy(i, grants);
    RefreshedFrame(i);
    RefreshedOccupied(i);
    TidyFlags(Refreshed(i), Refreshed(i).(snapshotChanged := true, dirty := true), grants);
  }

  // ---- Replication, leader side.

  lemma MatchedPeerTidy<V(!new), S(!new)>(n: Node<V, S>, grants: Grants, peer: nat, index: U64, next: U64)
    requires Sized(n) && Tidy(n, grants) && n.role == Leader && peer < |n.peers|
    requires index <= Last(n.state).index && 1 <= next <= SaturatingInc(Last(n.state).index)
    ensures
      var m := n.(active := n.active[peer := true], matched := n.matched[peer := index], next := n.next[peer := next]);
      Tidy(m, grants) && Bounded(m)
  {
    var m := n.(active := n.active[peer := true], matched := n.matched[peer := index], next := n.next[peer := next]);
    SeatingFlags(n, m);
    hide Seating;
  }

  lemma ReplicatedSound<V(!new), S(!new)>(
    d: Checkpoint<V, S>, n: Node<V, S>, grants: Grants, peer: nat, index: U64, rejection: Option<Rejection>)
    requires Goes(d, n) && Tidy(n, grants) && n.role == Leader && peer < |n.peers| && n.peers[peer].Some?
    ensures Sound(ReplicatedBy(n, peer, index, rejection), grants)
    ensures rejection.Some? ==> n.matched[peer] <= Last(n.state).index
  {
    hide Continues, AdvanceCommit, Broadcast, MayCommit, Tidy, Sound, Sent;
    TidyBounded(n, grants);
    var a := n.(active := n.active[peer := true]);
    var last := Last(n.state).index;
    assert a == n.(active := a.active, matched := n.matched[peer := n.matched[peer]],
        next := n.next[peer := n.next[peer]]);
    MatchedPeerTidy(n, grants, peer, n.matched[peer], n.next[peer]);
    TidySound(a, grants);
    if index <= last {
      if rejection.None? && index > n.matched[peer] {
        var next := Max(n.next[peer], SaturatingInc(index));
        MatchedPeerTidy(n, grants, peer, index, next);
        var m := a.(matched := a.matched[peer := index], next := a.next[peer := next]);
        TidySound(m, grants);
        AdvanceTidy(m, grants);
        CommitTerm(m, 0);
        BroadcastSound(AdvanceCommit(m), grants);
        SentSound(m, grants, peer, SendReplicate);
      } else if rejection.Some? && rejection.value.Conflict? {
        var next := Clamp(rejection.value.next, SaturatingInc(n.matched[peer]), SaturatingInc(last));
        MatchedPeerTidy(n, grants, peer, n.matched[peer], next);
        var m := a.(next := a.next[peer := next]);
        assert m == n.(active := a.active, matched := n.matched[peer := n.matched[peer]], next := n.next[peer := next]);
        SentSound(m, grants, peer, SendReplicate);
      }
    }
  }

  // ---- step.

  lemma FollowedSound<V(!new), S(!new)>(d: Checkpoint<V, S>, n: Node<V, S>, grants: Grants, leader: Option<Id>)
    requires Goes(d, n) && Tidy(n, grants)
    ensures Follows(d, Followed(n, leader), grants)
  {
    FollowedGoes(d, n, leader);
    hide Goes, Seating;
    FollowedTidy(n, grants, leader);
  }

  lemma FollowedTidy<V(!new), S(!new)>(n: Node<V, S>, grants: Grants, leader: Option<Id>)
    requires Sized(n) && Timed(n) && Tidy(n, grants)
    ensures Tidy(Followed(n, leader), grants)
  {
    hide Seating;
    TidyFlags(n, Followed(n, leader), grants);
  }

  lemma ObservedTidy<V(!new), S(!new)>(n: Node<V, S>, grants: Grants, term: U64)
    requires Sized(n) && Timed(n) && Tidy(n, grants)
    ensures Tidy(Observed(n, term), grants)
  {
    hide Seating;
    TidyFlags(n, Observed(n, term), grants);
  }

  lemma VoteTidyGrant<V(!new), S(!new)>(n: Node<V, S>, grants: Grants, from: Id, reset: bool)
    requires Sized(n) && Timed(n) && Tidy(n, grants)
    ensures
      var v := n.(state := n.state.(hard := n.state.hard.(votedFor := Some(from))), dirty := true);
      Tidy(v, grants) && Tidy(ResetElection(v), grants) && Tidy(ResetElection(n), grants)
  {
    hide Seating;
    var v := n.(state := n.state.(hard := n.state.hard.(votedFor := Some(from))), dirty := true);
    TidyFlags(n, v, grants);
    TidyFlags(n, ResetElection(v), grants);
    TidyFlags(n, ResetElection(n), grants);
  }

  lemma VoteAnswerSound<V(!new), S(!new)>(n: Node<V, S>, grants: Grants, peer: nat, from: Id, last: LogId)
    requires Sized(n) && Timed(n) && Tidy(n, grants) && n.state.hard.term > 0
    requires peer < |n.peers| ==> n.peers[peer].Some?
    ensures Sound(VoteAnswer(n, peer, from, last), grants) && Falls(n, VoteAnswer(n, peer, from, last))
  {
    hide Tidy, Sound;
    VoteTidyGrant(n, grants, from, true);
    var granted :=
      && (n.state.hard.votedFor.None? || n.state.hard.votedFor == Some(from))
      && AtLeastAsUpToDate(last, Last(n.state));
    var v :=
      if granted && n.state.hard.votedFor != Some(from)
      then n.(state := n.state.(hard := n.state.hard.(votedFor := Some(from))), dirty := true)
      else n;
    var w := if granted then ResetElection(v) else v;
    SentSound(w, grants, peer, SendVoted(granted));
  }

  lemma StaleSound<V(!new), S(!new)>(n: Node<V, S>, grants: Grants, peer: nat, m: Message<V, S>)
    requires Sized(n) && Tidy(n, grants) && n.state.hard.term > 0
    requires peer < |n.peers| ==> n.peers[peer].Some?
    ensures Sound(StaleAnswer(n, peer, m), grants) && StaleAnswer(n, peer, m).role == n.role
  {
    hide Tidy, Sound, Seating;
    TidySound(n, grants);
    match m
    case Vote(_, _) => SentSound(n, grants, peer, SendVoted(false));
    case Append(_, previous, _, _) =>
      SentSound(n, grants, peer, SendReplicated(previous.index, Some(Conflict(1))));
    case AppendBatch(_, previous, _, _) =>
      SentSound(n, grants, peer, SendReplicated(previous.index, Some(Conflict(1))));
    case Install(_, snapshot) =>
      SentSound(n, grants, peer, SendReplicated(snapshot.last.index, Some(Conflict(1))));
    case _ =>
  }

  lemma AnsweredSound<V(!new), S(!new)>(d: Checkpoint<V, S>, r: Reply<V, S>, grants: Grants, peer: nat)
    requires Follows(d, r.node, grants) && r.node.state.hard.term > 0
    requires r.rejection.Some? && r.rejection.value.Conflict? ==> r.rejection.value.next > 0
    requires peer < |r.node.peers| ==> r.node.peers[peer].Some?
    ensures Sound(Answered(r, peer), grants) && Answered(r, peer).role == Follower
  {
    hide Tidy, Sound, Continues;
    SentSound(r.node, grants, peer, SendReplicated(r.index, r.rejection));
  }

  lemma CurrentSound<V(!new), S(!new)>(
    d: Checkpoint<V, S>, n: Node<V, S>, grants: Grants, peer: nat, from: Id, m: Message<V, S>)
    requires Goes(d, n) && Tidy(n, grants) && n.logFrom.None? && ValidMessage(m) && m.term == n.state.hard.term
    requires !m.PreVoted? && !m.PreVote?
    requires peer < |n.peers| ==> n.peers[peer] == Some(from)
    requires m.Voted? && m.granted ==> (m.term, from) in grants
    ensures Sound(Current(n, peer, from, m), grants) && Earned(n, Current(n, peer, from, m), grants)
  {
    hide Continues, VoteAnswer, VoteCounted, Appended, BatchFrom, InstalledBy, ReplicatedBy, Answered, Followed,
         ValidBatch, Tidy, Sound, Quorum;
    FollowedSound(d, n, grants, Some(from));
    FollowedSlots(n, Some(from));
    var f := Followed(n, Some(from));
    match m {
      case Vote(_, last) => VoteAnswerSound(n, grants, peer, from, last);
      case Voted(_, granted) => VoteCountedSound(d, n, grants, peer, from, granted);
      case Append(_, previous, entry, commit) =>
        AppendedSound(d, f, grants, previous, entry, commit);
        AnsweredSound(d, Appended(f, previous, entry, commit), grants, peer);
      case AppendBatch(_, previous, entries, commit) =>
        BatchSound(d, f, grants, previous, entries, commit, false, (previous.index, None));
        AnsweredSound(d, BatchFrom(f, previous, entries, commit, false, (previous.index, None)), grants, peer);
      case Install(_, snapshot) =>
        InstalledSound(d, f, grants, snapshot);
        AnsweredSound(d, InstalledBy(f, snapshot), grants, peer);
      case Replicated(_, index, rejection) =>
        TidySound(n, grants);
        if n.role == Leader && peer < |n.peers| {
          ReplicatedSound(d, n, grants, peer, index, rejection);
        }
    }
  }

  lemma FollowedSlots<V, S>(n: Node<V, S>, leader: Option<Id>)
    requires Timed(n)
    ensures Followed(n, leader).peers == n.peers && Followed(n, leader).state == n.state
    ensures Followed(n, leader).logFrom == n.logFrom && Followed(n, leader).role == Follower
  {
  }

  lemma ObservedSlots<V, S>(n: Node<V, S>, term: U64)
    requires Timed(n)
    ensures var o := Observed(n, term); o.peers == n.peers && o.membership == n.membership && o.config == n.config
    ensures Falls(n, Observed(n, term))
  {
  }

  lemma PreVoteSound<V(!new), S(!new)>(n: Node<V, S>, grants: Grants, peer: nat, term: U64, last: LogId)
    requires Sized(n) && Tidy(n, grants) && term > 0 && (peer < |n.peers| ==> n.peers[peer].Some?)
    ensures Sound(PreVoteAnswer(n, peer, term, last), grants) && PreVoteAnswer(n, peer, term, last).role == n.role
  {
    hide Tidy, Sound;
    SentSound(n, grants, peer, SendPreVoted(term, true));
    SentSound(n, grants, peer, SendPreVoted(term, false));
  }

  lemma EarnedThrough<V, S>(n: Node<V, S>, o: Node<V, S>, r: Node<V, S>, grants: Grants)
    requires Falls(n, o) && Earned(o, r, grants) && o.membership == n.membership && o.config == n.config
    ensures Earned(n, r, grants)
  {
  }

  lemma ReceivedSound<V(!new), S(!new)>(
    d: Checkpoint<V, S>, n: Node<V, S>, grants: Grants, peer: nat, from: Id, m: Message<V, S>)
    requires Goes(d, n) && Tidy(n, grants) && n.logFrom.None? && ValidMessage(m)
    requires peer < |n.peers| ==> n.peers[peer] == Some(from)
    requires m.Voted? && m.granted ==> (m.term, from) in grants
    ensures Sound(Received(n, peer, from, m), grants) && Earned(n, Received(n, peer, from, m), grants)
  {
    hide Continues, Current, Polled, StaleAnswer, Observed, PreVoteAnswer, Tidy, Sound, Quorum, Falls, ValidBatch;
    if m.PreVote? {
      PreVoteSound(n, grants, peer, m.term, m.last);
    } else {
      TidySound(n, grants);
      ObservedGoes(d, n, m.term);
      ObservedTidy(n, grants, m.term);
      ObservedSlots(n, m.term);
      var o := Observed(n, m.term);
      if m.PreVoted? {
        PolledSound(d, o, grants, peer, m.campaign, m.granted);
      } else if m.term < o.state.hard.term {
        StaleSound(o, grants, peer, m);
      } else {
        CurrentSound(d, o, grants, peer, from, m);
      }
      EarnedThrough(n, o, Settled(o, peer, from, m), grants);
    }
  }

  /** The real vote this operation brings the node, if it reads one. */
  ghost function Brought<V, S>(n: Node<V, S>, op: Operation<V, S>): Grants {
    if && op.OpStep? && Available(n) && Accepts(n, op.envelope)
       && op.envelope.message.Voted? && op.envelope.message.granted
    then {(op.envelope.message.term, op.envelope.from)}
    else {}
  }

  lemma GrantsGrow<V(!new), S(!new)>(n: Node<V, S>, grants: Grants, more: Grants)
    requires Sound(n, grants) && grants <= more
    ensures Sound(n, more)
  {
    hide Seating, Bounded;
  }

  lemma StepSound<V(!new), S(!new)>(d: Checkpoint<V, S>, n: Node<V, S>, grants: Grants, e: Envelope<V, S>)
    requires Goes(d, n) && Sound(n, grants) && n.logFrom.None?
    requires Brought(n, OpStep(e)) <= grants
    ensures Sound(Step(n, e).node, grants) && Earned(n, Step(n, e).node, grants)
  {
    hide Continues, Received, ValidMessage, Tidy, Sound, Quorum;
    if Available(n) && Accepts(n, e) {
      AvailableTidy(n, grants);
      var r := n.(requestFrom := Some(e.from));
      GoesSame(d, n, r);
      RequestTidy(n, r, grants);
      ReceivedSound(d, r, grants, PositionOf(n.peers, e.from), e.from, e.message);
    }
  }

  lemma RequestTidy<V(!new), S(!new)>(n: Node<V, S>, r: Node<V, S>, grants: Grants)
    requires Tidy(n, grants) && r == n.(requestFrom := r.requestFrom)
    ensures Tidy(r, grants)
  {
    hide Seating, VotesReal, Bounded;
    TidyFlags(n, r, grants);
  }

  // ---- tick.

  lemma TimersSound<V(!new), S(!new)>(d: Checkpoint<V, S>, n: Node<V, S>, grants: Grants)
    requires Goes(d, n) && Tidy(n, grants) && n.logFrom.None?
    ensures Sound(TickTimers(n).node, grants) && Earned(n, TickTimers(n).node, grants)
  {
    hide Continues, Campaign, Probe, Barrier, Broadcast, IsVoter, Tidy, Sound, Quorum, Bounded;
    TidySound(n, grants);
    if n.role == Leader {
      if n.elapsed >= n.config.heartbeatTicks {
        var b := n.(elapsed := 0);
        GoesSame(d, n, b);
        ElapsedTidy(n, b, grants);
        BarrierTidy(d, b, grants);
        BarrierTerm(b);
        BroadcastSound(Barrier(b), grants);
      }
    } else if IsVoter(n.membership, n.config.id) && n.elapsed >= n.electionDeadline && n.state.hard.term < MAX_U64 {
      if n.hooks.Some? {
        ProbeSoundly(d, n, grants, n.state.hard.term + 1);
      } else {
        CampaignSound(d, n, grants, n.state.hard.term + 1);
      }
    }
  }

  /** Timers, and what the quorum check forgets, play no part. */
  lemma ElapsedTidy<V(!new), S(!new)>(n: Node<V, S>, m: Node<V, S>, grants: Grants)
    requires Sized(m) && Tidy(n, grants) && |m.active| == |n.active|
    requires m == n.(elapsed := m.elapsed, leaderAge := m.leaderAge, quorumElapsed := m.quorumElapsed,
        active := m.active)
    ensures Tidy(m, grants)
  {
    hide Seating, VotesReal, Bounded;
    TidyFlags(n, m, grants);
  }

  lemma TickSound<V(!new), S(!new)>(d: Checkpoint<V, S>, n: Node<V, S>, grants: Grants)
    requires Goes(d, n) && Sound(n, grants) && n.logFrom.None?
    ensures Sound(Tick(n).node, grants) && Earned(n, Tick(n).node, grants)
  {
    hide Continues, TickTimers, ActiveQuorum, Tidy, Sound, Quorum, Followed;
    if Available(n) {
      AvailableTidy(n, grants);
      var t := Ticked(n);
      if t.hooks.Some? && t.role == Leader {
        var q := t.(quorumElapsed := SaturatingInc(t.quorumElapsed));
        var reset := q.(quorumElapsed := 0, active := Filled<bool>(|q.peers|, false));
        GoesSame(d, n, q);
        GoesSame(d, n, reset);
        ElapsedTidy(n, q, grants);
        ElapsedTidy(n, reset, grants);
        FollowedSound(d, reset, grants, None);
        TidySound(Followed(reset, None), grants);
        TimersSound(d, reset, grants);
        TimersSound(d, q, grants);
      } else {
        GoesSame(d, n, t);
        ElapsedTidy(n, t, grants);
        TimersSound(d, t, grants);
      }
    }
  }

  // ---- Proposals.

  lemma LoadedBounded<V, S>(n: Node<V, S>, es: seq<Entry<V>>, m: Node<V, S>)
    requires Bounded(n) && m.next == n.next && m.matched == n.matched
    requires m.state.entries == n.state.entries + es && m.state.snapshot == n.state.snapshot
    requires es != [] ==> es[|es| - 1].id.index >= Last(n.state).index
    ensures Bounded(m)
  {
    if es != [] {
      assert m.state.entries[|m.state.entries| - 1] == es[|es| - 1];
    } else {
      assert m.state.entries == n.state.entries;
    }
  }

  lemma ProposeSound<V(!new), S(!new)>(d: Checkpoint<V, S>, n: Node<V, S>, grants: Grants, values: seq<V>)
    requires Goes(d, n) && Sound(n, grants) && n.logFrom.None?
    ensures Sound(ProposeMany(n, values).node, grants) && Earned(n, ProposeMany(n, values).node, grants)
  {
    hide Continues, Refreshed, AdvanceCommit, Broadcast, Tidy, Sound, Quorum, Bounded, DistinctPeers, Fits, MatchedSelf,
         Seating;
    if ProposalError(n, |values|).None? {
      AvailableTidy(n, grants);
      TidyBounded(n, grants);
      TidyTable(n, grants);
      var first := LogId(Last(n.state).index + 1, n.state.hard.term);
      var es := Batch(values, first);
      var x := n.(state := n.state.(entries := n.state.entries + es), dirty := true, logFrom := Some(first.index));
      LoadedBounded(n, es, x);
      SameFits(n, x);
      RefreshedTidy(x, grants);
      RefreshedFrame(x);
      var p := Refreshed(x);
      var last := first.index + |values| - 1;
      assert x.state.entries[|x.state.entries| - 1] == es[|es| - 1];
      MatchedTidy(p, grants, last);
      MatchedFrame(p, last);
      AdvanceTidy(MatchedSelf(p, last), grants);
      CommitTerm(MatchedSelf(p, last), 0);
      MatchedState(p, last);
      BroadcastSound(AdvanceCommit(MatchedSelf(p, last)), grants);
    }
  }

  lemma TidyTable<V(!new), S(!new)>(n: Node<V, S>, grants: Grants)
    requires Tidy(n, grants)
    ensures Fits(n) && DistinctPeers(n.peers) && Silent(n)
  {
    hide InForce, Fits, DistinctPeers;
  }

  lemma MatchedState<V, S>(n: Node<V, S>, index: U64)
    requires Sized(n)
    ensures MatchedSelf(n, index).state == n.state && MatchedSelf(n, index).prevoting == n.prevoting
  {
  }

  lemma MatchedTidy<V(!new), S(!new)>(n: Node<V, S>, grants: Grants, index: U64)
    requires Sized(n) && Tidy(n, grants) && Bounded(n) && index <= Last(n.state).index
    ensures Tidy(MatchedSelf(n, index), grants) && Bounded(MatchedSelf(n, index))
  {
    SeatingFlags(n, MatchedSelf(n, index));
    hide Seating;
  }

  // ---- Compaction.

  lemma {:induction false} RecordsOrigin<V, S>(
    entries: seq<Entry<V>>, hooks: Hooks<V, S>, a: (U64, Membership), b: (U64, Membership))
    requires a.1 == b.1
    ensures Records(entries, hooks, a).1 == Records(entries, hooks, b).1
    ensures Records(entries, hooks, a) == Records(entries, hooks, b)
            || (Records(entries, hooks, a) == a && Records(entries, hooks, b) == b)
    decreases |entries|
  {
    if entries != [] {
      RecordsOrigin(entries[..|entries| - 1], hooks, a, b);
    }
  }

  lemma {:induction false} RecordsBelow<V, S>(
    entries: seq<Entry<V>>, hooks: Hooks<V, S>, found: (U64, Membership), index: U64)
    requires found.0 <= index && forall k | 0 <= k < |entries| :: entries[k].id.index <= index
    ensures Records(entries, hooks, found).0 <= index
    decreases |entries|
  {
    if entries != [] {
      RecordsBelow(entries[..|entries| - 1], hooks, found, index);
    }
  }

  /** What Cluster::compact puts into the snapshot: the membership at that very index. */
  ghost predicate Attaches<V, S>(n: Node<V, S>, op: Operation<V, S>) {
    op.OpCompact? && n.hooks.Some? ==> n.hooks.value.snapshot(op.value) == MembershipAt(n, op.index).1
  }

  /** Moving the record in force into the snapshot changes nobody's membership. */
  lemma FoldInForce<V, S>(n: Node<V, S>, snapshot: Snapshot<S>)
    requires WellFormed(n.state) && Base(n.state).index < snapshot.last.index <= n.state.hard.commit
    requires IdAt(n.state, snapshot.last.index) == Some(snapshot.last)
    requires n.hooks.Some? ==> n.hooks.value.snapshot(snapshot.value) == MembershipAt(n, snapshot.last.index).1
    ensures
      var c := n.(state := Installed(n.state, snapshot));
      && InForce(c).1 == InForce(n).1
      && (InForce(n).0 > n.state.hard.commit ==> InForce(c).0 > c.state.hard.commit)
      && Last(c.state).index == Last(n.state).index && c.state.hard.commit == n.state.hard.commit
  {
    var c := n.(state := Installed(n.state, snapshot));
    LastIndex(n.state);
    InstalledWellFormed(n.state, snapshot);
    InstalledSuffix(n.state, snapshot);
    LastIndex(c.state);
    if n.hooks.Some? {
      FoldRecords(n, snapshot);
    }
  }

  lemma FoldRecords<V, S>(n: Node<V, S>, snapshot: Snapshot<S>)
    requires WellFormed(n.state) && Base(n.state).index < snapshot.last.index <= n.state.hard.commit
    requires n.hooks.Some?
    requires n.hooks.value.snapshot(snapshot.value) == MembershipAt(n, snapshot.last.index).1
    requires WellFormed(Installed(n.state, snapshot)) && snapshot.last.index - Base(n.state).index <= |n.state.entries|
    requires Installed(n.state, snapshot).entries == n.state.entries[snapshot.last.index - Base(n.state).index..]
    ensures
      var c := n.(state := Installed(n.state, snapshot));
      InForce(c).1 == InForce(n).1 && (InForce(n).0 > n.state.hard.commit ==> InForce(c).0 == InForce(n).0)
  {
    hide Contiguous, InForce, MembershipAt, Proper;
    var c := n.(state := Installed(n.state, snapshot));
    var cut := snapshot.last.index - Base(n.state).index;
    var a, b := n.state.entries[..cut], n.state.entries[cut..];
    var hooks := n.hooks.value;
    InForceFolds(n);
    InForceFolds(c);
    MembershipFolds(n, snapshot.last.index);
    hide WellFormed;
    RecordsSplit(a, b, hooks, Origin(n));
    assert a + b == n.state.entries;
    RecordsOrigin(b, hooks, Records(a, hooks, Origin(n)), Origin(c));
  }

  /** The membership at a retained index is the fold up to it, and lies no later. */
  lemma MembershipFolds<V, S>(n: Node<V, S>, index: U64)
    requires WellFormed(n.state) && n.hooks.Some?
    requires Base(n.state).index <= index <= Base(n.state).index + |n.state.entries|
    ensures
      MembershipAt(n, index) ==
      Records(n.state.entries[..index - Base(n.state).index], n.hooks.value, Origin(n))
    ensures MembershipAt(n, index).0 <= index
  {
    hide Proper;
    var cut := index - Base(n.state).index;
    LastRecordFolds(n.state.entries, index, n.hooks.value, Origin(n), cut);
    RecordsBelow(n.state.entries[..cut], n.hooks.value, Origin(n), index);
  }

  lemma FoldTidy<V(!new), S(!new)>(n: Node<V, S>, grants: Grants, snapshot: Snapshot<S>)
    requires Sized(n) && Tidy(n, grants)
    requires WellFormed(n.state) && Base(n.state).index < snapshot.last.index <= n.state.hard.commit
    requires IdAt(n.state, snapshot.last.index) == Some(snapshot.last)
    requires n.hooks.Some? ==> n.hooks.value.snapshot(snapshot.value) == MembershipAt(n, snapshot.last.index).1
    ensures Tidy(n.(state := Installed(n.state, snapshot), dirty := true, snapshotChanged := true), grants)
  {
    hide WellFormed, IdAt, IsVoter, Proper, DistinctPeers, MembershipAt;
    FoldInForce(n, snapshot);
    var c := n.(state := Installed(n.state, snapshot), dirty := true, snapshotChanged := true);
    InForceFrame(n.(state := Installed(n.state, snapshot)), c);
    SameFits(n, c);
    InstalledHard(n.state, snapshot);
    hide Installed, InForce, Fits;
  }

  lemma CompactSound<V(!new), S(!new)>(d: Checkpoint<V, S>, n: Node<V, S>, grants: Grants, index: U64, value: S)
    requires Goes(d, n) && Sound(n, grants) && n.logFrom.None? && Attaches(n, OpCompact(index, value))
    ensures Sound(Compact(n, index, value).node, grants) && Earned(n, Compact(n, index, value).node, grants)
  {
    hide Delta, Advances, Barrier, Broadcast, Tidy, Sound, Quorum, MembershipAt;
    if Available(n) && Base(n.state).index < index <= n.state.hard.commit && IdAt(n.state, index).Some? {
      var snapshot := Snapshot(IdAt(n.state, index).value, value);
      HeldIsWithin(n.state, index);
      AvailableTidy(n, grants);
      FoldTidy(n, grants, snapshot);
      FoldGoes(d, n, snapshot);
      hide Continues, Installed, IdAt, WellFormed;
      var c := n.(state := Installed(n.state, snapshot), dirty := true, snapshotChanged := true);
      TidySound(c, grants);
      if c.role == Leader {
        BarrierTidy(d, c, grants);
        BarrierTerm(c);
        BroadcastSound(Barrier(c), grants);
      }
    }
  }

  /** Whatever a host asks of a clean, sound node leaves it sound; leadership is earned. */
  lemma OperateSound<V(!new), S(!new)>(n: Node<V, S>, grants: Grants, op: Operation<V, S>)
    requires Steady(n) && WellFormed(n.state) && Clean(n) && Sound(n, grants) && Attaches(n, op)
    ensures Sound(Operate(n, op).node, grants + Brought(n, op))
    ensures Earned(n, Operate(n, op).node, grants + Brought(n, op))
  {
    hide Goes, Tick, Step, ProposeMany, Compact, Sound, Earned, Brought, Attaches, Accepts, WellFormed;
    CleanGoes(n);
    var more := grants + Brought(n, op);
    GrantsGrow(n, grants, more);
    match op
    case OpTick => TickSound(n.state, n, more);
    case OpStep(e) => StepSound(n.state, n, more, e);
    case OpPropose(values) => ProposeSound(n.state, n, more, values);
    case OpCompact(index, value) => CompactSound(n.state, n, more, index, value);
  }
}
