/**
 * How long ago a leader was heard of: every tick counts, a current request of a leader
 * starts over, and nothing else touches it.
 */
module Clocks {
  import opened Types
  import opened Memberships
  import opened Checkpoints
  import opened NodeModel
  import opened LocalHistory
  import opened NodeHistory
  import opened DynamicNodes
  import opened DynamicElections
  import opened Queues

  lemma RefreshedAge<V, S>(n: Node<V, S>)
    requires Sized(n) && Timed(n)
    ensures Refreshed(n).leaderAge == n.leaderAge
  {
    hide MembershipAt, SeatAll, IsVoter;
    SeatAllFrame(n.(membership := MembershipAt(n, Last(n.state).index).1), 0);
  }

  lemma CommitAge<V, S>(n: Node<V, S>, index: U64)
    requires Sized(n) && Timed(n)
    ensures CommitTo(n, index).leaderAge == n.leaderAge
  {
    hide Refreshed;
    if index > n.state.hard.commit {
      RefreshedAge(n.(state := n.state.(hard := n.state.hard.(commit := index)), dirty := true));
    }
  }

  lemma AdvanceAge<V, S>(n: Node<V, S>)
    requires Sized(n) && Timed(n)
    ensures AdvanceCommit(n).leaderAge == n.leaderAge
  {
    hide CommitTo, QuorumMatched, MayCommit;
    CommitAge(n, QuorumMatched(n));
  }

  lemma BarrierAge<V, S>(n: Node<V, S>)
    requires Sized(n) && Timed(n)
    ensures Barrier(n).leaderAge == n.leaderAge
  {
    hide AdvanceCommit, Pushed;
    var id := LogId(if Last(n.state).index < MAX_U64 then Last(n.state).index + 1 else 0, n.state.hard.term);
    AdvanceAge(MatchedSelf(
      n.(state := Pushed(n.state, Entry(id, None)), dirty := true, logFrom := Some(id.index)), id.index));
  }

  lemma CampaignAge<V, S>(n: Node<V, S>, term: U64)
    requires Sized(n) && Timed(n)
    ensures Campaign(n, term).leaderAge == n.leaderAge
  {
    hide Barrier, BecomeLeader, ElectionQuorum;
    LeaderAge(Standing(n, term));
  }

  lemma LeaderAge<V, S>(n: Node<V, S>)
    requires Sized(n) && Timed(n)
    ensures BecomeLeader(n).leaderAge == n.leaderAge
  {
    hide Barrier;
    EnthronedFrame(n);
    BarrierAge(Enthroned(n));
  }

  lemma ProbeAge<V, S>(n: Node<V, S>, term: U64)
    requires Sized(n) && Timed(n)
    ensures Probe(n, term).leaderAge == n.leaderAge
  {
    hide Campaign, ElectionQuorum;
    CampaignAge(ResetElection(SelfVote(n.(role := Follower, prevoting := Some(term)))), term);
  }

  lemma TimersAge<V, S>(n: Node<V, S>)
    requires Sized(n) && Timed(n)
    ensures TickTimers(n).node.leaderAge == n.leaderAge
  {
    hide Barrier, Campaign, Probe, IsVoter;
    BarrierAge(n.(elapsed := 0));
    if n.state.hard.term < MAX_U64 {
      CampaignAge(n, n.state.hard.term + 1);
      ProbeAge(n, n.state.hard.term + 1);
    }
  }

  lemma TickAge<V, S>(n: Node<V, S>)
    requires Sized(n) && Timed(n)
    ensures Tick(n).node.leaderAge == if AtRest(n) then SaturatingInc(n.leaderAge) else n.leaderAge
  {
    hide TickTimers, ActiveQuorum, Silent;
    RestIsAvailable(n);
    var t := Ticked(n);
    var q := t.(quorumElapsed := SaturatingInc(t.quorumElapsed));
    TimersAge(t);
    TimersAge(q);
    TimersAge(q.(quorumElapsed := 0, active := Filled<bool>(|q.peers|, false)));
  }

  // ---- Requests of a leader.

  lemma AppendedAge<V, S>(n: Node<V, S>, previous: LogId, entry: Option<Entry<V>>, commit: U64)
    requires Sized(n) && Timed(n)
    ensures Appended(n, previous, entry, commit).node.leaderAge == n.leaderAge
  {
    hide Refreshed, CommitTo, Truncated, Pushed, IdAt, Retry;
    CommitAge(n, Min(commit, previous.index));
    if entry.Some? {
      var e := entry.value;
      CommitAge(n, Min(commit, e.id.index));
      if |Truncated(n.state, e.id.index).entries| < n.cap {
        var p := n.(state := Pushed(Truncated(n.state, e.id.index), e));
        RefreshedAge(p);
        var f := Refreshed(p);
        var from := if f.logFrom.None? then e.id.index else Min(f.logFrom.value, e.id.index);
        CommitAge(f.(dirty := true, logFrom := Some(from)), Min(commit, e.id.index));
      }
    }
  }

  lemma {:induction false} BatchAge<V, S>(
    n: Node<V, S>, previous: LogId, entries: seq<Option<Entry<V>>>, commit: U64,
    accepted: bool, answer: (U64, Option<Rejection>))
    requires Sized(n) && Timed(n)
    ensures BatchFrom(n, previous, entries, commit, accepted, answer).node.leaderAge == n.leaderAge
    decreases |entries|
  {
    hide Appended;
    if entries == [] {
    } else if entries[0].None? {
      BatchAge(n, previous, entries[1..], commit, accepted, answer);
    } else {
      AppendedAge(n, previous, entries[0], commit);
      var r := Appended(n, previous, entries[0], commit);
      if r.rejection.None? {
        BatchAge(r.node, entries[0].value.id, entries[1..], commit, true, (r.index, None));
      }
    }
  }

  lemma InstalledAge<V, S>(n: Node<V, S>, snapshot: Snapshot<S>)
    requires Sized(n) && Timed(n)
    ensures InstalledBy(n, snapshot).node.leaderAge == n.leaderAge
  {
    hide Refreshed, Installed, IdAt;
    var at := IdAt(n.state, snapshot.last.index);
    var logFrom := if at != Some(snapshot.last) then CheckedInc(snapshot.last.index) else n.logFrom;
    RefreshedAge(n.(logFrom := logFrom, state := Installed(n.state, snapshot)));
  }

  // ---- Everything else.

  lemma ReplicatedAge<V, S>(n: Node<V, S>, peer: nat, index: U64, rejection: Option<Rejection>)
    requires Sized(n) && Timed(n) && peer < |n.peers|
    ensures ReplicatedBy(n, peer, index, rejection).leaderAge == n.leaderAge
  {
    hide AdvanceCommit, MayCommit;
    var a := n.(active := n.active[peer := true]);
    var next := a.next[peer := Max(a.next[peer], SaturatingInc(index))];
    AdvanceAge(a.(matched := a.matched[peer := index], next := next));
  }

  lemma CountedAge<V, S>(n: Node<V, S>, peer: nat, campaign: U64, granted: bool)
    requires Sized(n) && Timed(n)
    ensures Polled(n, peer, campaign, granted).leaderAge == n.leaderAge
    ensures VoteCounted(n, peer, granted).leaderAge == n.leaderAge
  {
    hide Campaign, BecomeLeader, ElectionQuorum;
    if peer < |n.peers| {
      var v := n.(votes := n.votes[peer := true]);
      CampaignAge(v, campaign);
      LeaderAge(v);
    }
  }

  /** A request that only a leader makes. */
  ghost predicate FromLeader<V, S>(m: Message<V, S>) { m.Append? || m.AppendBatch? || m.Install? }

  lemma SettledAge<V, S>(o: Node<V, S>, peer: nat, from: Id, m: Message<V, S>)
    requires Sized(o) && Timed(o)
    ensures
      Settled(o, peer, from, m).leaderAge == if FromLeader(m) && m.term >= o.state.hard.term then 0 else o.leaderAge
  {
    hide Appended, BatchFrom, InstalledBy, ReplicatedBy, Polled, VoteCounted;
    match m
    case PreVoted(_, campaign, granted) => CountedAge(o, peer, campaign, granted);
    case Voted(_, granted) => CountedAge(o, peer, 0, granted);
    case Append(_, previous, entry, commit) => AppendedAge(Followed(o, Some(from)), previous, entry, commit);
    case AppendBatch(_, previous, entries, commit) =>
      BatchAge(Followed(o, Some(from)), previous, entries, commit, false, (previous.index, None));
    case Install(_, snapshot) => InstalledAge(Followed(o, Some(from)), snapshot);
    case Replicated(_, index, rejection) =>
      if peer < |o.peers| {
        ReplicatedAge(o, peer, index, rejection);
      }
    case _ =>
  }

  lemma StepAge<V, S>(n: Node<V, S>, e: Envelope<V, S>)
    requires Sized(n) && Timed(n)
    ensures
      var r := Step(n, e);
      r.node.leaderAge ==
      if r.error.None? && FromLeader(e.message) && e.message.term >= n.state.hard.term then 0 else n.leaderAge
  {
    hide Settled, ValidMessage, Available;
    var m := n.(requestFrom := Some(e.from));
    SettledAge(Observed(m, e.message.term), PositionOf(n.peers, e.from), e.from, e.message);
  }

  /** How long ago a leader was heard of, after any operation. */
  ghost function AgeAfter<V, S>(n: Node<V, S>, op: Operation<V, S>, error: Option<Error>): U64 {
    match op
    case OpTick => if AtRest(n) then SaturatingInc(n.leaderAge) else n.leaderAge
    case OpStep(e) =>
      if error.None? && FromLeader(e.message) && e.message.term >= n.state.hard.term then 0 else n.leaderAge
    case _ => n.leaderAge
  }

  lemma OperateAges<V, S>(n: Node<V, S>, op: Operation<V, S>)
    requires Sized(n) && Timed(n)
    ensures Operate(n, op).node.leaderAge == AgeAfter(n, op, Operate(n, op).error)
  {
    hide Tick, Step, ProposeMany, Compact;
    match op
    case OpTick => TickAge(n);
    case OpStep(e) => StepAge(n, e);
    case OpPropose(values) => ProposedAge(n, values);
    case OpCompact(index, value) => CompactedAge(n, index, value);
  }

  lemma ProposedAge<V, S>(n: Node<V, S>, values: seq<V>)
    requires Sized(n) && Timed(n)
    ensures ProposeMany(n, values).node.leaderAge == n.leaderAge
  {
    hide Refreshed, AdvanceCommit, Available, Batch;
    if ProposalError(n, |values|).None? {
      var first := LogId(Last(n.state).index + 1, n.state.hard.term);
      var x := n.(state := n.state.(entries := n.state.entries + Batch(values, first)),
                  dirty := true, logFrom := Some(first.index));
      RefreshedAge(x);
      AdvanceAge(MatchedSelf(Refreshed(x), first.index + |values| - 1));
    }
  }

  lemma CompactedAge<V, S>(n: Node<V, S>, index: U64, value: S)
    requires Sized(n) && Timed(n)
    ensures Compact(n, index, value).node.leaderAge == n.leaderAge
  {
    hide Barrier, Available, Installed, IdAt;
    if IdAt(n.state, index).Some? {
      BarrierAge(n.(state := Installed(n.state, Snapshot(IdAt(n.state, index).value, value)),
                    dirty := true, snapshotChanged := true));
    }
  }
}
