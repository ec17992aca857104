/**
 * Every operation of a node, on any input, continues its durable history: the new
 * checkpoint is well formed, only moves forward, and is exactly what applying the
 * emitted transaction to the old one gives. Both engines; in particular a pending
 * election probe is always for the next term.
 */
module NodeHistory {
  import opened Types
  import opened Checkpoints
  import opened Memberships
  import opened NodeModel
  import opened LocalHistory

  /** A probe asks about the next term only, as a follower that has a slot of its own. */
  ghost predicate ProbeSound<V, S>(n: Node<V, S>) {
    n.prevoting.Some? ==>
      n.prevoting.value == n.state.hard.term + 1 && n.role == Follower && n.local < |n.peers|
  }

  ghost predicate Steady<V, S>(n: Node<V, S>) {
    && Sized(n) && Timed(n) && |n.state.entries| <= n.cap
    && (n.role != Follower ==> n.state.hard.term > 0)
    && ProbeSound(n)
  }

  /** n's checkpoint continues d, and its pending transaction says how. */
  ghost predicate Goes<V, S>(d: Checkpoint<V, S>, n: Node<V, S>) {
    && Steady(n)
    && Continues(d, n.state, n.logFrom, n.snapshotChanged)
    && (n.logFrom.Some? ==> Base(n.state).index < n.logFrom.value)
    && (!n.dirty ==> n.state == d && n.logFrom.None? && !n.snapshotChanged)
  }

  /** Nothing durable differs, and the role claims no more. */
  ghost predicate SameDurable<V, S>(n: Node<V, S>, m: Node<V, S>) {
    && m.state == n.state && m.dirty == n.dirty && m.logFrom == n.logFrom && m.snapshotChanged == n.snapshotChanged
  }

  lemma GoesSame<V, S>(d: Checkpoint<V, S>, n: Node<V, S>, m: Node<V, S>)
    requires Goes(d, n) && SameDurable(n, m) && Sized(m) && Same(n, m)
    requires m.role == n.role || m.role == Follower || n.state.hard.term > 0
    requires m.prevoting.None? || (m.prevoting == n.prevoting && m.role == Follower && m.local < |m.peers|)
    ensures Goes(d, m)
  {
    hide Continues;
  }

  // ---- Membership refreshes change nothing durable.

  ghost predicate SeatFrame<V, S>(n: Node<V, S>, m: Node<V, S>) {
    m == n.(peers := m.peers, votes := m.votes, active := m.active, next := m.next, matched := m.matched,
            outbox := m.outbox)
  }

  lemma {:induction false} SeatAllFrame<V, S>(n: Node<V, S>, from: nat)
    requires Sized(n)
    ensures SeatFrame(n, SeatAll(n, from))
    decreases |n.membership.slots| - from
  {
    if from < |n.membership.slots| {
      if n.membership.slots[from].None? {
        SeatAllFrame(n, from + 1);
      } else {
        SeatAllFrame(Seated(n, n.membership.slots[from].value.id), from + 1);
      }
    }
  }

  lemma RefreshedFrame<V, S>(n: Node<V, S>)
    requires Sized(n) && Timed(n)
    ensures SameDurable(n, Refreshed(n))
    ensures Refreshed(n).role == n.role || Refreshed(n).role == Follower
    ensures n.prevoting.None? ==> Refreshed(n).prevoting.None?
  {
    SeatAllFrame(n.(membership := MembershipAt(n, Last(n.state).index).1), 0);
  }

  // ---- Commitment and barriers.

  lemma CommitGoes<V, S>(d: Checkpoint<V, S>, n: Node<V, S>, index: U64)
    requires Goes(d, n) && index <= Last(n.state).index && n.prevoting.None?
    ensures Goes(d, CommitTo(n, index)) && CommitTo(n, index).prevoting.None?
    ensures CommitTo(n, index).state.hard.term == n.state.hard.term
    ensures CommitTo(n, index).logFrom == n.logFrom
  {
    hide Refreshed, Contiguous, Delta, Advances;
    if index > n.state.hard.commit {
      var c := n.(state := n.state.(hard := n.state.hard.(commit := index)), dirty := true);
      HardContinues(d, n.state, n.logFrom, n.snapshotChanged, c.state.hard);
      RefreshedFrame(c);
      GoesSame(d, c, Refreshed(c));
    }
  }

  lemma HeldIsWithin<V, S>(s: Checkpoint<V, S>, k: U64)
    requires WellFormed(s) && IdAt(s, k).Some?
    ensures Base(s).index <= k <= Last(s).index && IdAt(s, k).value.index == k
  {
    GetContiguous(s, k);
  }

  lemma AdvanceGoes<V, S>(d: Checkpoint<V, S>, n: Node<V, S>)
    requires Goes(d, n) && n.prevoting.None?
    ensures Goes(d, AdvanceCommit(n)) && AdvanceCommit(n).prevoting.None?
    ensures AdvanceCommit(n).state.hard.term == n.state.hard.term
  {
    hide CommitTo, Delta, Advances;
    if MayCommit(n) {
      HeldIsWithin(n.state, QuorumMatched(n));
      CommitGoes(d, n, QuorumMatched(n));
    }
  }

  /** A leader's entry at the end of its log. */
  lemma PushGoes<V, S>(d: Checkpoint<V, S>, n: Node<V, S>, e: Entry<V>, from1: U64)
    requires Goes(d, n) && n.prevoting.None? && |n.state.entries| < n.cap
    requires e.id.index == Last(n.state).index + 1 && e.id.term == n.state.hard.term > 0
    requires Base(n.state).index < from1 <= e.id.index && Earlier(n.logFrom, Some(from1))
    ensures Goes(d, n.(state := Pushed(n.state, e), dirty := true, logFrom := Some(from1)))
  {
    hide Delta, Advances;
    PushIsReplace(n.state, e);
    LastTerm(n.state);
    assert Last(n.state).index == e.id.index - 1;
    HeldIsWithin(n.state, Last(n.state).index);
    hide WellFormed;
    ReplaceContinues(d, n.state, n.logFrom, n.snapshotChanged, e, Some(from1));
  }

  lemma LastTerm<V, S>(s: Checkpoint<V, S>)
    requires WellFormed(s)
    ensures Last(s).term <= s.hard.term && Base(s).index <= s.hard.commit <= Last(s).index
  {
  }

  lemma GoesLast<V, S>(d: Checkpoint<V, S>, n: Node<V, S>)
    requires Goes(d, n)
    ensures Base(n.state).index <= Last(n.state).index
  {
    LastTerm(n.state);
  }

  lemma BarrierGoes<V, S>(d: Checkpoint<V, S>, n: Node<V, S>)
    requires Goes(d, n) && n.prevoting.None? && n.logFrom.None? && n.state.hard.term > 0
    ensures Goes(d, Barrier(n)) && Barrier(n).prevoting.None?
  {
    hide Continues, AdvanceCommit;
    var last := Last(n.state);
    if last.term != n.state.hard.term && |n.state.entries| < n.cap && last.index < MAX_U64 {
      var e: Entry<V> := Entry(LogId(last.index + 1, n.state.hard.term), None);
      GoesLast(d, n);
      PushGoes(d, n, e, e.id.index);
      var p := n.(state := Pushed(n.state, e), dirty := true, logFrom := Some(e.id.index));
      GoesSame(d, p, MatchedSelf(p, e.id.index));
      AdvanceGoes(d, MatchedSelf(p, e.id.index));
    }
  }

  lemma BroadcastGoes<V, S>(d: Checkpoint<V, S>, n: Node<V, S>)
    requires Goes(d, n)
    ensures Goes(d, Broadcast(n))
  {
    hide Continues;
    GoesSame(d, n, Broadcast(n));
  }

  lemma SentGoes<V, S>(d: Checkpoint<V, S>, n: Node<V, S>, peer: nat, out: Outbound)
    requires Goes(d, n)
    ensures Goes(d, Sent(n, peer, out))
  {
    hide Continues;
    GoesSame(d, n, Sent(n, peer, out));
  }

  // ---- Elections.

  lemma BecomeLeaderGoes<V, S>(d: Checkpoint<V, S>, n: Node<V, S>)
    requires Goes(d, n) && n.prevoting.None? && n.logFrom.None? && n.state.hard.term > 0
    ensures Goes(d, BecomeLeader(n))
  {
    hide Continues, Barrier, Broadcast;
    var last := Last(n.state).index;
    var e := n.(quorumElapsed := 0,
                active := Filled<bool>(|n.peers|, false),
                role := Leader,
                leader := Some(n.config.id),
                elapsed := 0,
                next := Filled<U64>(|n.peers|, SaturatingInc(last)),
                matched := Filled<U64>(|n.peers|, 0));
    GoesSame(d, n, MatchedSelf(e, last));
    BarrierGoes(d, MatchedSelf(e, last));
    BroadcastGoes(d, Barrier(MatchedSelf(e, last)));
  }

  lemma CampaignGoes<V, S>(d: Checkpoint<V, S>, n: Node<V, S>, term: U64)
    requires Goes(d, n) && n.logFrom.None? && n.state.hard.term < term
    ensures Goes(d, Campaign(n, term))
  {
    hide WellFormed, Delta, Advances, BecomeLeader;
    var hard := n.state.hard.(term := term, votedFor := Some(n.config.id));
    LastTerm(n.state);
    HardContinues(d, n.state, n.logFrom, n.snapshotChanged, hard);
    hide Continues;
    var c := ResetElection(SelfVote(
      n.(prevoting := None, state := n.state.(hard := hard), dirty := true, role := Candidate, leader := None)));
    if ElectionQuorum(c) {
      BecomeLeaderGoes(d, c);
    } else {
      GoesSame(d, c, SentToAll(c, VotersOf(c.membership), SendVote));
    }
  }

  lemma ProbeGoes<V, S>(d: Checkpoint<V, S>, n: Node<V, S>, term: U64)
    requires Goes(d, n) && n.logFrom.None? && n.state.hard.term + 1 == term && n.local < |n.peers|
    ensures Goes(d, Probe(n, term))
  {
    hide Continues, Campaign;
    var p := ResetElection(SelfVote(n.(role := Follower, prevoting := Some(term))));
    assert Goes(d, p);
    if ElectionQuorum(p) {
      CampaignGoes(d, p, term);
    } else {
      GoesSame(d, p, SentToAll(p, VotersOf(p.membership), SendPreVote(term)));
    }
  }

  // ---- Replication, follower side.

  lemma AppendedGoes<V, S>(
    d: Checkpoint<V, S>, n: Node<V, S>, previous: LogId, entry: Option<Entry<V>>, commit: U64)
    requires Goes(d, n) && n.prevoting.None?
    requires entry.Some? ==> ValidNext(previous, entry.value.id, n.state.hard.term)
    ensures Goes(d, Appended(n, previous, entry, commit).node)
    ensures Appended(n, previous, entry, commit).node.prevoting.None?
    ensures Appended(n, previous, entry, commit).node.state.hard.term == n.state.hard.term
  {
    hide Delta, Advances, Contiguous, CommitTo, Refreshed, Truncated;
    if IdAt(n.state, previous.index) == Some(previous) {
      HeldIsWithin(n.state, previous.index);
      if entry.None? {
        CommitGoes(d, n, Min(commit, previous.index));
      } else {
        var e := entry.value;
        if IdAt(n.state, e.id.index) == Some(e.id) {
          HeldIsWithin(n.state, e.id.index);
          CommitGoes(d, n, Min(commit, e.id.index));
        } else if |n.state.entries| >= n.cap && e.id.index > Last(n.state).index {
          CommitGoes(d, n, Min(commit, previous.index));
        } else if e.id.index > n.state.hard.commit {
          ReplacedGoes(d, n, e, commit);
        }
      }
    }
  }

  /** The node right after an entry replaced everything from its index on. */
  function Replaced<V, S>(n: Node<V, S>, e: Entry<V>): (r: Node<V, S>)
    requires Sized(n) && Timed(n)
    ensures Sized(r) && Same(n, r)
  {
    var p := Refreshed(n.(state := Pushed(Truncated(n.state, e.id.index), e)));
    p.(dirty := true, logFrom := Some(if p.logFrom.None? then e.id.index else Min(p.logFrom.value, e.id.index)))
  }

  lemma ReplacedGoes<V, S>(d: Checkpoint<V, S>, n: Node<V, S>, e: Entry<V>, commit: U64)
    requires Goes(d, n) && n.prevoting.None?
    requires n.state.hard.commit < e.id.index <= Last(n.state).index + 1
    requires IdAt(n.state, e.id.index - 1).Some? && IdAt(n.state, e.id.index - 1).value.term <= e.id.term
    requires 0 < e.id.term <= n.state.hard.term
    requires |n.state.entries| < n.cap || e.id.index <= Last(n.state).index
    ensures |Truncated(n.state, e.id.index).entries| < n.cap
    ensures Goes(d, CommitTo(Replaced(n, e), Min(commit, e.id.index)))
    ensures CommitTo(Replaced(n, e), Min(commit, e.id.index)).prevoting.None?
    ensures CommitTo(Replaced(n, e), Min(commit, e.id.index)).state.hard.term == n.state.hard.term
  {
    hide Delta, Advances, CommitTo, Refreshed, Truncated;
    var from1 := Some(if n.logFrom.None? then e.id.index else Min(n.logFrom.value, e.id.index));
    LastIndex(n.state);
    ReplaceContinues(d, n.state, n.logFrom, n.snapshotChanged, e, from1);
    ReplaceWellFormed(n.state, e);
    hide WellFormed, Contiguous;
    var x := n.(state := Pushed(Truncated(n.state, e.id.index), e), dirty := true, logFrom := from1);
    assert Goes(d, x);
    RefreshedFrame(n.(state := x.state));
    GoesSame(d, x, Replaced(n, e));
    assert Last(x.state) == e.id;
    CommitGoes(d, Replaced(n, e), Min(commit, e.id.index));
  }

  lemma {:induction false} BatchGoes<V, S>(
    d: Checkpoint<V, S>, n: Node<V, S>, previous: LogId, entries: seq<Option<Entry<V>>>, commit: U64,
    accepted: bool, answer: (U64, Option<Rejection>))
    requires Goes(d, n) && n.prevoting.None?
    requires ValidBatch(previous, entries, n.state.hard.term)
    ensures Goes(d, BatchFrom(n, previous, entries, commit, accepted, answer).node)
    decreases |entries|
  {
    hide Continues, Appended;
    if entries != [] {
      if entries[0].None? {
        NoneLeft(n, previous, entries, commit, accepted, answer);
      } else {
        AppendedGoes(d, n, previous, entries[0], commit);
        var r := Appended(n, previous, entries[0], commit);
        if r.rejection.None? {
          BatchGoes(d, r.node, entries[0].value.id, entries[1..], commit, true, (r.index, None));
        }
      }
    }
  }

  lemma {:induction false} NoneLeft<V, S>(
    n: Node<V, S>, previous: LogId, entries: seq<Option<Entry<V>>>, commit: U64,
    accepted: bool, answer: (U64, Option<Rejection>))
    requires Sized(n) && Timed(n) && forall k | 0 <= k < |entries| :: entries[k].None?
    ensures BatchFrom(n, previous, entries, commit, accepted, answer).node == n
    decreases |entries|
  {
    if entries != [] {
      NoneLeft(n, previous, entries[1..], commit, accepted, answer);
    }
  }

  lemma InstalledByGoes<V, S>(d: Checkpoint<V, S>, n: Node<V, S>, snapshot: Snapshot<S>)
    requires Goes(d, n) && n.prevoting.None? && n.logFrom.None?
    requires 0 < snapshot.last.term <= n.state.hard.term
    ensures Goes(d, InstalledBy(n, snapshot).node)
  {
    hide WellFormed, Delta, Advances, Refreshed, IdAt;
    if snapshot.last.index > Base(n.state).index
       && (snapshot.last.index > n.state.hard.commit || IdAt(n.state, snapshot.last.index) == Some(snapshot.last)) {
      InstallContinues(d, n.state, n.logFrom, n.snapshotChanged, snapshot);
      var from1 :=
        if IdAt(n.state, snapshot.last.index) != Some(snapshot.last) then CheckedInc(snapshot.last.index)
            else n.logFrom;
      var i := n.(logFrom := from1, state := Installed(n.state, snapshot), snapshotChanged := true, dirty := true);
      assert Goes(d, i);
      RefreshedFrame(n.(logFrom := from1, state := Installed(n.state, snapshot)));
      hide Continues, Installed;
      GoesSame(d, i, InstalledBy(n, snapshot).node);
    }
  }

  // ---- Replication, leader side.

  lemma ReplicatedGoes<V, S>(d: Checkpoint<V, S>, n: Node<V, S>, peer: nat, index: U64, rejection: Option<Rejection>)
    requires Goes(d, n) && n.role == Leader && peer < |n.peers|
    ensures Goes(d, ReplicatedBy(n, peer, index, rejection))
  {
    hide Continues, AdvanceCommit, Broadcast, MayCommit;
    var a := n.(active := n.active[peer := true]);
    GoesSame(d, n, a);
    if index <= Last(a.state).index && rejection.None? && index > a.matched[peer] {
      var m := a.(matched := a.matched[peer := index],
                  next := a.next[peer := Max(a.next[peer], SaturatingInc(index))]);
      GoesSame(d, n, m);
      AdvanceGoes(d, m);
      BroadcastGoes(d, AdvanceCommit(m));
      SentGoes(d, m, peer, SendReplicate);
    } else {
      GoesSame(d, n, ReplicatedBy(n, peer, index, rejection));
    }
  }

  // ---- step.

  lemma FollowedGoes<V, S>(d: Checkpoint<V, S>, n: Node<V, S>, leader: Option<Id>)
    requires Goes(d, n)
    ensures Goes(d, Followed(n, leader)) && Followed(n, leader).prevoting.None?
    ensures SameDurable(n, Followed(n, leader))
  {
    hide Continues;
    GoesSame(d, n, Followed(n, leader));
  }

  lemma ObservedGoes<V, S>(d: Checkpoint<V, S>, n: Node<V, S>, term: U64)
    requires Goes(d, n)
    ensures Goes(d, Observed(n, term)) && Observed(n, term).logFrom == n.logFrom
    ensures Observed(n, term).state.hard.term == Max(n.state.hard.term, term)
  {
    hide Delta, Advances, Contiguous;
    if term > n.state.hard.term {
      var hard := n.state.hard.(term := term, votedFor := None);
      HardContinues(d, n.state, n.logFrom, n.snapshotChanged, hard);
      hide Continues;
      GoesSame(d, n.(role := Follower, prevoting := None, state := n.state.(hard := hard), dirty := true),
               Observed(n, term));
    }
  }

  lemma VotedGoes<V, S>(d: Checkpoint<V, S>, n: Node<V, S>, from: Id)
    requires Goes(d, n) && n.state.hard.term > 0 && n.state.hard.votedFor.None?
    ensures Goes(d, n.(state := n.state.(hard := n.state.hard.(votedFor := Some(from))), dirty := true))
  {
    hide Delta, Advances, Contiguous;
    HardContinues(d, n.state, n.logFrom, n.snapshotChanged, n.state.hard.(votedFor := Some(from)));
  }

  lemma GrantedGoes<V, S>(d: Checkpoint<V, S>, n: Node<V, S>, peer: nat, granted: bool)
    requires Goes(d, n)
    ensures Goes(d, Sent(if granted then ResetElection(n) else n, peer, SendVoted(granted)))
  {
    hide Continues, Sent;
    var r := if granted then ResetElection(n) else n;
    GoesSame(d, n, r);
    SentGoes(d, r, peer, SendVoted(granted));
  }

  lemma VoteAnswerGoes<V, S>(d: Checkpoint<V, S>, n: Node<V, S>, peer: nat, from: Id, last: LogId)
    requires Goes(d, n) && n.state.hard.term > 0
    ensures Goes(d, VoteAnswer(n, peer, from, last))
  {
    hide Continues, Sent, ResetElection;
    var granted :=
      && (n.state.hard.votedFor.None? || n.state.hard.votedFor == Some(from))
      && AtLeastAsUpToDate(last, Last(n.state));
    if granted && n.state.hard.votedFor != Some(from) {
      VotedGoes(d, n, from);
      GrantedGoes(d, n.(state := n.state.(hard := n.state.hard.(votedFor := Some(from))), dirty := true), peer, true);
    } else {
      GrantedGoes(d, n, peer, granted);
    }
  }

  lemma VoteCountedGoes<V, S>(d: Checkpoint<V, S>, n: Node<V, S>, peer: nat, granted: bool)
    requires Goes(d, n) && n.logFrom.None?
    ensures Goes(d, VoteCounted(n, peer, granted))
  {
    hide Continues, BecomeLeader, ElectionQuorum;
    if n.role == Candidate && granted && peer < |n.peers| {
      var v := n.(votes := n.votes[peer := true]);
      GoesSame(d, n, v);
      BecomeLeaderGoes(d, v);
    }
  }

  /** A granted probe leads to a campaign in exactly the term it asked about. */
  lemma PolledGoes<V, S>(d: Checkpoint<V, S>, n: Node<V, S>, peer: nat, campaign: U64, granted: bool)
    requires Goes(d, n) && n.logFrom.None?
    ensures Goes(d, Polled(n, peer, campaign, granted))
  {
    hide Continues, Campaign, ElectionQuorum;
    if n.prevoting == Some(campaign) && granted && peer < |n.peers| {
      var v := n.(votes := n.votes[peer := true]);
      GoesSame(d, n, v);
      CampaignGoes(d, v, campaign);
    }
  }

  lemma StaleGoes<V, S>(d: Checkpoint<V, S>, n: Node<V, S>, peer: nat, m: Message<V, S>)
    requires Goes(d, n)
    ensures Goes(d, StaleAnswer(n, peer, m))
  {
    hide Continues, Sent;
    match m
    case Vote(_, _) => SentGoes(d, n, peer, SendVoted(false));
    case Append(_, previous, _, _) => SentGoes(d, n, peer, SendReplicated(previous.index, Some(Conflict(1))));
    case AppendBatch(_, previous, _, _) => SentGoes(d, n, peer, SendReplicated(previous.index, Some(Conflict(1))));
    case Install(_, snapshot) => SentGoes(d, n, peer, SendReplicated(snapshot.last.index, Some(Conflict(1))));
    case _ =>
  }

  lemma AnsweredGoes<V, S>(d: Checkpoint<V, S>, r: Reply<V, S>, peer: nat)
    requires Goes(d, r.node)
    ensures Goes(d, Answered(r, peer))
  {
    SentGoes(d, r.node, peer, SendReplicated(r.index, r.rejection));
  }

  lemma CurrentGoes<V, S>(d: Checkpoint<V, S>, n: Node<V, S>, peer: nat, from: Id, m: Message<V, S>)
    requires Goes(d, n) && n.logFrom.None? && ValidMessage(m) && m.term == n.state.hard.term
    requires !m.PreVoted?
    ensures Goes(d, Current(n, peer, from, m))
  {
    hide Continues, VoteAnswer, VoteCounted, Appended, BatchFrom, InstalledBy, ReplicatedBy, Answered, Followed,
         ValidBatch;
    FollowedGoes(d, n, Some(from));
    var f := Followed(n, Some(from));
    match m {
      case Vote(_, last) => VoteAnswerGoes(d, n, peer, from, last);
      case Voted(_, granted) => VoteCountedGoes(d, n, peer, granted);
      case Append(_, previous, entry, commit) =>
        AppendedGoes(d, f, previous, entry, commit);
        AnsweredGoes(d, Appended(f, previous, entry, commit), peer);
      case AppendBatch(_, previous, entries, commit) =>
        BatchGoes(d, f, previous, entries, commit, false, (previous.index, None));
        AnsweredGoes(d, BatchFrom(f, previous, entries, commit, false, (previous.index, None)), peer);
      case Install(_, snapshot) =>
        InstalledByGoes(d, f, snapshot);
        AnsweredGoes(d, InstalledBy(f, snapshot), peer);
      case Replicated(_, index, rejection) =>
        if n.role == Leader && peer < |n.peers| {
          ReplicatedGoes(d, n, peer, index, rejection);
        }
      case _ =>
    }
  }

  lemma PreVoteGoes<V, S>(d: Checkpoint<V, S>, n: Node<V, S>, peer: nat, term: U64, last: LogId)
    requires Goes(d, n)
    ensures Goes(d, PreVoteAnswer(n, peer, term, last))
  {
    hide Goes, Sent;
    SentGoes(d, n, peer, SendPreVoted(term, true));
    SentGoes(d, n, peer, SendPreVoted(term, false));
  }

  lemma ReceivedGoes<V, S>(d: Checkpoint<V, S>, n: Node<V, S>, peer: nat, from: Id, m: Message<V, S>)
    requires Goes(d, n) && n.logFrom.None? && ValidMessage(m)
    ensures Goes(d, Received(n, peer, from, m))
  {
    hide Continues, Current, Polled, StaleAnswer, Observed, ValidMessage, PreVoteAnswer;
    if m.PreVote? {
      PreVoteGoes(d, n, peer, m.term, m.last);
    } else {
      ObservedGoes(d, n, m.term);
      var o := Observed(n, m.term);
      if m.PreVoted? {
        PolledGoes(d, o, peer, m.campaign, m.granted);
      } else if m.term < o.state.hard.term {
        StaleGoes(d, o, peer, m);
      } else {
        CurrentGoes(d, o, peer, from, m);
      }
    }
  }

  // ---- Whole operations.

  /** Nothing is waiting to be saved. */
  ghost predicate Clean<V, S>(n: Node<V, S>) {
    !n.dirty && n.logFrom.None? && !n.snapshotChanged
  }

  lemma CleanGoes<V, S>(n: Node<V, S>)
    requires Steady(n) && WellFormed(n.state) && Clean(n)
    ensures Goes(n.state, n)
  {
    AdvancesRefl(n.state);
  }

  lemma StepGoes<V, S>(d: Checkpoint<V, S>, n: Node<V, S>, e: Envelope<V, S>)
    requires Goes(d, n) && n.logFrom.None?
    ensures Goes(d, Step(n, e).node)
  {
    hide Continues, Received, ValidMessage;
    if Available(n) && Accepts(n, e) {
      GoesSame(d, n, n.(requestFrom := Some(e.from)));
      ReceivedGoes(d, n.(requestFrom := Some(e.from)), PositionOf(n.peers, e.from), e.from, e.message);
    }
  }

  lemma TimersGoes<V, S>(d: Checkpoint<V, S>, n: Node<V, S>)
    requires Goes(d, n) && n.logFrom.None? && (IsVoter(n.membership, n.config.id) ==> n.local < |n.peers|)
    ensures Goes(d, TickTimers(n).node)
  {
    hide Continues, Campaign, Probe, Barrier, Broadcast, IsVoter;
    if n.role == Leader {
      if n.elapsed >= n.config.heartbeatTicks {
        GoesSame(d, n, n.(elapsed := 0));
        BarrierGoes(d, n.(elapsed := 0));
        BroadcastGoes(d, Barrier(n.(elapsed := 0)));
      }
    } else if IsVoter(n.membership, n.config.id) && n.elapsed >= n.electionDeadline && n.state.hard.term < MAX_U64 {
      CampaignGoes(d, n, n.state.hard.term + 1);
      ProbeGoes(d, n, n.state.hard.term + 1);
    }
  }

  lemma TickGoes<V, S>(d: Checkpoint<V, S>, n: Node<V, S>)
    requires Goes(d, n) && n.logFrom.None? && (IsVoter(n.membership, n.config.id) ==> n.local < |n.peers|)
    ensures Goes(d, Tick(n).node)
  {
    hide Continues, TickTimers, ActiveQuorum, IsVoter;
    if Available(n) {
      var t := Ticked(n);
      if t.hooks.Some? && t.role == Leader {
        var q := t.(quorumElapsed := SaturatingInc(t.quorumElapsed));
        var reset := q.(quorumElapsed := 0, active := Filled<bool>(|q.peers|, false));
        GoesSame(d, n, q);
        GoesSame(d, n, reset);
        FollowedGoes(d, reset, None);
        TimersGoes(d, reset);
        TimersGoes(d, q);
      } else {
        GoesSame(d, n, t);
        TimersGoes(d, t);
      }
    }
  }

  /** Pushing a run of entries of the node's own term. */
  lemma {:induction false} PushAllGoes<V, S>(d: Checkpoint<V, S>, n: Node<V, S>, es: seq<Entry<V>>, from1: U64)
    requires Goes(d, n) && n.prevoting.None? && |n.state.entries| + |es| <= n.cap && n.state.hard.term > 0
    requires n.dirty && Base(n.state).index < from1 <= Last(n.state).index + 1 && n.logFrom == Some(from1)
    requires forall k | 0 <= k < |es| ::
      es[k].id.index == Last(n.state).index + 1 + k && es[k].id.term == n.state.hard.term
    ensures Goes(d, n.(state := n.state.(entries := n.state.entries + es)))
    decreases |es|
  {
    hide Continues;
    if es == [] {
      assert n.state.entries + es == n.state.entries;
    } else {
      PushGoes(d, n, es[0], from1);
      var p := n.(state := Pushed(n.state, es[0]));
      assert p == n.(state := Pushed(n.state, es[0]), dirty := true, logFrom := Some(from1));
      assert n.state.entries + es == p.state.entries + es[1..];
      PushAllGoes(d, p, es[1..], from1);
    }
  }

  lemma ProposeGoes<V, S>(d: Checkpoint<V, S>, n: Node<V, S>, values: seq<V>)
    requires Goes(d, n) && n.logFrom.None?
    ensures Goes(d, ProposeMany(n, values).node)
  {
    hide Delta, Advances, Refreshed, AdvanceCommit, Broadcast, Contiguous;
    if ProposalError(n, |values|).None? {
      var first := LogId(Last(n.state).index + 1, n.state.hard.term);
      var es := Batch(values, first);
      LastTerm(n.state);
      var l := n.(dirty := true, logFrom := Some(first.index));
      EarlierContinues(d, n.state, None, n.snapshotChanged, Some(first.index));
      PushAllGoes(d, l, es, first.index);
      hide Goes;
      ProposedGoes(d, n, es, first.index, first.index + |values| - 1);
    }
  }

  lemma ProposedGoes<V, S>(d: Checkpoint<V, S>, n: Node<V, S>, es: seq<Entry<V>>, from: U64, last: U64)
    requires Sized(n) && Timed(n) && n.role == Leader
    requires Goes(d, n.(state := n.state.(entries := n.state.entries + es), dirty := true, logFrom := Some(from)))
    ensures
      var p := Refreshed(n.(state := n.state.(entries := n.state.entries + es), dirty := true, logFrom := Some(from)));
      Goes(d, Broadcast(AdvanceCommit(MatchedSelf(p, last))))
  {
    hide Continues, Refreshed, AdvanceCommit, Broadcast;
    var x := n.(state := n.state.(entries := n.state.entries + es), dirty := true, logFrom := Some(from));
    RefreshedFrame(x);
    var p := Refreshed(x);
    GoesSame(d, x, p);
    GoesSame(d, p, MatchedSelf(p, last));
    AdvanceGoes(d, MatchedSelf(p, last));
    BroadcastGoes(d, AdvanceCommit(MatchedSelf(p, last)));
  }

  lemma FoldGoes<V, S>(d: Checkpoint<V, S>, n: Node<V, S>, snapshot: Snapshot<S>)
    requires Goes(d, n) && n.logFrom.None?
    requires Base(n.state).index < snapshot.last.index && IdAt(n.state, snapshot.last.index) == Some(snapshot.last)
    ensures Goes(d, n.(state := Installed(n.state, snapshot), dirty := true, snapshotChanged := true))
  {
    hide Delta, Advances;
    GetContiguous(n.state, snapshot.last.index);
    hide Contiguous, Installed;
    InstallContinues(d, n.state, n.logFrom, n.snapshotChanged, snapshot);
    InstalledHard(n.state, snapshot);
  }

  lemma CompactGoes<V, S>(d: Checkpoint<V, S>, n: Node<V, S>, index: U64, value: S)
    requires Goes(d, n) && n.logFrom.None?
    ensures Goes(d, Compact(n, index, value).node)
  {
    hide Barrier, Broadcast;
    if Available(n) && Base(n.state).index < index <= n.state.hard.commit && IdAt(n.state, index).Some? {
      var snapshot := Snapshot(IdAt(n.state, index).value, value);
      HeldIsWithin(n.state, index);
      FoldGoes(d, n, snapshot);
      hide Continues, Installed, IdAt;
      var c := n.(state := Installed(n.state, snapshot), dirty := true, snapshotChanged := true);
      if c.role == Leader {
        BarrierGoes(d, c);
        BroadcastGoes(d, Barrier(c));
      }
    }
  }

  lemma InstalledHard<V, S>(s: Checkpoint<V, S>, snapshot: Snapshot<S>)
    ensures Installed(s, snapshot).hard.term == s.hard.term
  {
  }

  /** A voter among the members has a slot, and knows it. */
  ghost predicate Placed<V, S>(n: Node<V, S>) {
    IsVoter(n.membership, n.config.id) ==> n.local < |n.peers|
  }

  /** Whatever a host asks of a clean node continues its history. */
  lemma OperateGoes<V, S>(n: Node<V, S>, op: Operation<V, S>)
    requires Steady(n) && WellFormed(n.state) && Clean(n) && Placed(n)
    ensures Goes(n.state, Operate(n, op).node)
  {
    hide Goes, Tick, Step, ProposeMany, Compact;
    CleanGoes(n);
    match op
    case OpTick => TickGoes(n.state, n);
    case OpStep(e) => StepGoes(n.state, n, e);
    case OpPropose(values) => ProposeGoes(n.state, n, values);
    case OpCompact(index, value) => CompactGoes(n.state, n, index, value);
  }
}
