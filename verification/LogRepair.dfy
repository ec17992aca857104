/**
 * How a leader finds where a follower's log matches its own: each rejected request
 * lowers the position it tries next, or jumps once to just past the follower's
 * snapshot; a position inside the leader's own snapshot is answered by sending that.
 * The exchanges end in a match, except at the very end of the index range.
 */
module LogRepair {
  import opened Types
  import opened Checkpoints
  import opened Memberships
  import opened QuorumIndexes
  import opened NodeModel
  import opened LocalHistory
  import opened NodeHistory

  /** The position the leader tries after its request at `next` was rejected. */
  function Retried<V, S>(lead: Checkpoint<V, S>, f: Checkpoint<V, S>, matched: U64, next: U64): U64
    requires 0 < next && IdAt(lead, next - 1).Some?
  {
    Clamp(Retry(f, IdAt(lead, next - 1).value), SaturatingInc(matched), SaturatingInc(Last(lead).index))
  }

  /**
   * The follower's committed prefix is in the leader's log, and what the follower has
   * acknowledged really matches.
   */
  ghost predicate Repairable<V, S>(lead: Checkpoint<V, S>, f: Checkpoint<V, S>, matched: U64) {
    && WellFormed(lead) && WellFormed(f)
    && f.hard.commit <= Last(lead).index
    && (forall k: U64 | Base(lead).index <= k <= f.hard.commit && Base(f).index <= k :: IdAt(lead, k) == IdAt(f, k))
    && (Base(lead).index <= matched && Base(f).index <= matched ==> IdAt(lead, matched) == IdAt(f, matched))
    && matched <= Last(lead).index
  }

  /** The follower does not hold what precedes position `next` of the leader. */
  ghost predicate Conflicts<V, S>(lead: Checkpoint<V, S>, f: Checkpoint<V, S>, next: U64) {
    && Base(lead).index < next <= Last(lead).index + 1
    && IdAt(lead, next - 1).Some? && IdAt(f, next - 1) != IdAt(lead, next - 1)
  }

  /** A rejected request is retried strictly lower, or jumps past the follower's snapshot. */
  lemma RetryMoves<V, S>(lead: Checkpoint<V, S>, f: Checkpoint<V, S>, matched: U64, next: U64)
    requires Repairable(lead, f, matched) && Conflicts(lead, f, next) && matched < next
    requires Base(f).index < MAX_U64
    ensures var r := Retried(lead, f, matched, next);
            && matched < r
            && if next - 1 < Base(f).index then r == Base(f).index + 1
               else Base(f).index + 1 <= r < next
  {
    LastIndex(lead);
    LastIndex(f);
    hide Contiguous;
    HeldIsWithin(lead, next - 1);
    assert Base(lead).index <= Base(f).index ==> IdAt(lead, Base(f).index) == IdAt(f, Base(f).index);
  }

  // ---- Exchange by exchange.

  /** The follower, and what the leader knows and tries next. */
  datatype Attempt<+V, +S> = Attempt(follower: Checkpoint<V, S>, matched: U64, next: U64)

  /** The follower has heard the leader's term, and the leader tries a position within its log. */
  ghost predicate Ready<V, S>(lead: Checkpoint<V, S>, a: Attempt<V, S>) {
    && Repairable(lead, a.follower, a.matched) && a.follower.hard.term == lead.hard.term
    && a.matched < a.next <= SaturatingInc(Last(lead).index)
  }

  /** What a follower makes of a snapshot it does not reject. */
  function Taken<V, S>(f: Checkpoint<V, S>, snapshot: Snapshot<S>): Checkpoint<V, S> {
    if snapshot.last.index > Base(f).index
       && (snapshot.last.index > f.hard.commit || IdAt(f, snapshot.last.index) == Some(snapshot.last))
    then Installed(f, snapshot) else f
  }

  /** The next request will be accepted, or the leader's whole log has been acknowledged. */
  predicate Matches<V, S>(lead: Checkpoint<V, S>, a: Attempt<V, S>) {
    || (0 < a.next && Base(lead).index < a.next
        && IdAt(lead, a.next - 1).Some? && IdAt(a.follower, a.next - 1) == IdAt(lead, a.next - 1))
    || a.matched == Last(lead).index
  }

  /** One exchange that does not match: a snapshot that is acknowledged, or a request that is rejected. */
  ghost function Exchanged<V, S>(lead: Checkpoint<V, S>, a: Attempt<V, S>): Attempt<V, S>
    requires Ready(lead, a)
  {
    HeldBefore(lead, a);
    var base := Base(lead).index;
    if a.next <= base
    then Attempt(Taken(a.follower, lead.snapshot.value), base, Max(a.next, SaturatingInc(base)))
    else a.(next := Retried(lead, a.follower, a.matched, a.next))
  }

  /** A position is either in the leader's snapshot or has a predecessor the leader holds. */
  lemma HeldBefore<V, S>(lead: Checkpoint<V, S>, a: Attempt<V, S>)
    requires Ready(lead, a)
    ensures 0 < a.next
    ensures if a.next <= Base(lead).index then lead.snapshot.Some? else IdAt(lead, a.next - 1).Some?
  {
    GetContiguous(lead, a.next - 1);
  }

  /** The leader's snapshot is taken or covered, never rejected, and the pair can go on from it. */
  lemma TakenRepairable<V, S>(lead: Checkpoint<V, S>, f: Checkpoint<V, S>, matched: U64)
    requires Repairable(lead, f, matched) && f.hard.term == lead.hard.term && lead.snapshot.Some?
    ensures
      var s := lead.snapshot.value.last;
      !(s.index <= f.hard.commit && IdAt(f, s.index).Some? && IdAt(f, s.index) != Some(s))
    ensures
      var g := Taken(f, lead.snapshot.value);
      && Repairable(lead, g, Base(lead).index) && g.hard.term == lead.hard.term
      && Base(g).index == Max(Base(f).index, Base(lead).index)
      && IdAt(lead, Base(lead).index) == Some(Base(lead))
  {
    var s := lead.snapshot.value;
    BaseHeld(lead);
    GetContiguous(f, s.last.index);
    if s.last.index > Base(f).index {
      assert s.last.index <= f.hard.commit ==> IdAt(f, s.last.index) == Some(s.last);
      InstalledWellFormed(f, s);
      TakenAgrees(lead, f, matched);
      BaseHeld(Installed(f, s));
    }
    hide Contiguous, IdAt, Last;
  }

  /** Past the snapshot, the follower holds what it held, and at the snapshot what the leader sent. */
  lemma TakenAgrees<V, S>(lead: Checkpoint<V, S>, f: Checkpoint<V, S>, matched: U64)
    requires Repairable(lead, f, matched) && lead.snapshot.Some? && Base(lead).index > Base(f).index
    requires Base(lead).index <= f.hard.commit ==> IdAt(f, Base(lead).index) == Some(Base(lead))
    requires WellFormed(Installed(f, lead.snapshot.value))
    ensures
      var g := Installed(f, lead.snapshot.value);
      && g.hard.commit <= Last(lead).index
      && forall k: U64 | Base(lead).index <= k <= g.hard.commit :: IdAt(lead, k) == IdAt(g, k)
  {
    var g := Installed(f, lead.snapshot.value);
    BaseHeld(lead);
    BaseHeld(g);
    forall k: U64 | Base(lead).index < k <= g.hard.commit ensures IdAt(lead, k) == IdAt(g, k) {
      InstalledHolds(f, lead.snapshot.value, k);
    }
    hide WellFormed, IdAt, Last;
  }

  lemma BaseHeld<V, S>(s: Checkpoint<V, S>)
    requires WellFormed(s)
    ensures IdAt(s, Base(s).index) == Some(Base(s)) && Base(s).index <= Last(s).index
  {
    GetContiguous(s, Base(s).index);
  }

  lemma InstalledHolds<V, S>(f: Checkpoint<V, S>, snapshot: Snapshot<S>, k: U64)
    requires WellFormed(f) && WellFormed(Installed(f, snapshot)) && Base(f).index < snapshot.last.index < k
    requires IdAt(f, snapshot.last.index) == Some(snapshot.last)
    ensures IdAt(Installed(f, snapshot), k) == IdAt(f, k)
  {
    InstalledSuffix(f, snapshot);
    GetContiguous(f, k);
    GetContiguous(Installed(f, snapshot), k);
  }

  /** Every exchange leaves the pair ready for the next one. */
  lemma ExchangeKeeps<V, S>(lead: Checkpoint<V, S>, a: Attempt<V, S>)
    requires Ready(lead, a) && !Matches(lead, a)
    requires Base(a.follower).index < MAX_U64 || Base(lead).index == MAX_U64 || a.next <= Base(lead).index
    ensures Exchanged(lead, a).matched == Last(lead).index || Ready(lead, Exchanged(lead, a))
    ensures a.next > Base(lead).index ==>
              && Exchanged(lead, a).follower == a.follower
              && if a.next - 1 < Base(a.follower).index then Exchanged(lead, a).next == Base(a.follower).index + 1
                 else Base(a.follower).index + 1 <= Exchanged(lead, a).next < a.next
    ensures a.next <= Base(lead).index ==>
              && Base(Exchanged(lead, a).follower).index == Max(Base(a.follower).index, Base(lead).index)
              && Exchanged(lead, a).next == SaturatingInc(Base(lead).index)
  {
    HeldBefore(lead, a);
    LastIndex(lead);
    hide Contiguous;
    if a.next <= Base(lead).index {
      TakenRepairable(lead, a.follower, a.matched);
      hide Taken, Repairable;
    } else {
      RetryMoves(lead, a.follower, a.matched, a.next);
      hide Repairable;
    }
  }

  /** Whether so many exchanges suffice. */
  ghost predicate EndsWithin<V, S>(lead: Checkpoint<V, S>, a: Attempt<V, S>, exchanges: nat)
    decreases exchanges
  {
    || Matches(lead, a)
    || (exchanges > 0 && Ready(lead, a) && EndsWithin(lead, Exchanged(lead, a), exchanges - 1))
  }

  /** How many always do, when any number does. */
  function Enough<V, S>(lead: Checkpoint<V, S>, a: Attempt<V, S>): nat {
    var base := Base(a.follower).index;
    if a.next <= Base(lead).index then if base > Base(lead).index then 2 else 1
    else if a.next - 1 < base then 1
    else a.next - base
  }

  /** At the follower's own base, once the leader can speak of it, the logs match. */
  lemma BaseMatches<V, S>(lead: Checkpoint<V, S>, a: Attempt<V, S>)
    requires Ready(lead, a) && Base(lead).index <= Base(a.follower).index && a.next == Base(a.follower).index + 1
    ensures Matches(lead, a)
  {
    GetContiguous(lead, a.next - 1);
    GetContiguous(a.follower, a.next - 1);
  }

  /**
   * Log repair ends in a match: after one jump, or fewer rejections than the distance to
   * the follower's snapshot, and at most one snapshot of the leader's in between.
   */
  lemma {:induction false} RepairEnds<V, S>(lead: Checkpoint<V, S>, a: Attempt<V, S>)
    requires Ready(lead, a) && (Base(a.follower).index < MAX_U64 || Base(lead).index == MAX_U64)
    ensures EndsWithin(lead, a, Enough(lead, a))
    decreases Enough(lead, a)
  {
    if !Matches(lead, a) {
      ExchangeKeeps(lead, a);
      var b := Exchanged(lead, a);
      if b.matched != Last(lead).index {
        BasesInside(lead, a);
        hide Matches, Exchanged, Repairable;
        if b.next == Base(b.follower).index + 1 && Base(lead).index <= Base(b.follower).index {
          BaseMatches(lead, b);
        } else {
          RepairEnds(lead, b);
          EndsLater(lead, b, Enough(lead, b), Enough(lead, a) - 1);
        }
      }
    }
  }

  lemma BasesInside<V, S>(lead: Checkpoint<V, S>, a: Attempt<V, S>)
    requires Ready(lead, a)
    ensures Base(a.follower).index <= Last(lead).index && Base(lead).index <= Last(lead).index
  {
    LastIndex(lead);
  }

  /** More exchanges than needed do no harm. */
  lemma {:induction false} EndsLater<V, S>(lead: Checkpoint<V, S>, a: Attempt<V, S>, k: nat, more: nat)
    requires EndsWithin(lead, a, k) && k <= more
    ensures EndsWithin(lead, a, more)
    decreases k
  {
    hide Matches, Ready, Exchanged;
    if !Matches(lead, a) {
      EndsLater(lead, Exchanged(lead, a), k - 1, more - 1);
    }
  }

  /** A follower whose snapshot reaches the last index there is can only be met by a snapshot that does too. */
  lemma {:induction false} NeverEnds<V, S>(lead: Checkpoint<V, S>, a: Attempt<V, S>, k: nat)
    requires Ready(lead, a) && Base(a.follower).index == MAX_U64 && Base(lead).index < MAX_U64
    ensures !EndsWithin(lead, a, k)
    decreases k
  {
    BasesInside(lead, a);
    HeldBefore(lead, a);
    GetContiguous(a.follower, a.next - 1);
    assert !Matches(lead, a);
    if k > 0 {
      StuckExchange(lead, a);
      NeverEnds(lead, Exchanged(lead, a), k - 1);
    }
  }

  lemma StuckExchange<V, S>(lead: Checkpoint<V, S>, a: Attempt<V, S>)
    requires Ready(lead, a) && Base(a.follower).index == MAX_U64 && Base(lead).index < MAX_U64
    ensures Ready(lead, Exchanged(lead, a)) && Base(Exchanged(lead, a).follower).index == MAX_U64
  {
    BasesInside(lead, a);
    HeldBefore(lead, a);
    if a.next <= Base(lead).index {
      TakenRepairable(lead, a.follower, a.matched);
    }
    hide WellFormed;
  }

  /**
   * So repair ends exactly when the follower's snapshot lies below the last index a u64
   * can name, or the leader's own snapshot reaches it.
   */
  lemma RepairEndsExactly<V(!new), S(!new)>(lead: Checkpoint<V, S>, a: Attempt<V, S>)
    requires Ready(lead, a)
    ensures (exists k: nat :: EndsWithin(lead, a, k)) <==>
            Base(a.follower).index < MAX_U64 || Base(lead).index == MAX_U64
  {
    if Base(a.follower).index < MAX_U64 || Base(lead).index == MAX_U64 {
      RepairEnds(lead, a);
    } else {
      forall k: nat ensures !EndsWithin(lead, a, k) {
        NeverEnds(lead, a, k);
      }
    }
  }

  /** The exception is not empty: two states that restore accepts, and an attempt that no exchange ends. */
  lemma ExceptionExists(lead: Checkpoint<int, int>, f: Checkpoint<int, int>, k: nat)
    requires lead == Checkpoint(HardState(1, None, MAX_U64), Some(Snapshot(LogId(MAX_U64 - 1, 1), 0)),
                                [Entry(LogId(MAX_U64, 1), None)])
    requires f == Checkpoint(HardState(1, None, MAX_U64), Some(Snapshot(LogId(MAX_U64, 1), 0)), [])
    ensures Restored(lead.hard, lead.snapshot, lead.entries, 1) == Ok(lead)
    ensures Restored(f.hard, f.snapshot, f.entries, 1) == Ok(f)
    ensures !EndsWithin(lead, Attempt(f, 0, MAX_U64), k)
  {
    RestoreExactly(lead, 1);
    RestoreExactly(f, 1);
    assert Ready(lead, Attempt(f, 0, MAX_U64));
    NeverEnds(lead, Attempt(f, 0, MAX_U64), k);
  }

  // ---- The exchange between two nodes.

  lemma RequestRendered<V, S>(lead: Node<V, S>, peer: nat)
    requires Sized(lead) && peer < |lead.peers| && Base(lead.state).index < lead.next[peer]
    requires WellFormed(lead.state) && IdAt(lead.state, lead.next[peer] - 1).Some?
    ensures
      var m := Rendered(lead, peer, SendReplicate);
      && m.Some? && (m.value.Append? || m.value.AppendBatch?)
      && m.value.previous == IdAt(lead.state, lead.next[peer] - 1).value
      && (m.value.AppendBatch? ==> m.value.entries != [] && m.value.entries[0].Some?)
  {
    if lead.next[peer] < MAX_U64 {
      GetContiguous(lead.state, lead.next[peer] + 1);
    }
    GetContiguous(lead.state, lead.next[peer]);
    hide IdAt, Get, WellFormed;
  }

  lemma RequestRejected<V, S>(f: Node<V, S>, previous: LogId, entry: Option<Entry<V>>, commit: U64)
    requires Sized(f) && Timed(f) && IdAt(f.state, previous.index) != Some(previous)
    ensures Appended(f, previous, entry, commit) == Reply(f, previous.index, Some(Conflict(Retry(f.state, previous))))
  {
    hide IdAt, Retry, Truncated, Refreshed, CommitTo;
  }

  lemma RejectionHandled<V, S>(lead: Node<V, S>, peer: nat, index: U64, retry: U64)
    requires Sized(lead) && Timed(lead) && peer < |lead.peers|
    requires index <= Last(lead.state).index && lead.matched[peer] <= index && index + 1 == lead.next[peer]
    ensures
      var r := ReplicatedBy(lead, peer, index, Some(Conflict(retry)));
      && r.matched == lead.matched
      && r.next == lead.next[peer := Clamp(retry, SaturatingInc(lead.matched[peer]),
          SaturatingInc(Last(lead.state).index))]
  {
    hide Clamp, Last, MayCommit, AdvanceCommit, Broadcast;
  }

  lemma BatchRejected<V, S>(f: Node<V, S>, previous: LogId, entries: seq<Option<Entry<V>>>, commit: U64)
    requires Sized(f) && Timed(f) && IdAt(f.state, previous.index) != Some(previous)
    requires entries != [] && entries[0].Some?
    ensures BatchFrom(f, previous, entries, commit, false, (previous.index, None)) ==
            Reply(f, previous.index, Some(Conflict(Retry(f.state, previous))))
  {
    RequestRejected(f, previous, entries[0], commit);
  }

  /** What the follower answers to either kind of request, and makes of it. */
  function Heard<V, S>(f: Node<V, S>, m: Message<V, S>): Reply<V, S>
    requires Sized(f) && Timed(f) && (m.Append? || m.AppendBatch? || m.Install?)
  {
    match m
    case Append(_, previous, entry, commit) => Appended(f, previous, entry, commit)
    case AppendBatch(_, previous, entries, commit) =>
      BatchFrom(f, previous, entries, commit, false, (previous.index, None))
    case Install(_, snapshot) => InstalledBy(f, snapshot)
  }

  /** One rejected request of real nodes, single or batch, is one step of the above. */
  lemma ExchangeRetries<V, S>(lead: Node<V, S>, f: Node<V, S>, peer: nat)
    requires Sized(lead) && Timed(lead) && Sized(f) && Timed(f) && peer < |lead.peers|
    requires WellFormed(lead.state) && lead.matched[peer] < lead.next[peer]
    requires Conflicts(lead.state, f.state, lead.next[peer])
    ensures
      var m := Rendered(lead, peer, SendReplicate);
      && m.Some? && (m.value.Append? || m.value.AppendBatch?)
      && var reply := Heard(f, m.value);
         var r := ReplicatedBy(lead, peer, reply.index, reply.rejection);
         && reply.node == f
         && r.next == lead.next[peer := Retried(lead.state, f.state, lead.matched[peer], lead.next[peer])]
         && r.matched == lead.matched
  {
    hide Retry, Rendered, Appended, BatchFrom, ReplicatedBy, Clamp;
    HeldIsWithin(lead.state, lead.next[peer] - 1);
    RequestRendered(lead, peer);
    hide WellFormed, IdAt, Last;
    var previous := IdAt(lead.state, lead.next[peer] - 1).value;
    var m := Rendered(lead, peer, SendReplicate).value;
    if m.Append? {
      RequestRejected(f, previous, m.entry, m.commit);
    } else {
      BatchRejected(f, previous, m.entries, m.commit);
    }
    RejectionHandled(lead, peer, previous.index, Retry(f.state, previous));
  }

  lemma SnapshotRendered<V, S>(lead: Node<V, S>, peer: nat)
    requires Sized(lead) && peer < |lead.peers| && lead.next[peer] <= Base(lead.state).index
    requires lead.state.snapshot.Some?
    ensures Rendered(lead, peer, SendReplicate) == Some(Install(lead.state.hard.term, lead.state.snapshot.value))
  {
  }

  lemma SnapshotTaken<V, S>(f: Node<V, S>, snapshot: Snapshot<S>)
    requires Sized(f) && Timed(f)
    requires
      var at := IdAt(f.state, snapshot.last.index);
      !(snapshot.last.index <= f.state.hard.commit && at.Some? && at != Some(snapshot.last))
    ensures
      var r := InstalledBy(f, snapshot);
      r.index == snapshot.last.index && r.rejection.None? && r.node.state == Taken(f.state, snapshot)
  {
    hide Refreshed, Installed, IdAt;
    var logFrom := if IdAt(f.state, snapshot.last.index) != Some(snapshot.last) then CheckedInc(snapshot.last.index)
        else f.logFrom;
    RefreshedFrame(f.(logFrom := logFrom, state := Installed(f.state, snapshot)));
  }

  /** The cache and the peer table as every node of a run keeps them. */
  ghost predicate Coherent<V, S>(n: Node<V, S>) {
    && n.membership == MembershipAt(n, Last(n.state).index).1
    && forall id | Contains(n.membership, id) :: Some(id) in n.peers
  }

  lemma {:induction false} NobodyNew<V, S>(n: Node<V, S>, from: nat)
    requires Sized(n) && forall id | Contains(n.membership, id) :: Some(id) in n.peers
    ensures SeatAll(n, from) == n
    decreases |n.membership.slots| - from
  {
    if from < |n.membership.slots| {
      if n.membership.slots[from].Some? {
        assert Contains(n.membership, n.membership.slots[from].value.id);
      }
      NobodyNew(n, from + 1);
    }
  }

  /** Refreshing a coherent node moves no slot. */
  lemma CoherentRefreshed<V, S>(n: Node<V, S>)
    requires Sized(n) && Timed(n) && Coherent(n)
    ensures
      var r := Refreshed(n);
      r.matched == n.matched && r.next == n.next && r.peers == n.peers && r.state == n.state
  {
    hide Contains, MembershipAt;
    assert n.(membership := MembershipAt(n, Last(n.state).index).1) == n;
    NobodyNew(n, 0);
  }

  lemma CoherentAdvance<V, S>(n: Node<V, S>)
    requires Sized(n) && Timed(n) && Coherent(n)
    ensures
      var r := AdvanceCommit(n);
      && r.matched == n.matched && r.next == n.next
      && r.state.entries == n.state.entries && r.state.snapshot == n.state.snapshot
  {
    hide Refreshed, QuorumIndex;
    CoherentRefreshed(n.(state := n.state.(hard := n.state.hard.(commit := QuorumMatched(n))), dirty := true));
  }

  lemma AcknowledgementHandled<V, S>(lead: Node<V, S>, peer: nat, index: U64)
    requires Sized(lead) && Timed(lead) && Coherent(lead) && peer < |lead.peers|
    requires lead.matched[peer] < index <= Last(lead.state).index
    ensures
      var r := ReplicatedBy(lead, peer, index, None);
      && r.matched == lead.matched[peer := index]
      && r.next == lead.next[peer := Max(lead.next[peer], SaturatingInc(index))]
      && r.state.entries == lead.state.entries && r.state.snapshot == lead.state.snapshot
  {
    hide AdvanceCommit, MayCommit, Contains, MembershipAt;
    var a := lead.(active := lead.active[peer := true]);
    var m := a.(matched := a.matched[peer := index], next := a.next[peer := Max(a.next[peer], SaturatingInc(index))]);
    CoherentFrame(lead, m);
    CoherentAdvance(m);
  }

  lemma CoherentFrame<V, S>(n: Node<V, S>, m: Node<V, S>)
    requires Coherent(n) && m.hooks == n.hooks && m.bootstrap == n.bootstrap && m.state == n.state
    requires m.membership == n.membership && m.peers == n.peers
    ensures Coherent(m)
  {
    hide Contains;
  }

  /** A snapshot between real nodes is the other kind of step. */
  lemma ExchangeInstalls<V, S>(lead: Node<V, S>, f: Node<V, S>, peer: nat)
    requires Sized(lead) && Timed(lead) && Sized(f) && Timed(f) && peer < |lead.peers|
    requires Ready(lead.state, Attempt(f.state, lead.matched[peer], lead.next[peer]))
    requires lead.next[peer] <= Base(lead.state).index && Coherent(lead)
    ensures
      var m := Rendered(lead, peer, SendReplicate);
      && m.Some? && m.value.Install?
      && var b := Exchanged(lead.state, Attempt(f.state, lead.matched[peer], lead.next[peer]));
         var reply := Heard(f, m.value);
         var r := ReplicatedBy(lead, peer, reply.index, reply.rejection);
         && reply.node.state == b.follower && reply.rejection.None? && reply.index == b.matched
         && r.matched == lead.matched[peer := b.matched] && r.next == lead.next[peer := b.next]
         && r.state.entries == lead.state.entries && r.state.snapshot == lead.state.snapshot
  {
    HeldBefore(lead.state, Attempt(f.state, lead.matched[peer], lead.next[peer]));
    TakenRepairable(lead.state, f.state, lead.matched[peer]);
    BasesInside(lead.state, Attempt(f.state, lead.matched[peer], lead.next[peer]));
    hide Rendered, InstalledBy, Taken, Repairable, ReplicatedBy, Coherent;
    SnapshotRendered(lead, peer);
    AcknowledgementHandled(lead, peer, Base(lead.state).index);
    SnapshotTaken(f, lead.state.snapshot.value);
  }
}
