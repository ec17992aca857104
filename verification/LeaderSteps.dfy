/** Which of a leader's acts (LeaderActs.dfy) each operation performs: ticks, answers from followers, compactions. */
module LeaderSteps {
  import opened Types
  import opened Checkpoints
  import opened Memberships
  import opened NodeModel
  import opened LocalHistory
  import opened NodeHistory
  import opened SlotTables
  import opened DynamicNodes
  import opened DynamicElections
  import opened DynamicOperations
  import opened CommitRules
  import opened Queues
  import opened LeaderActs

  /** A leader between operations. */
  ghost predicate Leads<V(!new), S(!new)>(n: Node<V, S>) {
    && Sized(n) && Timed(n) && Seating(n) && AtRest(n) && WellFormed(n.state)
    && n.role == Leader && n.prevoting.None? && n.state.hard.term > 0
  }

  // ---- Ticks.

  /** The timers of a leader whose counters are not looked at any more. */
  lemma TimersLead<V(!new), S(!new)>(n: Node<V, S>)
    requires Leads(n)
    ensures
      var r := TickTimers(n).node;
      && TickTimers(n).error.None? && KeepsPositions(n, r) && r.prevoting.None? && Tenure(r)
      && r.active == n.active && r.quorumElapsed == n.quorumElapsed
      && if n.elapsed >= n.config.heartbeatTicks
         then Bars(n.state, r) && Tells(r, Fellows(r), SendReplicate) && r.elapsed == 0
         else r == n && Quiet(r)
  {
    hide Seating, Barrier, Broadcast, WellFormed, Tells, Bars;
    hide Tenure;
    SilentIsQuiet(n);
    SeatedTenure(n);
    if n.elapsed >= n.config.heartbeatTicks {
      var b := n.(elapsed := 0);
      SeatingFlags(n, b);
      BarrierActs(b);
      BroadcastTenure(Barrier(b));
      BroadcastTells(Barrier(b));
      BroadcastBars(n.state, Barrier(b));
      BarrierChecks(b);
    }
  }

  /** Every tick of a leader does what LeaderTicks says. */
  lemma TickLeads<V(!new), S(!new)>(n: Node<V, S>)
    requires Leads(n)
    ensures Tick(n).error.None? && LeaderTicks(n, Tick(n).node)
  {
    hide Seating, TickTimers, Quorum, WellFormed, Tells, Bars, Followed, Available, AtRest;
    RestIsAvailable(n);
    SeatingTable(n);
    HeardIsActive(n);
    var t := Ticked(n);
    var q := t.(quorumElapsed := SaturatingInc(t.quorumElapsed));
    var reset := q.(quorumElapsed := 0, active := Filled<bool>(|q.peers|, false));
    if n.hooks.None? {
      LeadsOn(n, t);
      TimersLead(t);
    } else if !CheckDue(n) {
      LeadsOn(n, q);
      TimersLead(q);
    } else {
      LeadsOn(n, reset);
      ResignsQuietly(reset);
      TimersLead(reset);
    }
  }

  lemma LeadsOn<V(!new), S(!new)>(n: Node<V, S>, m: Node<V, S>)
    requires Leads(n) && |m.active| == |n.active|
    requires m == n.(elapsed := m.elapsed, leaderAge := m.leaderAge, quorumElapsed := m.quorumElapsed,
        active := m.active)
    ensures Leads(m)
  {
    SeatingFlags(n, m);
    hide Seating, WellFormed;
  }

  lemma ResignsQuietly<V(!new), S(!new)>(n: Node<V, S>)
    requires Leads(n)
    ensures Followed(n, None).role == Follower && Followed(n, None).leader == None && Followed(n, None).state == n.state
    ensures Quiet(Followed(n, None)) && Quiet(n) && Followed(n, None).prevoting.None?
  {
    SilentIsQuiet(n);
    SilentIsQuiet(Followed(n, None));
  }

  // ---- Answers from followers.

  /** `x` brought between the two bounds, and no further than needed. */
  ghost predicate Nearest(r: U64, x: U64, low: U64, high: U64) {
    low <= r <= high && (x < low ==> r == low) && (x > high ==> r == high) && (low <= x <= high ==> r == x)
  }

  /** Progress was reported: the position moves, the commit rule is applied, and whoever may need more is told. */
  ghost predicate Acknowledged<V, S>(n: Node<V, S>, r: Node<V, S>, p: nat, index: U64)
    requires p < |n.matched| && p < |n.next| && p < |n.peers| && n.peers[p].Some?
  {
    && r.matched == n.matched[p := index] && r.next == n.next[p := Max(n.next[p], SaturatingInc(index))]
    && r.state == n.state.(hard := n.state.hard.(commit := r.state.hard.commit))
    && CommitRule(r, n.state.hard.commit, r.state.hard.commit)
    && if r.state.hard.commit > n.state.hard.commit then Tells(r, Fellows(r), SendReplicate)
       else if index < Last(n.state).index then Tells(r, Only(n.peers[p].value), SendReplicate)
       else Quiet(r)
  }

  /** The position the follower was last sent from was refused: the next one is tried at once. */
  ghost predicate Retries<V, S>(n: Node<V, S>, r: Node<V, S>, p: nat, hint: U64)
    requires p < |n.matched| && p < |n.next| && p < |n.peers| && n.peers[p].Some?
  {
    && r.matched == n.matched && r.state == n.state && |r.next| == |n.next|
    && r.next == n.next[p := r.next[p]]
    && Nearest(r.next[p], hint, SaturatingInc(n.matched[p]), SaturatingInc(Last(n.state).index))
    && Tells(r, Only(n.peers[p].value), SendReplicate)
  }

  /** What an answer of the leader's own term does. */
  ghost predicate TakesAnswer<V, S>(n: Node<V, S>, r: Node<V, S>, p: nat, index: U64, rejection: Option<Rejection>)
    requires p < |n.matched| && p < |n.next| && p < |n.peers| && n.peers[p].Some? && p < |n.active|
  {
    && r.peers == n.peers && r.membership == n.membership && r.local == n.local && r.active == n.active[p := true]
    && r.prevoting.None? && Tenure(r)
    && if rejection.None? && n.matched[p] < index <= Last(n.state).index then Acknowledged(n, r, p, index)
       else if rejection.Some? && rejection.value.Conflict?
               && n.matched[p] <= index <= Last(n.state).index && index + 1 == n.next[p]
       then Retries(n, r, p, rejection.value.next)
       else r.matched == n.matched && r.next == n.next && r.state == n.state && Quiet(r)
  }

  lemma AcknowledgedBy<V(!new), S(!new)>(n: Node<V, S>, m: Node<V, S>, p: nat, index: U64)
    requires Leads(n) && p < |n.peers| && n.peers[p].Some? && index <= Last(n.state).index
    requires m == n.(matched := n.matched[p := index], next := n.next[p := Max(n.next[p], SaturatingInc(index))],
                     active := n.active[p := true], requestFrom := m.requestFrom)
    ensures
      var r := if MayCommit(m) then Broadcast(AdvanceCommit(m))
               else if index < Last(n.state).index then Sent(m, p, SendReplicate) else m;
      && Acknowledged(n, r, p, index) && r.active == m.active && r.prevoting.None? && Tenure(r)
      && r.peers == n.peers && r.membership == n.membership && r.local == n.local
  {
    hide Seating, AdvanceCommit, Broadcast, MayCommit, WellFormed, Tells, CommitRule, Sent;
    hide Tenure;
    SeatingFlags(n, m);
    SeatedTenure(m);
    AdvancePresides(m);
    AdvanceSettles(m);
    AdvanceLog(m);
    TenureAdvances(m);
    var a := AdvanceCommit(m);
    if MayCommit(m) {
      BroadcastTenure(a);
      BroadcastTells(a);
      BroadcastRule(a, n.state.hard.commit);
    } else {
      UnmovedRule(m);
      SentTells(m, p, n.peers[p].value, SendReplicate);
      SentRule(m, p, SendReplicate);
      TenureStays(m, Sent(m, p, SendReplicate));
      SilentIsQuiet(m);
    }
  }

  lemma UnmovedRule<V, S>(m: Node<V, S>)
    requires Sized(m) && Timed(m) && !MayCommit(m)
    ensures AdvanceCommit(m) == m
  {
  }

  lemma SentRule<V, S>(n: Node<V, S>, p: nat, out: Outbound)
    requires Sized(n) && p < |n.peers| && CommitRule(n, n.state.hard.commit, n.state.hard.commit)
    ensures
      var r := Sent(n, p, out);
      && CommitRule(r, n.state.hard.commit, r.state.hard.commit) && r.state == n.state
      && r.matched == n.matched && r.next == n.next && r.active == n.active && r.role == n.role
      && r.peers == n.peers && r.membership == n.membership && r.local == n.local && r.prevoting == n.prevoting
      && r.config == n.config && r.hooks == n.hooks && r.bootstrap == n.bootstrap
  {
    hide Carried;
    var r := Sent(n, p, out);
    var t: U64 :| Carried(n, t) && n.state.hard.commit ==
                  if t > n.state.hard.commit && OfOwnTerm(n.state, t) then t else n.state.hard.commit;
    SameCarried(n, r, t);
  }

  lemma ReplicatedTakes<V(!new), S(!new)>(
    n: Node<V, S>, m: Node<V, S>, p: nat, index: U64, rejection: Option<Rejection>)
    requires Leads(n) && p < |n.peers| && n.peers[p].Some? && m == n.(requestFrom := m.requestFrom)
    ensures TakesAnswer(n, ReplicatedBy(m, p, index, rejection), p, index, rejection)
  {
    hide Seating, AdvanceCommit, Broadcast, MayCommit, WellFormed, Tells, CommitRule, Sent;
    var a := m.(active := m.active[p := true]);
    hide Tenure;
    SilentIsQuiet(a);
    SeatedTenure(n);
    TenureStays(n, a);
    if rejection.None? {
      if n.matched[p] < index <= Last(n.state).index {
        var k := a.(matched := a.matched[p := index], next := a.next[p := Max(a.next[p], SaturatingInc(index))]);
        AcknowledgedBy(n, k, p, index);
        hide Acknowledged;
      }
    } else if rejection.value.Conflict? && n.matched[p] <= index <= Last(n.state).index {
      RetriedBy(n, a, p, index, rejection.value.next);
    }
  }

  lemma RetriedBy<V, S>(n: Node<V, S>, a: Node<V, S>, p: nat, index: U64, hint: U64)
    requires Sized(n) && Silent(n) && p < |n.peers| && n.peers[p].Some?
    requires a == n.(active := n.active[p := true], requestFrom := a.requestFrom)
    requires n.matched[p] <= index <= Last(n.state).index
    ensures
      var x := Clamp(hint, SaturatingInc(n.matched[p]), SaturatingInc(Last(n.state).index));
      var r := Sent(a.(next := a.next[p := x]), p, SendReplicate);
      Retries(n, r, p, hint) && r.prevoting == n.prevoting && (Tenure(a) ==> Tenure(r)) && r.active == a.active
          && r.peers == n.peers && r.membership == n.membership && r.local == n.local
  {
    hide Tells, Tenure;
    var x := Clamp(hint, SaturatingInc(n.matched[p]), SaturatingInc(Last(n.state).index));
    SentTells(a.(next := a.next[p := x]), p, n.peers[p].value, SendReplicate);
    if Tenure(a) {
      TenureStays(a, Sent(a.(next := a.next[p := x]), p, SendReplicate));
    }
  }

  /** Addressed to this node, from somebody else, and structurally valid. */
  ghost predicate Delivered<V, S>(n: Node<V, S>, e: Envelope<V, S>) {
    e.to == n.config.id && e.from != n.config.id && ValidMessage(e.message)
  }

  /** An answer of the leader's own term, from the peer in slot p, does what TakesAnswer says. */
  lemma AnswerTaken<V(!new), S(!new)>(n: Node<V, S>, e: Envelope<V, S>, p: nat)
    requires Leads(n) && Delivered(n, e) && p < |n.peers| && n.peers[p] == Some(e.from)
    requires e.message.Replicated? && e.message.term == n.state.hard.term
    ensures Step(n, e).error.None?
    ensures TakesAnswer(n, Step(n, e).node, p, e.message.index, e.message.rejection)
  {
    hide Seating, ReplicatedBy, WellFormed, ValidMessage, TakesAnswer, Available, AtRest;
    RestIsAvailable(n);
    SlotIsPosition(n, p, e.from);
    ReplicatedTakes(n, n.(requestFrom := Some(e.from)), p, e.message.index, e.message.rejection);
  }

  lemma SlotIsPosition<V(!new), S(!new)>(n: Node<V, S>, p: nat, id: Id)
    requires Seating(n) && p < |n.peers| && n.peers[p] == Some(id)
    ensures PositionOf(n.peers, id) == p
  {
    hide InForce, Fits, AllSeated;
  }

  // ---- Compaction.

  /** The snapshot stands at the index, with that entry's identity; everything behind it is as it was. */
  ghost predicate Folds<V, S>(s: Checkpoint<V, S>, t: Checkpoint<V, S>, index: U64, value: S) {
    && IdAt(s, index).Some? && t.snapshot == Some(Snapshot(IdAt(s, index).value, value))
    && t.hard == s.hard && Last(t) == Last(s) && (forall k: U64 | k > index :: Get(t, k) == Get(s, k))
    && (forall k: U64 | k <= index :: Get(t, k).None?)
  }

  /** Only a committed index past the base can be folded. */
  ghost predicate Foldable<V, S>(s: Checkpoint<V, S>, index: U64) {
    Base(s).index < index <= s.hard.commit
  }

  lemma FoldedExactly<V, S>(n: Node<V, S>, index: U64, value: S)
    requires Sized(n) && Timed(n) && WellFormed(n.state)
    ensures Compact(n, index, value).error ==
            if !AtRest(n) then Some(Busy) else if !Foldable(n.state, index) then Some(NotCommitted) else None
    ensures Compact(n, index, value).error.Some? ==> Compact(n, index, value).node == n
  {
    hide Available, AtRest, Barrier, Broadcast, Contiguous, Installed;
    RestIsAvailable(n);
    if Foldable(n.state, index) {
      IndexHeld(n.state, index);
    }
  }

  lemma IndexHeld<V, S>(s: Checkpoint<V, S>, index: U64)
    requires WellFormed(s) && Base(s).index <= index <= Last(s).index
    ensures IdAt(s, index).Some? && IdAt(s, index).value.index == index
  {
    GetContiguous(s, index);
  }

  lemma InstalledFolds<V, S>(s: Checkpoint<V, S>, index: U64, value: S)
    requires WellFormed(s) && Foldable(s, index) && IdAt(s, index).Some?
    ensures
      var t := Installed(s, Snapshot(IdAt(s, index).value, value));
      Folds(s, t, index, value) && WellFormed(t)
  {
    var snapshot := Snapshot(IdAt(s, index).value, value);
    GetContiguous(s, index);
    InstalledWellFormed(s, snapshot);
    InstalledSuffix(s, snapshot);
    LastIndex(s);
    LastIndex(Installed(s, snapshot));
  }

  lemma FoldSeating<V(!new), S(!new)>(n: Node<V, S>, snapshot: Snapshot<S>, c: Node<V, S>)
    requires Sized(n) && Seating(n)
    requires WellFormed(n.state) && Base(n.state).index < snapshot.last.index <= n.state.hard.commit
    requires IdAt(n.state, snapshot.last.index) == Some(snapshot.last)
    requires n.hooks.Some? ==> n.hooks.value.snapshot(snapshot.value) == MembershipAt(n, snapshot.last.index).1
    requires c == n.(state := Installed(n.state, snapshot), dirty := c.dirty, snapshotChanged := c.snapshotChanged)
    ensures Seating(c)
  {
    hide WellFormed, IdAt, IsVoter, Proper, DistinctPeers, MembershipAt;
    FoldInForce(n, snapshot);
    InForceFrame(n.(state := Installed(n.state, snapshot)), c);
    SameFits(n, c);
    hide Installed, InForce, Fits;
  }

  /** A leader goes on with a barrier if folding took its last own entry, and tells everybody; others say nothing. */
  ghost predicate GoesOn<V, S>(n: Node<V, S>, t: Checkpoint<V, S>, r: Node<V, S>) {
    if n.role == Leader then
      && Bars(t, r) && KeepsPositions(n, r) && Tells(r, Fellows(r), SendReplicate)
      && r.prevoting.None? && Tenure(r)
    else r == n.(state := t, dirty := true, snapshotChanged := true) && Quiet(r)
  }

  /** The node with the prefix folded, before it goes on. */
  ghost function WithFold<V, S>(n: Node<V, S>, index: U64, value: S): Node<V, S>
    requires IdAt(n.state, index).Some?
  {
    n.(state := Installed(n.state, Snapshot(IdAt(n.state, index).value, value)), dirty := true, snapshotChanged := true)
  }

  lemma WithFoldParts<V(!new), S(!new)>(n: Node<V, S>, index: U64, value: S)
    requires Steady(n) && Seating(n) && AtRest(n) && WellFormed(n.state) && IdAt(n.state, index).Some?
    requires Foldable(n.state, index) && Attaches(n, OpCompact(index, value))
    ensures
      var c := WithFold(n, index, value);
      && Folds(n.state, c.state, index, value) && WellFormed(c.state) && Seating(c) && Silent(c) && Quiet(c)
      && c == n.(state := c.state, dirty := true, snapshotChanged := true)
  {
    hide Folds, Installed, Seating, MembershipAt, Contiguous;
    IndexHeld(n.state, index);
    InstalledFolds(n.state, index, value);
    FoldSeating(n, Snapshot(IdAt(n.state, index).value, value), WithFold(n, index, value));
    FoldQuiet(n, WithFold(n, index, value));
  }

  lemma CompactIs<V, S>(n: Node<V, S>, index: U64, value: S)
    requires Sized(n) && Timed(n) && AtRest(n) && Foldable(n.state, index) && IdAt(n.state, index).Some?
    ensures
      var c := WithFold(n, index, value);
      Compact(n, index, value).node == if n.role == Leader then Broadcast(Barrier(c)) else c
  {
    hide Available, AtRest, Barrier, Broadcast, Installed;
    RestIsAvailable(n);
  }

  /** What folding a committed index does. */
  lemma FoldActs<V(!new), S(!new)>(n: Node<V, S>, index: U64, value: S) returns (t: Checkpoint<V, S>)
    requires Steady(n) && Seating(n) && AtRest(n) && WellFormed(n.state)
    requires Foldable(n.state, index) && Attaches(n, OpCompact(index, value))
    ensures Folds(n.state, t, index, value) && GoesOn(n, t, Compact(n, index, value).node)
  {
    IndexHeld(n.state, index);
    CompactIs(n, index, value);
    WithFoldParts(n, index, value);
    var c := WithFold(n, index, value);
    t := c.state;
    hide WithFold, Compact, Installed, Seating, WellFormed, Barrier, Broadcast, Bars, Tells, AtRest, Silent;
    if n.role == Leader {
      BarrierActs(c);
      BroadcastTells(Barrier(c));
      BroadcastBars(t, Barrier(c));
    }
  }

  lemma FoldQuiet<V, S>(n: Node<V, S>, c: Node<V, S>)
    requires AtRest(n) && c.outbox == n.outbox && c.extraReply == n.extraReply
    ensures Quiet(c) && Silent(c)
  {
    SilentIsQuiet(c);
  }
}
