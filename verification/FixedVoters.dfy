/**
 * How one node of a cluster whose voters never change stands in the cluster's history:
 * what its checkpoint retains, what its role claims, and what the messages it has queued
 * or sent promise. The node may run either engine: hooks == None, or hooks whose records
 * and snapshots never name another membership than the first one.
 */
module FixedVoters {
  import opened Types
  import opened Checkpoints
  import opened Memberships
  import opened QuorumIndexes
  import opened NodeModel
  import opened RaftHistory
  import opened RaftGrowth
  import opened RaftSafety

  // ---- No membership but the first.

  /** The entry is no configuration record. */
  ghost predicate PlainEntry<V, S>(hooks: Option<Hooks<V, S>>, e: Entry<V>) {
    hooks.Some? && e.value.Some? ==> hooks.value.record(e.value.value).None?
  }

  /** The snapshot carries the first membership. */
  ghost predicate PlainSnapshot<V, S>(hooks: Option<Hooks<V, S>>, genesis: Membership, value: S) {
    hooks.Some? ==> hooks.value.snapshot(value) == genesis
  }

  ghost predicate PlainMessage<V, S>(hooks: Option<Hooks<V, S>>, genesis: Membership, m: Message<V, S>) {
    match m
    case Append(_, _, entry, _) => entry.Some? ==> PlainEntry(hooks, entry.value)
    case AppendBatch(_, _, entries, _) =>
      forall k | 0 <= k < |entries| && entries[k].Some? :: PlainEntry(hooks, entries[k].value)
    case Install(_, snapshot) => PlainSnapshot(hooks, genesis, snapshot.value)
    case _ => true
  }

  ghost predicate PlainState<V, S>(hooks: Option<Hooks<V, S>>, genesis: Membership, s: Checkpoint<V, S>) {
    && (forall k | 0 <= k < |s.entries| :: PlainEntry(hooks, s.entries[k]))
    && (s.snapshot.Some? ==> PlainSnapshot(hooks, genesis, s.snapshot.value.value))
  }

  /** Nothing the node holds changes its membership. */
  ghost predicate Still<V, S>(n: Node<V, S>) {
    PlainState(n.hooks, n.bootstrap, n.state)
  }

  lemma {:induction false} PlainRecords<V, S>(
    entries: seq<Entry<V>>, index: U64, hooks: Hooks<V, S>, found: (U64, Membership))
    requires forall k | 0 <= k < |entries| :: PlainEntry(Some(hooks), entries[k])
    ensures LastRecord(entries, index, hooks, found) == found
    decreases |entries|
  {
    if entries != [] && entries[0].id.index <= index {
      assert PlainEntry(Some(hooks), entries[0]);
      PlainRecords(entries[1..], index, hooks, found);
    }
  }

  lemma StillMembership<V, S>(n: Node<V, S>, index: U64)
    requires Still(n)
    ensures MembershipAt(n, index).1 == n.bootstrap
  {
    if n.hooks.Some? {
      PlainRecords(n.state.entries, index, n.hooks.value,
        if n.state.snapshot.None? then (0, n.bootstrap)
        else (n.state.snapshot.value.last.index, n.hooks.value.snapshot(n.state.snapshot.value.value)));
    }
  }

  // ---- The constant part of a node.

  /** Every occupied slot is a voter of the one configuration there ever is. */
  ghost predicate Fixed<V, S>(n: Node<V, S>, voters: set<Id>) {
    && Sized(n) && Timed(n) && n.cap > 0
    && n.membership == n.bootstrap
    && n.peers == Peers(n.membership)
    && (forall p | 0 <= p < |n.peers| && n.peers[p].Some? :: n.peers[p].value in voters)
    && (forall p, q | 0 <= p < q < |n.peers| && n.peers[p].Some? :: n.peers[p] != n.peers[q])
    && SetOf(n.membership, Voters) == voters && SetOf(n.membership, OldVoters) == {}
    && n.config.id in voters && Some(n.config.id) in n.peers
    && n.local == PositionOf(n.peers, n.config.id)
  }

  /** A known identity has a slot. */
  lemma PositionKnown(peers: seq<Option<Id>>, id: Id)
    requires Some(id) in peers
    ensures PositionOf(peers, id) < |peers|
  {
  }

  lemma {:induction false} NobodyToSeat<V, S>(n: Node<V, S>, from: nat)
    requires Sized(n) && n.peers == Peers(n.membership)
    ensures SeatAll(n, from) == n
    decreases |n.membership.slots| - from
  {
    if from < |n.membership.slots| {
      if n.membership.slots[from].Some? {
        assert n.peers[from] == Some(n.membership.slots[from].value.id);
      }
      NobodyToSeat(n, from + 1);
    }
  }

  lemma VotersVote<V, S>(n: Node<V, S>, voters: set<Id>)
    requires Fixed(n, voters)
    ensures forall id | id in voters :: IsVoter(n.membership, id) && Contains(n.membership, id)
    ensures !IsJoint(n.membership)
  {
    JointIsNonempty(n.membership);
  }

  /** Such a node never changes its membership, its slots or its role here. */
  lemma FixedRefreshed<V, S>(n: Node<V, S>, voters: set<Id>)
    requires Fixed(n, voters) && Still(n)
    ensures Refreshed(n) == n
  {
    VotersVote(n, voters);
    StillMembership(n, Last(n.state).index);
    hide Still;
    assert n.(membership := n.bootstrap) == n;
    NobodyToSeat(n, 0);
    assert n.(local := PositionOf(n.peers, n.config.id)) == n;
  }

  // ---- What a checkpoint says about the full log.

  type Application<!V, !S> = Log<V> -> S

  /** The checkpoint is the full log with its first base entries folded into a snapshot. */
  ghost predicate Retains<V, S>(log: Log<V>, s: Checkpoint<V, S>, app: Application<V, S>) {
    var base := Base(s).index;
    && base <= s.hard.commit <= |log|
    && s.entries == log[base..]
    && (s.snapshot.Some? ==>
          && 0 < base && IdOf(log, base) == Base(s)
          && s.snapshot.value.value == app(log[..base]))
  }

  // ---- A node in the history.

  ghost predicate Leads<V, S>(h: History<V>, n: Node<V, S>) {
    var i := n.config.id;
    var t := n.state.hard.term;
    i in h.log && t in h.reigns && h.reigns[t] == Reign(i, h.log[i])
  }

  ghost predicate Stands<V, S>(h: History<V>, n: Node<V, S>) {
    var i := n.config.id;
    var t := n.state.hard.term;
    && i in h.log && (t, i) in h.platforms && h.platforms[(t, i)] == h.log[i]
    && (t, i) in h.ballots && h.ballots[(t, i)] == i
    && (t in h.reigns ==> h.reigns[t].leader != i)
  }

  ghost predicate VotesHeld<V, S>(h: History<V>, n: Node<V, S>) {
    forall p | 0 <= p < |n.votes| && p < |n.peers| && n.votes[p] && n.peers[p].Some? ::
      && (n.state.hard.term, n.peers[p].value) in h.ballots
      && h.ballots[(n.state.hard.term, n.peers[p].value)] == n.config.id
  }

  ghost predicate AcksHeld<V, S>(h: History<V>, n: Node<V, S>) {
    forall p | 0 <= p < |n.matched| && p < |n.peers| && n.peers[p].Some? ::
      n.matched[p] <= Ack(h, n.state.hard.term, n.peers[p].value)
  }

  ghost predicate Durable<V, S>(h: History<V>, i: Id, s: Checkpoint<V, S>, app: Application<V, S>) {
    && i in h.voters && i in h.term && i in h.log
    && h.term[i] == s.hard.term
    && s.hard.votedFor == (if (h.term[i], i) in h.ballots then Some(h.ballots[(h.term[i], i)]) else None)
    && Retains(h.log[i], s, app)
    && Committed(h, h.log[i][..s.hard.commit], s.hard.term)
  }

  ghost predicate Queued<V, S>(h: History<V>, n: Node<V, S>, to: Id, out: Outbound) {
    var t := n.state.hard.term;
    var i := n.config.id;
    match out
    case SendVote => Stands(h, n) && n.role == Candidate
    case SendVoted(granted) => granted ==> (t, i) in h.ballots && h.ballots[(t, i)] == to
    case SendReplicate => Leads(h, n) && n.role == Leader
    case SendReplicated(index, rejection) => rejection.None? ==> index <= Ack(h, t, i)
    case SendPreVote(_) => true
    case SendPreVoted(_, _) => true
  }

  ghost predicate OutboxHeld<V, S>(h: History<V>, n: Node<V, S>) {
    && n.extraReply.None?
    && forall p | 0 <= p < |n.outbox| && p < |n.peers| && n.outbox[p].Some? ::
         p != n.local && n.peers[p].Some? && Queued(h, n, n.peers[p].value, n.outbox[p].value)
  }

  /** Everything but the outbox. */
  ghost predicate Core<V, S>(h: History<V>, n: Node<V, S>, app: Application<V, S>) {
    && Fixed(n, h.voters) && Still(n) && |n.state.entries| <= n.cap
    && Durable(h, n.config.id, n.state, app)
    && (n.role == Candidate ==> Stands(h, n) && VotesHeld(h, n))
    && (n.role == Leader ==> Leads(h, n) && AcksHeld(h, n))
  }

  ghost predicate Sim<V, S>(h: History<V>, n: Node<V, S>, app: Application<V, S>) {
    Core(h, n, app) && OutboxHeld(h, n)
  }

  ghost predicate Quiet<V, S>(n: Node<V, S>) {
    n.extraReply.None? && forall p | 0 <= p < |n.outbox| :: n.outbox[p].None?
  }

  // ---- A message in the history.

  /** The batch is a run of consecutive entries of the log after a position, and then nothing. */
  ghost predicate RunOf<V>(log: Log<V>, after: nat, entries: seq<Option<Entry<V>>>) {
    forall k | 0 <= k < |entries| && entries[k].Some? ::
      && after + k < |log| && log[after + k] == entries[k].value
      && forall j | 0 <= j < k :: entries[j].Some?
  }

  ghost predicate Promises<V, S>(h: History<V>, e: Envelope<V, S>, app: Application<V, S>) {
    && e.from in h.voters && e.to in h.voters && e.from != e.to
    && match e.message
       case Vote(t, last) =>
         (t as nat, e.from) in h.platforms && LastOf(h.platforms[(t as nat, e.from)]) == last
       case Voted(t, granted) =>
         granted ==> (t as nat, e.from) in h.ballots && h.ballots[(t as nat, e.from)] == e.to
       case Append(t, previous, entry, commit) =>
         && t as nat in h.reigns && h.reigns[t].leader == e.from
         && previous.index <= |h.reigns[t].log|
         && previous == IdOf(h.reigns[t].log, previous.index)
         && (entry.Some? ==> previous.index < |h.reigns[t].log| && h.reigns[t].log[previous.index] == entry.value)
         && commit <= |h.reigns[t].log| && Committed(h, h.reigns[t].log[..commit], t)
       case AppendBatch(t, previous, entries, commit) =>
         && t as nat in h.reigns && h.reigns[t].leader == e.from
         && previous.index <= |h.reigns[t].log|
         && previous == IdOf(h.reigns[t].log, previous.index)
         && entries != [] && entries[0].Some? && RunOf(h.reigns[t].log, previous.index, entries)
         && commit <= |h.reigns[t].log| && Committed(h, h.reigns[t].log[..commit], t)
       case Install(t, snapshot) =>
         && t as nat in h.reigns && h.reigns[t].leader == e.from
         && 0 < snapshot.last.index <= |h.reigns[t].log|
         && IdOf(h.reigns[t].log, snapshot.last.index) == snapshot.last
         && Committed(h, h.reigns[t].log[..snapshot.last.index], t)
         && snapshot.value == app(h.reigns[t].log[..snapshot.last.index])
       case Replicated(t, index, rejection) => rejection.None? ==> index <= Ack(h, t, e.from)
       case PreVote(_, _) => true
       case PreVoted(_, _, _) => true
  }

  // ---- Stability under other voters' steps.

  lemma CommittedSlice<V>(h: History<V>, a: Log<V>, b: Log<V>, n: nat, bound: nat)
    requires n <= |a| && Agree(a, b, n) && Committed(h, a[..n], bound)
    ensures Committed(h, b[..n], bound)
  {
    assert a[..n] == b[..n];
  }

  /** A committed prefix of a reign stays one. */
  lemma ReignPrefixStable<V>(h: History<V>, h1: History<V>, i: Id, t: nat, n: nat)
    requires Grows(h, h1, i) && t in h.reigns && n <= |h.reigns[t].log| && Committed(h, h.reigns[t].log[..n], t)
    ensures t in h1.reigns && n <= |h1.reigns[t].log| && h.reigns[t].log[..n] == h1.reigns[t].log[..n]
    ensures Committed(h1, h1.reigns[t].log[..n], t)
  {
    CommittedStable(h, h1, i, h.reigns[t].log[..n], t, t);
    CommittedSlice(h1, h.reigns[t].log, h1.reigns[t].log, n, t);
  }

  lemma PromisesStable<V, S>(h: History<V>, h1: History<V>, i: Id, e: Envelope<V, S>, app: Application<V, S>)
    requires Grows(h, h1, i) && Promises(h, e, app)
    ensures Promises(h1, e, app)
  {
    hide Committed, AcksGrow;
    match e.message
    case Append(t, previous, entry, commit) => ReignPrefixStable(h, h1, i, t, commit);
    case AppendBatch(t, previous, entries, commit) => ReignPrefixStable(h, h1, i, t, commit);
    case Install(t, snapshot) => ReignPrefixStable(h, h1, i, t, snapshot.last.index);
    case Replicated(t, index, rejection) => AckStable(h, h1, i, t, e.from);
    case _ =>
  }

  lemma DurableStable<V, S>(h: History<V>, h1: History<V>, i: Id, j: Id, s: Checkpoint<V, S>, app: Application<V, S>)
    requires Grows(h, h1, i) && Durable(h, j, s, app) && i != j
    ensures Durable(h1, j, s, app)
  {
    CommittedStable(h, h1, i, h.log[j][..s.hard.commit], s.hard.term, s.hard.term);
  }

  lemma CoreStable<V, S>(h: History<V>, h1: History<V>, i: Id, n: Node<V, S>, app: Application<V, S>)
    requires Grows(h, h1, i) && Core(h, n, app) && n.config.id != i
    ensures Core(h1, n, app)
  {
    hide Fixed, Retains, Committed;
    DurableStable(h, h1, i, n.config.id, n.state, app);
    forall j ensures Ack(h, n.state.hard.term, j) <= Ack(h1, n.state.hard.term, j) {
      AckStable(h, h1, i, n.state.hard.term, j);
    }
  }

  lemma SimStable<V, S>(h: History<V>, h1: History<V>, i: Id, n: Node<V, S>, app: Application<V, S>)
    requires Grows(h, h1, i) && Sim(h, n, app) && n.config.id != i
    ensures Sim(h1, n, app)
  {
    hide Fixed, Retains, Committed;
    CoreStable(h, h1, i, n, app);
    AckStable(h, h1, i, n.state.hard.term, n.config.id);
  }

  // ---- The checkpoint and the full log.

  ghost predicate Numbered<V>(log: Log<V>) {
    forall k | 0 <= k < |log| :: log[k].id.index == k + 1
  }

  /** Reading the checkpoint is reading the full log from the base on. */
  lemma IdAtLog<V, S>(log: Log<V>, s: Checkpoint<V, S>, app: Application<V, S>, index: U64)
    requires Retains(log, s, app) && Numbered(log)
    ensures Base(s) == IdOf(log, Base(s).index) && |s.entries| == |log| - Base(s).index
    ensures Last(s) == LastOf(log)
    ensures IdAt(s, index) == if Base(s).index <= index <= |log| then Some(IdOf(log, index)) else None
    ensures Get(s, index) == if Base(s).index < index <= |log| then Some(log[index - 1]) else None
    ensures Last(s).index == |log| <= MAX_U64
  {
  }
}
