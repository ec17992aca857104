/**
 * One Raft node (jarl/src/node.rs) as a value, and every operation as a function of it.
 * N is the number of peer slots, `cap` the number of log slots. `hooks` is None for the
 * fixed-voter engine and Some for the engine behind Cluster.
 */
module NodeModel {
  import opened Types
  import opened Checkpoints
  import opened Memberships
  import opened QuorumIndexes

  /** `jitter` mixes the generator state into a sample; the source uses SplitMix64. */
  datatype Config = Config(
    id: Id, members: seq<Id>, heartbeatTicks: U64, electionTicks: U64, seed: U64, jitter: U64 -> U64)

  datatype Outbound =
    | SendPreVote(campaign: U64)
    | SendPreVoted(campaign: U64, granted: bool)
    | SendVote
    | SendVoted(granted: bool)
    | SendReplicate
    | SendReplicated(index: U64, rejection: Option<Rejection>)

  datatype Hooks<!V, !S> = Hooks(record: V -> Option<Membership>, snapshot: S -> Membership)

  datatype Node<!V, !S> = Node(
    config: Config,
    cap: nat,
    hooks: Option<Hooks<V, S>>,
    bootstrap: Membership,
    state: Checkpoint<V, S>,
    role: Role,
    leader: Option<Id>,
    local: nat,
    membership: Membership,
    peers: seq<Option<Id>>,
    votes: seq<bool>,
    next: seq<U64>,
    matched: seq<U64>,
    active: seq<bool>,
    outbox: seq<Option<Outbound>>,
    extraReply: Option<(Id, Outbound)>,
    requestFrom: Option<Id>,
    dirty: bool,
    logFrom: Option<U64>,
    snapshotChanged: bool,
    elapsed: U64,
    electionDeadline: U64,
    random: U64,
    prevoting: Option<U64>,
    leaderAge: U64,
    quorumElapsed: U64)

  /** The parallel arrays all have N slots. */
  predicate Sized<V, S>(n: Node<V, S>) {
    && |n.votes| == |n.peers| && |n.next| == |n.peers| && |n.matched| == |n.peers|
    && |n.active| == |n.peers| && |n.outbox| == |n.peers| && n.local <= |n.peers|
  }

  /** What no operation ever changes. */
  ghost predicate Same<V, S>(n: Node<V, S>, r: Node<V, S>) {
    && r.config == n.config && r.cap == n.cap && r.hooks == n.hooks && r.bootstrap == n.bootstrap
    && |r.peers| == |n.peers|
  }

  /** An operation's result: the new node, and the error it reported, if any. */
  datatype Outcome<!V, !S> = Outcome(node: Node<V, S>, error: Option<Error>)

  // ---- Slots.

  function PositionOf(peers: seq<Option<Id>>, id: Id): (r: nat)
    ensures r <= |peers|
    ensures r < |peers| ==> peers[r] == Some(id)
    ensures forall k | 0 <= k < r :: peers[k] != Some(id)
  {
    if peers == [] || peers[0] == Some(id) then 0 else 1 + PositionOf(peers[1..], id)
  }

  /** Per-slot flags and positions, looked up by identity. */
  function FlagAt(peers: seq<Option<Id>>, flags: seq<bool>): Id -> bool {
    id => var i := PositionOf(peers, id); i < |flags| && i < |peers| && flags[i]
  }

  function PositionAt(peers: seq<Option<Id>>, positions: seq<U64>): Id -> U64 {
    id => var i := PositionOf(peers, id); if i < |peers| && i < |positions| then positions[i] else 0
  }

  function SelfOr(self: Id, flag: Id -> bool): Id -> bool {
    id => id == self || flag(id)
  }

  predicate PeerWhere<V, S>(n: Node<V, S>, flags: seq<bool>, id: Id) {
    FlagAt(n.peers, flags)(id)
  }

  function MatchedOf<V, S>(n: Node<V, S>, id: Id): U64 {
    PositionAt(n.peers, n.matched)(id)
  }

  function MatchedBy<V, S>(n: Node<V, S>): Id -> U64 {
    PositionAt(n.peers, n.matched)
  }

  function VotedBy<V, S>(n: Node<V, S>): Id -> bool {
    FlagAt(n.peers, n.votes)
  }

  predicate ElectionQuorum<V, S>(n: Node<V, S>) {
    Quorum(n.membership, VotedBy(n))
  }

  predicate ActiveQuorum<V, S>(n: Node<V, S>) {
    Quorum(n.membership, SelfOr(n.config.id, FlagAt(n.peers, n.active)))
  }

  predicate Available<V, S>(n: Node<V, S>) {
    !n.dirty && n.extraReply.None? && forall p | 0 <= p < |n.outbox| :: n.outbox[p].None?
  }

  function Filled<T>(n: nat, x: T): (s: seq<T>)
    ensures |s| == n && forall p | 0 <= p < n :: s[p] == x
  {
    seq(n, _ => x)
  }

  function Sent<V, S>(n: Node<V, S>, peer: nat, out: Outbound): Node<V, S>
    requires Sized(n)
  {
    if peer >= |n.peers| then
      if n.requestFrom.Some? then n.(extraReply := Some((n.requestFrom.value, out))) else n
    else n.(outbox := n.outbox[peer := Some(out)])
  }

  /** Fill the outbox slot of every remote peer that passes the test. */
  function SentToAll<V, S>(n: Node<V, S>, wanted: Id -> bool, out: Outbound): Node<V, S>
    requires Sized(n)
  {
    n.(outbox := seq(|n.peers|, p requires 0 <= p < |n.peers| && Sized(n) =>
      if p != n.local && n.peers[p].Some? && wanted(n.peers[p].value) then Some(out) else n.outbox[p]))
  }

  function MembersOf(m: Membership): Id -> bool { id => Contains(m, id) }

  function VotersOf(m: Membership): Id -> bool { id => IsVoter(m, id) }

  function Broadcast<V, S>(n: Node<V, S>): Node<V, S>
    requires Sized(n)
  {
    SentToAll(n, MembersOf(n.membership), SendReplicate)
  }

  // ---- Timers.

  function ResetElection<V, S>(n: Node<V, S>): Node<V, S>
    requires 0 < n.config.electionTicks <= MAX_U64 / 2
  {
    var random := (n.random + 0x9e37_79b9_7f4a_7c15) % (MAX_U64 + 1);
    n.(random := random,
       electionDeadline := n.config.electionTicks + n.config.jitter(random) % n.config.electionTicks,
       elapsed := 0)
  }

  predicate Timed<V, S>(n: Node<V, S>) {
    0 < n.config.heartbeatTicks < n.config.electionTicks <= MAX_U64 / 2
  }

  function Followed<V, S>(n: Node<V, S>, leader: Option<Id>): Node<V, S>
    requires Timed(n)
  {
    ResetElection(n.(role := Follower, prevoting := None, leader := leader,
                     leaderAge := if leader.Some? then 0 else n.leaderAge))
  }

  // ---- Membership in force.

  function LastRecord<V, S>(
    entries: seq<Entry<V>>, index: U64, hooks: Hooks<V, S>, found: (U64, Membership)): (U64, Membership)
  {
    if entries == [] || entries[0].id.index > index then found
    else
      var e := entries[0];
      var m := if e.value.Some? then hooks.record(e.value.value) else None;
      LastRecord(entries[1..], index, hooks, if m.Some? then (e.id.index, m.value) else found)
  }

  function MembershipAt<V, S>(n: Node<V, S>, index: U64): (U64, Membership) {
    if n.hooks.None? then (0, n.bootstrap)
    else
      LastRecord(n.state.entries, index, n.hooks.value,
        if n.state.snapshot.None? then (0, n.bootstrap)
        else (n.state.snapshot.value.last.index, n.hooks.value.snapshot(n.state.snapshot.value.value)))
  }

  /** The first slot that is empty or holds someone outside the membership. */
  function FreeSlot(peers: seq<Option<Id>>, m: Membership): (r: nat)
    ensures r <= |peers|
    ensures r < |peers| ==> peers[r].None? || !Contains(m, peers[r].value)
    ensures forall k | 0 <= k < r :: peers[k].Some? && Contains(m, peers[k].value)
  {
    if peers == [] || peers[0].None? || !Contains(m, peers[0].value) then 0
    else 1 + FreeSlot(peers[1..], m)
  }

  /** Seat one member; a full table cannot happen for a membership that fits. */
  function Seated<V, S>(n: Node<V, S>, id: Id): Node<V, S>
    requires Sized(n)
  {
    var slot := FreeSlot(n.peers, n.membership);
    if Some(id) in n.peers || slot == |n.peers| then n
    else
      n.(peers := n.peers[slot := Some(id)],
         votes := n.votes[slot := false],
         active := n.active[slot := false],
         next := n.next[slot := 1],
         matched := n.matched[slot := 0],
         outbox := n.outbox[slot := None])
  }

  function SeatAll<V, S>(n: Node<V, S>, from: nat): (r: Node<V, S>)
    requires Sized(n)
    ensures Sized(r) && Same(n, r)
    decreases |n.membership.slots| - from
  {
    if from >= |n.membership.slots| then n
    else if n.membership.slots[from].None? then SeatAll(n, from + 1)
    else SeatAll(Seated(n, n.membership.slots[from].value.id), from + 1)
  }

  function Refreshed<V, S>(n: Node<V, S>): (r: Node<V, S>)
    requires Sized(n) && Timed(n)
    ensures Sized(r) && Same(n, r)
  {
    var at := MembershipAt(n, Last(n.state).index);
    var seated := SeatAll(n.(membership := at.1), 0);
    var placed := seated.(local := PositionOf(seated.peers, n.config.id));
    if placed.role == Leader && !IsVoter(placed.membership, placed.config.id) && at.0 <= placed.state.hard.commit
    then Followed(placed, None)
    else placed
  }

  // ---- Commitment and the log.

  function CommitTo<V, S>(n: Node<V, S>, index: U64): (r: Node<V, S>)
    requires Sized(n) && Timed(n)
    ensures Sized(r) && Same(n, r)
  {
    if index > n.state.hard.commit
    then Refreshed(n.(state := n.state.(hard := n.state.hard.(commit := index)), dirty := true))
    else n
  }

  function QuorumMatched<V, S>(n: Node<V, S>): U64
    requires Sized(n)
  {
    QuorumIndex(n.membership, MatchedBy(n))
  }

  predicate MayCommit<V, S>(n: Node<V, S>)
    requires Sized(n)
  {
    var index := QuorumMatched(n);
    && index > n.state.hard.commit
    && IdAt(n.state, index).Some? && IdAt(n.state, index).value.term == n.state.hard.term
  }

  function AdvanceCommit<V, S>(n: Node<V, S>): (r: Node<V, S>)
    requires Sized(n) && Timed(n)
    ensures Sized(r) && Same(n, r)
  {
    if MayCommit(n) then CommitTo(n, QuorumMatched(n)) else n
  }

  function MatchedSelf<V, S>(n: Node<V, S>, index: U64): Node<V, S>
    requires Sized(n)
  {
    if n.local < |n.peers| then n.(matched := n.matched[n.local := index]) else n
  }

  function Barrier<V, S>(n: Node<V, S>): (r: Node<V, S>)
    requires Sized(n) && Timed(n)
    ensures Sized(r) && Same(n, r)
  {
    var last := Last(n.state);
    if last.term == n.state.hard.term || |n.state.entries| >= n.cap || last.index == MAX_U64 then n
    else
      var id := LogId(last.index + 1, n.state.hard.term);
      AdvanceCommit(MatchedSelf(
        n.(state := Pushed(n.state, Entry(id, None)), dirty := true, logFrom := Some(id.index)),
        id.index))
  }

  // ---- Elections.

  function BecomeLeader<V, S>(n: Node<V, S>): (r: Node<V, S>)
    requires Sized(n) && Timed(n)
    ensures Sized(r) && Same(n, r)
  {
    var last := Last(n.state).index;
    Broadcast(Barrier(MatchedSelf(
      n.(quorumElapsed := 0,
         active := Filled<bool>(|n.peers|, false),
         role := Leader,
         leader := Some(n.config.id),
         elapsed := 0,
         next := Filled<U64>(|n.peers|, SaturatingInc(last)),
         matched := Filled<U64>(|n.peers|, 0)),
      last)))
  }

  function SelfVote<V, S>(n: Node<V, S>): Node<V, S>
    requires Sized(n)
  {
    var none: seq<bool> := Filled<bool>(|n.peers|, false);
    n.(votes := if n.local < |n.peers| then none[n.local := true] else none)
  }

  function Campaign<V, S>(n: Node<V, S>, term: U64): (r: Node<V, S>)
    requires Sized(n) && Timed(n)
    ensures Sized(r) && Same(n, r)
  {
    var c := ResetElection(SelfVote(
      n.(prevoting := None,
         state := n.state.(hard := n.state.hard.(term := term, votedFor := Some(n.config.id))),
         dirty := true,
         role := Candidate,
         leader := None)));
    if ElectionQuorum(c) then BecomeLeader(c)
    else SentToAll(c, VotersOf(c.membership), SendVote)
  }

  function Probe<V, S>(n: Node<V, S>, term: U64): (r: Node<V, S>)
    requires Sized(n) && Timed(n)
    ensures Sized(r) && Same(n, r)
  {
    var p := ResetElection(SelfVote(n.(role := Follower, prevoting := Some(term))));
    if ElectionQuorum(p) then Campaign(p, term)
    else SentToAll(p, VotersOf(p.membership), SendPreVote(term))
  }

  // ---- tick.

  function Ticked<V, S>(n: Node<V, S>): Node<V, S> {
    n.(elapsed := SaturatingInc(n.elapsed), leaderAge := SaturatingInc(n.leaderAge))
  }

  function TickTimers<V, S>(n: Node<V, S>): (r: Outcome<V, S>)
    requires Sized(n) && Timed(n)
    ensures Sized(r.node) && Same(n, r.node)
  {
    if n.role == Leader then
      if n.elapsed >= n.config.heartbeatTicks
      then Outcome(Broadcast(Barrier(n.(elapsed := 0))), None)
      else Outcome(n, None)
    else if IsVoter(n.membership, n.config.id) && n.elapsed >= n.electionDeadline then
      if n.state.hard.term == MAX_U64 then Outcome(n, Some(Exhausted))
      else
        var term := n.state.hard.term + 1;
        Outcome(if n.hooks.Some? then Probe(n, term) else Campaign(n, term), None)
    else Outcome(n, None)
  }

  function Tick<V, S>(n: Node<V, S>): (r: Outcome<V, S>)
    requires Sized(n) && Timed(n)
    ensures Sized(r.node) && Same(n, r.node)
  {
    if !Available(n) then Outcome(n, Some(Busy))
    else
      var t := Ticked(n);
      if t.hooks.Some? && t.role == Leader then
        var q := t.(quorumElapsed := SaturatingInc(t.quorumElapsed));
        if q.quorumElapsed >= q.config.electionTicks then
          var reset := q.(quorumElapsed := 0, active := Filled<bool>(|q.peers|, false));
          if ActiveQuorum(q) then TickTimers(reset)
          else Outcome(Followed(reset, None), None)
        else TickTimers(q)
      else TickTimers(t)
  }

  // ---- Validation.

  predicate ValidId(id: LogId, term: U64) {
    id == GENESIS || (id.index > 0 && id.term > 0 && id.term <= term)
  }

  predicate ValidNext(previous: LogId, id: LogId, term: U64) {
    ValidId(id, term) && previous.index + 1 == id.index && id.term >= previous.term
  }

  /** Occupied slots form a prefix of consecutive entries. */
  predicate ValidBatch<V>(previous: LogId, entries: seq<Option<Entry<V>>>, term: U64)
    decreases |entries|
  {
    entries == [] ||
    if entries[0].None? then forall k | 0 <= k < |entries| :: entries[k].None?
    else ValidNext(previous, entries[0].value.id, term) && ValidBatch(entries[0].value.id, entries[1..], term)
  }

  predicate ValidMessage<V, S>(m: Message<V, S>) {
    match m
    case PreVoted(_, campaign, _) => campaign > 0
    case PreVote(term, last) => term > 0 && ValidId(last, term)
    case Vote(term, last) => term > 0 && ValidId(last, term)
    case Append(term, previous, entry, _) =>
      term > 0 && ValidId(previous, term) && (entry.Some? ==> ValidNext(previous, entry.value.id, term))
    case AppendBatch(term, previous, entries, _) =>
      && term > 0 && ValidId(previous, term)
      && |entries| == MAX_APPEND_ENTRIES && entries[0].Some?
      && ValidBatch(previous, entries, term)
    case Install(term, snapshot) => term > 0 && snapshot.last.index > 0 && ValidId(snapshot.last, term)
    case Replicated(term, _, rejection) =>
      term > 0 && (rejection.Some? && rejection.value.Conflict? ==> rejection.value.next > 0)
    case Voted(term, _) => term > 0
  }

  // ---- Replication, follower side.

  /** The result of Node::append: the node, the index and the rejection to answer with. */
  datatype Reply<!V, !S> = Reply(node: Node<V, S>, index: U64, rejection: Option<Rejection>)

  function Retry<V, S>(s: Checkpoint<V, S>, previous: LogId): U64 {
    if previous.index < Base(s).index then SaturatingInc(Base(s).index)
    else Max(Min(previous.index, SaturatingInc(Last(s).index)), 1)
  }

  function Appended<V, S>(n: Node<V, S>, previous: LogId, entry: Option<Entry<V>>, commit: U64): (r: Reply<V, S>)
    requires Sized(n) && Timed(n)
    ensures Sized(r.node) && Same(n, r.node)
  {
    if IdAt(n.state, previous.index) != Some(previous) then
      Reply(n, previous.index, Some(Conflict(Retry(n.state, previous))))
    else if entry.None? then Reply(CommitTo(n, Min(commit, previous.index)), previous.index, None)
    else
      var e := entry.value;
      if IdAt(n.state, e.id.index) == Some(e.id) then
        Reply(CommitTo(n, Min(commit, e.id.index)), e.id.index, None)
      else if e.id.index <= n.state.hard.commit then
        Reply(n, previous.index, Some(Conflict(e.id.index)))
      else if |n.state.entries| >= n.cap && e.id.index > Last(n.state).index then
        Reply(CommitTo(n, Min(commit, previous.index)), previous.index, Some(NoRoom))
      else if |Truncated(n.state, e.id.index).entries| >= n.cap then
        Reply(n.(state := Truncated(n.state, e.id.index)), previous.index, Some(NoRoom))
      else
        var p := Refreshed(n.(state := Pushed(Truncated(n.state, e.id.index), e)));
        var q := p.(dirty := true,
                    logFrom := Some(if p.logFrom.None? then e.id.index else Min(p.logFrom.value, e.id.index)));
        Reply(CommitTo(q, Min(commit, e.id.index)), e.id.index, None)
  }

  function BatchFrom<V, S>(
    n: Node<V, S>, previous: LogId, entries: seq<Option<Entry<V>>>, commit: U64,
    accepted: bool, answer: (U64, Option<Rejection>)): (r: Reply<V, S>)
    requires Sized(n) && Timed(n)
    ensures Sized(r.node) && Same(n, r.node)
    decreases |entries|
  {
    if entries == [] then Reply(n, answer.0, answer.1)
    else if entries[0].None? then BatchFrom(n, previous, entries[1..], commit, accepted, answer)
    else
      var r := Appended(n, previous, entries[0], commit);
      if r.rejection.Some? then
        if accepted then Reply(r.node, answer.0, answer.1) else r
      else BatchFrom(r.node, entries[0].value.id, entries[1..], commit, true, (r.index, None))
  }

  function InstalledBy<V, S>(n: Node<V, S>, snapshot: Snapshot<S>): (r: Reply<V, S>)
    requires Sized(n) && Timed(n)
    ensures Sized(r.node) && Same(n, r.node)
  {
    var at := IdAt(n.state, snapshot.last.index);
    if snapshot.last.index <= n.state.hard.commit && at.Some? && at.value != snapshot.last then
      Reply(n, snapshot.last.index, Some(Conflict(SaturatingInc(Base(n.state).index))))
    else if snapshot.last.index > Base(n.state).index
            && (snapshot.last.index > n.state.hard.commit || at == Some(snapshot.last)) then
      var logFrom := if at != Some(snapshot.last) then CheckedInc(snapshot.last.index) else n.logFrom;
      var i := Refreshed(n.(logFrom := logFrom, state := Installed(n.state, snapshot)));
      Reply(i.(snapshotChanged := true, dirty := true), snapshot.last.index, None)
    else Reply(n, snapshot.last.index, None)
  }

  // ---- Replication, leader side.

  function Clamp(x: U64, low: U64, high: U64): U64 {
    if x < low then low else if x > high then high else x
  }

  function ReplicatedBy<V, S>(n: Node<V, S>, peer: nat, index: U64, rejection: Option<Rejection>): (r: Node<V, S>)
    requires Sized(n) && Timed(n) && peer < |n.peers|
    ensures Sized(r) && Same(n, r)
  {
    var a := n.(active := n.active[peer := true]);
    var last := Last(a.state).index;
    if index > last then a
    else if rejection.None? then
      if index <= a.matched[peer] then a
      else
        var m := a.(matched := a.matched[peer := index],
                    next := a.next[peer := Max(a.next[peer], SaturatingInc(index))]);
        if MayCommit(m) then Broadcast(AdvanceCommit(m))
        else if index < last then Sent(m, peer, SendReplicate)
        else m
    else if rejection.value.Conflict? then
      if index >= a.matched[peer] && index + 1 == a.next[peer] then
        Sent(a.(next := a.next[peer :=
               Clamp(rejection.value.next, SaturatingInc(a.matched[peer]), SaturatingInc(last))]),
             peer, SendReplicate)
      else a
    else a
  }

  // ---- step.

  predicate AnswersStrangers<V, S>(m: Message<V, S>) {
    m.Vote? || m.PreVote? || m.Append? || m.AppendBatch? || m.Install?
  }

  function Observed<V, S>(n: Node<V, S>, term: U64): Node<V, S>
    requires Timed(n)
  {
    if term > n.state.hard.term
    then Followed(n.(state := n.state.(hard := n.state.hard.(term := term, votedFor := None)), dirty := true), None)
    else n
  }

  function StaleAnswer<V, S>(n: Node<V, S>, peer: nat, m: Message<V, S>): Node<V, S>
    requires Sized(n)
  {
    match m
    case Vote(_, _) => Sent(n, peer, SendVoted(false))
    case Append(_, previous, _, _) => Sent(n, peer, SendReplicated(previous.index, Some(Conflict(1))))
    case AppendBatch(_, previous, _, _) => Sent(n, peer, SendReplicated(previous.index, Some(Conflict(1))))
    case Install(_, snapshot) => Sent(n, peer, SendReplicated(snapshot.last.index, Some(Conflict(1))))
    case _ => n
  }

  function PreVoteAnswer<V, S>(n: Node<V, S>, peer: nat, term: U64, last: LogId): Node<V, S>
    requires Sized(n)
  {
    var granted :=
      && term > n.state.hard.term && n.role != Leader
      && n.leaderAge >= n.config.electionTicks
      && AtLeastAsUpToDate(last, Last(n.state));
    Sent(n, peer, SendPreVoted(term, granted))
  }

  function Polled<V, S>(n: Node<V, S>, peer: nat, campaign: U64, granted: bool): (r: Node<V, S>)
    requires Sized(n) && Timed(n)
    ensures Sized(r) && Same(n, r)
  {
    if n.prevoting == Some(campaign) && granted && peer < |n.peers| then
      var v := n.(votes := n.votes[peer := true]);
      if ElectionQuorum(v) then Campaign(v, campaign) else v
    else n
  }

  function VoteAnswer<V, S>(n: Node<V, S>, peer: nat, from: Id, last: LogId): (r: Node<V, S>)
    requires Sized(n) && Timed(n)
    ensures Sized(r) && Same(n, r)
  {
    var granted :=
      && (n.state.hard.votedFor.None? || n.state.hard.votedFor == Some(from))
      && AtLeastAsUpToDate(last, Last(n.state));
    var v :=
      if granted && n.state.hard.votedFor != Some(from)
      then n.(state := n.state.(hard := n.state.hard.(votedFor := Some(from))), dirty := true)
      else n;
    Sent(if granted then ResetElection(v) else v, peer, SendVoted(granted))
  }

  function VoteCounted<V, S>(n: Node<V, S>, peer: nat, granted: bool): (r: Node<V, S>)
    requires Sized(n) && Timed(n)
    ensures Sized(r) && Same(n, r)
  {
    if n.role == Candidate && granted && peer < |n.peers| then
      var v := n.(votes := n.votes[peer := true]);
      if ElectionQuorum(v) then BecomeLeader(v) else v
    else n
  }

  function Answered<V, S>(r: Reply<V, S>, peer: nat): Node<V, S>
    requires Sized(r.node)
  {
    Sent(r.node, peer, SendReplicated(r.index, r.rejection))
  }

  /** A message of the node's own term. */
  function Current<V, S>(n: Node<V, S>, peer: nat, from: Id, m: Message<V, S>): (r: Node<V, S>)
    requires Sized(n) && Timed(n)
    ensures Sized(r) && Same(n, r)
  {
    match m
    case Vote(_, last) => VoteAnswer(n, peer, from, last)
    case Voted(_, granted) => VoteCounted(n, peer, granted)
    case Append(_, previous, entry, commit) =>
      Answered(Appended(Followed(n, Some(from)), previous, entry, commit), peer)
    case AppendBatch(_, previous, entries, commit) =>
      Answered(BatchFrom(Followed(n, Some(from)), previous, entries, commit, false, (previous.index, None)), peer)
    case Install(_, snapshot) => Answered(InstalledBy(Followed(n, Some(from)), snapshot), peer)
    case Replicated(_, index, rejection) =>
      if n.role == Leader && peer < |n.peers| then ReplicatedBy(n, peer, index, rejection) else n
    case _ => n
  }

  /** After any newer term has been observed. */
  function Settled<V, S>(o: Node<V, S>, peer: nat, from: Id, m: Message<V, S>): (r: Node<V, S>)
    requires Sized(o) && Timed(o)
    ensures Sized(r) && Same(o, r)
  {
    if m.PreVoted? then Polled(o, peer, m.campaign, m.granted)
    else if m.term < o.state.hard.term then StaleAnswer(o, peer, m)
    else Current(o, peer, from, m)
  }

  function Received<V, S>(n: Node<V, S>, peer: nat, from: Id, m: Message<V, S>): (r: Node<V, S>)
    requires Sized(n) && Timed(n)
    ensures Sized(r) && Same(n, r)
  {
    if m.PreVote? then PreVoteAnswer(n, peer, m.term, m.last)
    else if n.hooks.Some? && m.Vote? && (n.role == Leader || n.leaderAge < n.config.electionTicks) then n
    else Settled(Observed(n, m.term), peer, from, m)
  }

  predicate Accepts<V, S>(n: Node<V, S>, e: Envelope<V, S>) {
    && (PositionOf(n.peers, e.from) < |n.peers| || (n.hooks.Some? && AnswersStrangers(e.message)))
    && e.from != n.config.id && e.to == n.config.id
    && ValidMessage(e.message)
  }

  function Step<V, S>(n: Node<V, S>, e: Envelope<V, S>): (r: Outcome<V, S>)
    requires Sized(n) && Timed(n)
    ensures Sized(r.node) && Same(n, r.node)
  {
    if !Available(n) then Outcome(n, Some(Busy))
    else if !Accepts(n, e) then Outcome(n, Some(Error.Message))
    else
      Outcome(Received(n.(requestFrom := Some(e.from)), PositionOf(n.peers, e.from), e.from, e.message), None)
  }

  // ---- Proposals and compaction.

  function Batch<V>(values: seq<V>, first: LogId): seq<Entry<V>>
    requires first.index + |values| <= MAX_U64 + 1
  {
    seq(|values|, k requires 0 <= k < |values| && first.index + |values| <= MAX_U64 + 1 =>
      Entry(LogId(first.index + k, first.term), Some(values[k])))
  }

  function ProposalError<V, S>(n: Node<V, S>, count: nat): Option<Error> {
    if !Available(n) then Some(Busy)
    else if n.role != Leader then Some(NotLeader(n.leader))
    else if count == 0 then Some(Error.Config)
    else if |n.state.entries| + count > n.cap then Some(Full)
    else if Last(n.state).index + count > MAX_U64 then Some(Exhausted)
    else None
  }

  function ProposeMany<V, S>(n: Node<V, S>, values: seq<V>): (r: Outcome<V, S>)
    requires Sized(n) && Timed(n)
    ensures Sized(r.node) && Same(n, r.node)
  {
    var error := ProposalError(n, |values|);
    if error.Some? then Outcome(n, error)
    else
      var first := LogId(Last(n.state).index + 1, n.state.hard.term);
      var p := Refreshed(
        n.(state := n.state.(entries := n.state.entries + Batch(values, first)),
           dirty := true,
           logFrom := Some(first.index)));
      Outcome(Broadcast(AdvanceCommit(MatchedSelf(p, first.index + |values| - 1))), None)
  }

  function Compact<V, S>(n: Node<V, S>, index: U64, value: S): (r: Outcome<V, S>)
    requires Sized(n) && Timed(n)
    ensures Sized(r.node) && Same(n, r.node)
  {
    if !Available(n) then Outcome(n, Some(Busy))
    else if index <= Base(n.state).index || index > n.state.hard.commit || IdAt(n.state, index).None?
    then Outcome(n, Some(NotCommitted))
    else
      var c := n.(state := Installed(n.state, Snapshot(IdAt(n.state, index).value, value)),
                  dirty := true, snapshotChanged := true);
      Outcome(if c.role == Leader then Broadcast(Barrier(c)) else c, None)
  }

  // ---- Output.

  function BatchAt<V, S>(n: Node<V, S>, first: U64): seq<Option<Entry<V>>> {
    seq(MAX_APPEND_ENTRIES, k requires 0 <= k =>
      if first + k > MAX_U64 then None else Get(n.state, first + k))
  }

  function Rendered<V, S>(n: Node<V, S>, peer: nat, out: Outbound): Option<Message<V, S>>
    requires Sized(n)
  {
    var term := n.state.hard.term;
    match out
    case SendPreVote(campaign) => Some(PreVote(campaign, Last(n.state)))
    case SendPreVoted(campaign, granted) => Some(PreVoted(term, campaign, granted))
    case SendVote => Some(Vote(term, Last(n.state)))
    case SendVoted(granted) => Some(Voted(term, granted))
    case SendReplicated(index, rejection) => Some(Replicated(term, index, rejection))
    case SendReplicate =>
      if peer >= |n.peers| then None
      else if n.next[peer] <= Base(n.state).index then
        if n.state.snapshot.None? then None else Some(Install(term, n.state.snapshot.value))
      else if n.next[peer] == 0 then None
      else
        var previous := IdAt(n.state, n.next[peer] - 1);
        if previous.None? then None
        else if n.hooks.Some? && n.next[peer] < MAX_U64 && Get(n.state, n.next[peer] + 1).Some? then
          Some(AppendBatch(term, previous.value, BatchAt(n, n.next[peer]), n.state.hard.commit))
        else
          Some(Append(term, previous.value, Get(n.state, n.next[peer]), n.state.hard.commit))
  }

  /** The first occupied outbox slot, or N. */
  function FirstOccupied(outbox: seq<Option<Outbound>>): (r: nat)
    ensures r <= |outbox|
    ensures r < |outbox| ==> outbox[r].Some?
    ensures forall k | 0 <= k < r :: outbox[k].None?
  {
    if outbox == [] || outbox[0].Some? then 0 else 1 + FirstOccupied(outbox[1..])
  }

  function Enveloped<V, S>(n: Node<V, S>, to: Id, m: Option<Message<V, S>>): Option<Envelope<V, S>> {
    if m.None? then None else Some(Envelope(n.config.id, to, m.value))
  }

  function NextMessage<V, S>(n: Node<V, S>): (r: (Node<V, S>, Option<Envelope<V, S>>))
    requires Sized(n)
    ensures Sized(r.0) && Same(n, r.0)
  {
    var p := FirstOccupied(n.outbox);
    if n.dirty then (n, None)
    else if p < |n.peers| then
      if n.peers[p].None? then (n, None)
      else
        var taken := n.(outbox := n.outbox[p := None]);
        (taken, Enveloped(taken, n.peers[p].value, Rendered(taken, p, n.outbox[p].value)))
    else if n.extraReply.None? then (n, None)
    else
      var taken := n.(extraReply := None);
      (taken, Enveloped(taken, n.extraReply.value.0, Rendered(taken, |n.peers|, n.extraReply.value.1)))
  }

  function Persisted<V, S>(n: Node<V, S>): Node<V, S> {
    n.(dirty := false, logFrom := None, snapshotChanged := false)
  }

  // ---- Construction.

  predicate Configured(c: Config) {
    0 < c.heartbeatTicks < c.electionTicks <= MAX_U64 / 2
  }

  function Built<V, S>(
    config: Config, cap: nat, state: Checkpoint<V, S>, membership: Membership, hooks: Option<Hooks<V, S>>)
    : (r: Node<V, S>)
    requires Configured(config)
    ensures Sized(r) && Timed(r) && r.config == config && r.cap == cap && r.hooks == hooks
  {
    var peers := Peers(membership);
    var n := |peers|;
    ResetElection(Refreshed(Node(
      config, cap, hooks, membership, state, Follower, None, PositionOf(peers, config.id), membership, peers,
      Filled<bool>(n, false), Filled<U64>(n, 1), Filled<U64>(n, 0), Filled<bool>(n, false),
          Filled<Option<Outbound>>(n, None), None, None,
      false, None, false, 0, 0, config.seed, None, MAX_U64, 0)))
  }

  /** Anything a host can ask of a node. */
  datatype Operation<+V, +S> =
    | OpTick
    | OpStep(envelope: Envelope<V, S>)
    | OpPropose(values: seq<V>)
    | OpCompact(index: U64, value: S)

  function Operate<V, S>(n: Node<V, S>, op: Operation<V, S>): (r: Outcome<V, S>)
    requires Sized(n) && Timed(n)
    ensures Sized(r.node) && Same(n, r.node)
  {
    match op
    case OpTick => Tick(n)
    case OpStep(envelope) => Step(n, envelope)
    case OpPropose(values) => ProposeMany(n, values)
    case OpCompact(index, value) => Compact(n, index, value)
  }
}
