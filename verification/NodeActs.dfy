/**
 * The whole of a node's behaviour, said without the functions that compute it: which of
 * the acts of the preceding modules each operation performs, and which error it reports.
 */
module NodeActs {
  import opened Types
  import opened Memberships
  import opened Checkpoints
  import opened NodeModel
  import opened LocalHistory
  import opened NodeHistory
  import opened SlotTables
  import opened DynamicNodes
  import opened DynamicOperations
  import opened HostRuns
  import opened Queues
  import opened LeaderActs
  import opened LeaderSteps
  import opened Ballots
  import opened Campaigns
  import opened FollowerActs
  import opened FollowerSteps
  import opened HandedOut
  import opened Clocks

  /** What the request does to the log, and the answer to it. */
  ghost predicate TakesRequest<V, S>(
    n: Node<V, S>, t: Checkpoint<V, S>, m: Message<V, S>, index: U64, rejection: Option<Rejection>)
  {
    match m
    case Append(term, previous, entry, commit) =>
      TakesEntry(LogSeen(n, term), n.cap, previous, entry, commit, t, index, rejection)
    case AppendBatch(term, previous, entries, commit) =>
      entries != [] && TakesBatch(LogSeen(n, term), n.cap, previous, entries, commit, t, index, rejection)
    case Install(term, snapshot) => TakesSnapshot(LogSeen(n, term), snapshot, t, index, rejection)
    case _ => false
  }

  /** A current request is taken as a follower, and answered; an old one is turned down. */
  ghost predicate HearsRequest<V, S>(n: Node<V, S>, r: Node<V, S>, from: Id, m: Message<V, S>)
    requires m.Append? || m.AppendBatch? || m.Install?
  {
    if m.term < n.state.hard.term then RefusesOld(n, r, from, m)
    else
      && FollowerSteps.Follows(r, from)
      && exists index: U64, rejection: Option<Rejection> ::
           TakesRequest(n, r.state, m, index, rejection) && Replies(n, r, from, SendReplicated(index, rejection))
  }

  /** What a message does. */
  ghost predicate StepActs<V, S>(n: Node<V, S>, e: Envelope<V, S>, r: Node<V, S>, error: Option<Error>) {
    r.leaderAge == AgeAfter(n, OpStep(e), error) &&
    if !AtRest(n) then error == Some(Busy) && r == n
    else if !Welcome(n, e) || !Delivered(n, e) then error == Some(Error.Message) && r == n
    else
      error.None? &&
      match e.message
      case PreVote(term, last) => AnswersProbe(n, r, e.from, term, last)
      case PreVoted(term, campaign, granted) => TakesGrant(n, r, e.from, term, campaign, granted)
      case Vote(term, last) =>
        if n.hooks.Some? && HasLeader(n) then r == n.(requestFrom := Some(e.from))
        else AnswersVote(n, r, e.from, term, last)
      case Voted(term, granted) => TakesVote(n, r, e.from, term, granted)
      case Replicated(term, index, rejection) =>
        var p := PositionOf(n.peers, e.from);
        if n.role == Leader && term == n.state.hard.term
        then Sized(n) && p < |n.peers| && TakesAnswer(n, r, p, index, rejection)
        else OnlyNotes(n, r, term)
      case _ => HearsRequest(n, r, e.from, e.message)
  }

  ghost predicate TickActs<V, S>(n: Node<V, S>, r: Node<V, S>, error: Option<Error>) {
    r.leaderAge == AgeAfter(n, OpTick, error) &&
    if !AtRest(n) then error == Some(Busy) && r == n
    else if n.role == Leader then error.None? && LeaderTicks(n, r)
    else WaiterTicks(n, r, error)
  }

  ghost predicate ProposeActs<V, S>(n: Node<V, S>, values: seq<V>, r: Node<V, S>, error: Option<Error>) {
    r.leaderAge == n.leaderAge &&
    if Admissible(n, |values|) then
      error.None? && Lands(n.state, r.state, values) && (n.prevoting.None? ==> Announces(n, r))
    else error.Some? && r == n && Refuses(n, |values|, error.value)
  }

  ghost predicate CompactActs<V(!new), S(!new)>(n: Node<V, S>, index: U64, value: S, r: Node<V, S>,
      error: Option<Error>) {
    r.leaderAge == n.leaderAge &&
    if !AtRest(n) then error == Some(Busy) && r == n
    else if !Foldable(n.state, index) then error == Some(NotCommitted) && r == n
    else error.None? && exists t :: Folds(n.state, t, index, value) && GoesOn(n, t, r)
  }

  ghost predicate Acts<V(!new), S(!new)>(n: Node<V, S>, op: Operation<V, S>, r: Node<V, S>, error: Option<Error>) {
    match op
    case OpTick => TickActs(n, r, error)
    case OpStep(e) => StepActs(n, e, r, error)
    case OpPropose(values) => ProposeActs(n, values, r, error)
    case OpCompact(index, value) => CompactActs(n, index, value, r, error)
  }

  /** A node as its host keeps it, whether or not something waits to be saved or sent. */
  ghost predicate WellKept<V(!new), S(!new)>(n: Node<V, S>) {
    Steady(n) && WellFormed(n.state) && Seating(n) && (AtRest(n) ==> Clean(n))
  }

  lemma KeptLeads<V(!new), S(!new)>(n: Node<V, S>)
    requires WellKept(n) && AtRest(n)
    ensures Rests(n) && Clean(n) && Listens(n) && (n.role == Leader ==> Leads(n))
  {
    hide WellFormed, Seating;
    RestsListens(n);
  }

  lemma RequestActs<V(!new), S(!new)>(n: Node<V, S>, e: Envelope<V, S>)
    requires Rests(n) && Clean(n) && Delivered(n, e) && Answerable(n, e.from)
    requires e.message.Append? || e.message.AppendBatch? || e.message.Install?
    ensures HearsRequest(n, Step(n, e).node, e.from, e.message)
  {
    hide Rests, Step, ValidMessage, TakesEntry, TakesBatch, TakesSnapshot, Replies, FollowerSteps.Follows, RefusesOld,
         LogSeen;
    RestsListens(n);
    if e.message.term < n.state.hard.term {
      OldRequestRefused(n, e);
    } else if e.message.Append? {
      var index, rejection := EntryHeard(n, e);
      assert TakesRequest(n, Step(n, e).node.state, e.message, index, rejection);
    } else if e.message.AppendBatch? {
      var index, rejection := BatchHeard(n, e);
      assert TakesRequest(n, Step(n, e).node.state, e.message, index, rejection);
    } else {
      var index, rejection := SnapshotHeard(n, e);
      assert TakesRequest(n, Step(n, e).node.state, e.message, index, rejection);
    }
  }

  lemma StepDoes<V(!new), S(!new)>(n: Node<V, S>, e: Envelope<V, S>)
    requires WellKept(n)
    ensures Sized(n) && Timed(n) && StepActs(n, e, Step(n, e).node, Step(n, e).error)
  {
    hide Rests, Leads, Step, ValidMessage, AtRest, AnswersVote, AnswersProbe, TakesGrant, TakesVote, TakesAnswer,
         OnlyNotes,
         HearsRequest, HasLeader, Listens;
    RefusedExactly(n, e);
    StepAge(n, e);
    if Step(n, e).error.None? {
      KeptLeads(n);
      hide WellKept;
      match e.message
      case PreVote(_, _) => ProbeAnswered(n, e);
      case PreVoted(_, _, _) => GrantTaken(n, e, PositionOf(n.peers, e.from));
      case Vote(_, _) =>
        if n.hooks.Some? && HasLeader(n) {
          VoteSuppressed(n, e);
        } else {
          VoteAnswered(n, e);
        }
      case Voted(_, _) => VoteTaken(n, e, PositionOf(n.peers, e.from));
      case Replicated(term, _, _) =>
        if n.role == Leader && term == n.state.hard.term {
          AnswerTaken(n, e, PositionOf(n.peers, e.from));
        } else {
          AnswerIgnored(n, e);
        }
      case _ => RequestActs(n, e);
    }
  }

  lemma TickDoes<V(!new), S(!new)>(n: Node<V, S>)
    requires WellKept(n)
    ensures Sized(n) && Timed(n) && TickActs(n, Tick(n).node, Tick(n).error)
  {
    hide Tick, AtRest, LeaderTicks, WaiterTicks, Rests, Leads;
    TickAge(n);
    if AtRest(n) {
      KeptLeads(n);
      hide WellKept;
      if n.role == Leader {
        TickLeads(n);
      } else {
        TickWaits(n);
      }
    } else {
      BusyTick(n);
    }
  }

  lemma BusyTick<V, S>(n: Node<V, S>)
    requires Sized(n) && Timed(n) && !AtRest(n)
    ensures Tick(n) == Outcome(n, Some(Busy))
  {
    RestIsAvailable(n);
  }

  /** A leader with distinct slots; that it has no probe under way is always so. */
  lemma ProposeDoes<V(!new), S(!new)>(n: Node<V, S>, values: seq<V>)
    requires Sized(n) && Timed(n) && SlotTables.Fits(n) && DistinctPeers(n.peers)
    ensures ProposeActs(n, values, ProposeMany(n, values).node, ProposeMany(n, values).error)
  {
    hide ProposeMany, Lands, Announces, SlotTables.Fits, DistinctPeers, AtRest;
    AdmittedExactly(n, values);
    ProposedAge(n, values);
    if Admissible(n, |values|) {
      ProposalLands(n, values);
      if n.prevoting.None? {
        ProposalAnnounced(n, values);
      }
    }
  }

  lemma TableOf<V(!new), S(!new)>(n: Node<V, S>)
    requires WellKept(n)
    ensures Sized(n) && Timed(n) && SlotTables.Fits(n) && DistinctPeers(n.peers)
  {
    hide WellFormed, SlotTables.Fits, DistinctPeers, InForce, AllSeated, AtRest;
  }

  lemma CompactDoes<V(!new), S(!new)>(n: Node<V, S>, index: U64, value: S)
    requires WellKept(n) && Attaches(n, OpCompact(index, value))
    ensures Sized(n) && Timed(n)
    ensures CompactActs(n, index, value, Compact(n, index, value).node, Compact(n, index, value).error)
  {
    hide Compact, Folds, GoesOn, WellFormed, Seating, AtRest, Attaches, Foldable;
    FoldedExactly(n, index, value);
    CompactedAge(n, index, value);
    if AtRest(n) && Foldable(n.state, index) {
      var t := FoldActs(n, index, value);
    }
  }

  /** Everything a host can ask of a node does what Acts says. */
  lemma OperateActs<V(!new), S(!new)>(n: Node<V, S>, op: Operation<V, S>)
    requires WellKept(n) && Attaches(n, op)
    ensures Sized(n) && Timed(n) && Acts(n, op, Operate(n, op).node, Operate(n, op).error)
  {
    hide WellKept, Tick, Step, ProposeMany, Compact, TickActs, StepActs, ProposeActs, CompactActs, Attaches;
    TableOf(n);
    match op
    case OpTick => TickDoes(n);
    case OpStep(e) => StepDoes(n, e);
    case OpPropose(values) => ProposeDoes(n, values);
    case OpCompact(index, value) => CompactDoes(n, index, value);
  }

  // ---- Through a whole life.

  lemma WellIsKept<V(!new), S(!new)>(b: Birth<V, S>, x: Host<V, S>, grants: Grants)
    requires Well(b, x, grants)
    ensures WellKept(x.node)
  {
    hide Seating, VotesReal, Bounded, Outgoing, Delta, Advances, Contiguous, Silent;
  }

  /** At every moment of a life, what the host asks of its node does what Acts says. */
  lemma LifeActs<V(!new), S(!new)>(b: Birth<V, S>, hs: seq<Host<V, S>>, es: seq<Event<V, S>>, k: nat)
    requires Life(b, hs, es) && k < |es| && es[k].Ask?
    ensures Sized(hs[k].node) && Timed(hs[k].node)
    ensures Acts(hs[k].node, es[k].op, hs[k + 1].node, Operate(hs[k].node, es[k].op).error)
  {
    hide Begins, Conceived, Well, WellKept, Acts, Operate, Attaches, Rebuilt, NextMessage, Applied, WriteOf;
    WellAt(b, hs, es, k);
    WellIsKept(b, hs[k], Gathered(hs[..k + 1], es[..k]));
    assert Happens(b, hs[k], hs[k + 1], es[k]);
    OperateActs(hs[k].node, es[k].op);
  }

  /** And what it takes from a clean node is the head of the queue. */
  lemma LifeHandsOut<V(!new), S(!new)>(b: Birth<V, S>, hs: seq<Host<V, S>>, es: seq<Event<V, S>>, k: nat)
    requires Life(b, hs, es) && k < |es| && es[k].Take? && !hs[k].node.dirty
    ensures Sized(hs[k].node) && hs[k + 1].node == NextMessage(hs[k].node).0
    ensures Leaves(hs[k].node, hs[k + 1].node, NextMessage(hs[k].node).1)
  {
    hide Begins, Conceived, Leaves, Rebuilt, NextMessage, Applied, WriteOf, Sound, Continues;
    WellAt(b, hs, es, k);
    GoesParts(hs[k].disk, hs[k].node);
    assert Happens(b, hs[k], hs[k + 1], es[k]);
    HeadLeaves(hs[k].node, Gathered(hs[..k + 1], es[..k]));
  }

  // ---- Starting.

  /** A node as it starts: a follower of nobody that has heard of no leader, with nothing to save or send. */
  ghost predicate Starts<V(!new), S(!new)>(n: Node<V, S>, d: Checkpoint<V, S>) {
    && n.state == d && n.role == Follower && n.leader.None? && n.prevoting.None? && n.leaderAge == MAX_U64
    && AtRest(n) && n.logFrom.None? && !n.snapshotChanged && StartsWaiting(n) && Seating(n)
  }

  lemma BuiltStarts<V(!new), S(!new)>(
    config: Config, cap: nat, d: Checkpoint<V, S>, membership: Membership, hooks: Option<Hooks<V, S>>)
    requires Configured(config) && (hooks.Some? ==> HooksFit(hooks.value, |membership.slots|))
    ensures Starts(Built(config, cap, d, membership, hooks), d)
  {
    hide Proper, Refreshed, Seating, HooksFit;
    var peers := Peers(membership);
    var k := |peers|;
    var bare: Node<V, S> := Node(
      config, cap, hooks, membership, d, Follower, None, PositionOf(peers, config.id), membership, peers,
      Filled<bool>(k, false), Filled<U64>(k, 1), Filled<U64>(k, 0), Filled<bool>(k, false),
      Filled<Option<Outbound>>(k, None), None, None, false, None, false, 0, 0, config.seed, None, MAX_U64, 0);
    PeersDistinct(membership);
    RefreshedTidy(bare, {});
    RefreshedTable(bare);
    RefreshedFrame(bare);
    ResetParts(Refreshed(bare));
    SeatingFlags(Refreshed(bare), ResetElection(Refreshed(bare)));
    assert Built(config, cap, d, membership, hooks) == ResetElection(Refreshed(bare));
  }
}
