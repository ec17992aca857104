/**
 * Every operation of a node whose voters never change is a sequence of history steps of its
 * own voter: each lemma takes a node that stands in a safe history and gives the
 * safe history the changed node stands in.
 */
module FixedSteps {
  import opened Types
  import opened Checkpoints
  import opened Memberships
  import opened QuorumIndexes
  import opened NodeModel
  import opened RaftHistory
  import opened RaftGrowth
  import opened RaftSafety
  import opened FixedVoters

  lemma LogNumbered<V>(h: History<V>, j: Id)
    requires LogsOk(h) && j in h.voters
    ensures Numbered(h.log[j])
  {
  }

  lemma ReignNumbered<V>(h: History<V>, t: nat)
    requires ReignsOk(h) && t in h.reigns
    ensures Numbered(h.reigns[t].log)
  {
    assert ReignOk(h, t);
  }

  /** The fields a node's standing depends on, other than its checkpoint. */
  ghost predicate Alike<V, S>(n: Node<V, S>, m: Node<V, S>) {
    && Sized(m) && m.config == n.config && m.cap == n.cap && m.hooks == n.hooks && m.bootstrap == n.bootstrap
    && m.membership == n.membership && m.peers == n.peers && m.local == n.local
    && m.state.hard.term == n.state.hard.term
    && (m.role == n.role || m.role == Follower)
    && (m.role == Candidate ==> m.votes == n.votes)
    && (m.role == Leader ==> m.matched == n.matched)
  }

  lemma FixedAlike<V, S>(n: Node<V, S>, m: Node<V, S>, voters: set<Id>)
    requires Fixed(n, voters) && Alike(n, m)
    ensures Fixed(m, voters)
  {
  }

  lemma FixedSized<V, S>(n: Node<V, S>, voters: set<Id>)
    requires Fixed(n, voters)
    ensures Sized(n) && Timed(n) && n.local < |n.peers|
  {
    PositionKnown(n.peers, n.config.id);
  }

  lemma CoreAlike<V, S>(h: History<V>, n: Node<V, S>, m: Node<V, S>, app: Application<V, S>)
    requires Core(h, n, app) && Alike(n, m) && Durable(h, m.config.id, m.state, app)
    requires |m.state.entries| <= m.cap && Still(m)
    ensures Core(h, m, app)
  {
    hide Fixed, Durable;
    FixedAlike(n, m, h.voters);
  }

  // ---- Commitment.

  lemma FixedCommit<V, S>(n: Node<V, S>, voters: set<Id>, index: U64)
    requires Fixed(n, voters) && Still(n)
    ensures CommitTo(n, index) ==
            if index > n.state.hard.commit
            then n.(state := n.state.(hard := n.state.hard.(commit := index)), dirty := true)
            else n
  {
    FixedRefreshed(n.(state := n.state.(hard := n.state.hard.(commit := index)), dirty := true), voters);
  }

  lemma CommitDurable<V, S>(h: History<V>, i: Id, s: Checkpoint<V, S>, app: Application<V, S>, index: U64)
    requires Durable(h, i, s, app) && s.hard.commit <= index
    requires index <= |h.log[i]| && Committed(h, h.log[i][..index], s.hard.term)
    ensures Durable(h, i, s.(hard := s.hard.(commit := index)), app)
  {
    hide Committed;
  }

  lemma CommitCore<V, S>(h: History<V>, n: Node<V, S>, app: Application<V, S>, index: U64)
    requires Core(h, n, app)
    requires index <= |h.log[n.config.id]| && Committed(h, h.log[n.config.id][..index], n.state.hard.term)
    ensures Core(h, CommitTo(n, index), app)
    ensures CommitTo(n, index) == n.(state := CommitTo(n, index).state, dirty := CommitTo(n, index).dirty)
    ensures CommitTo(n, index).state.hard.term == n.state.hard.term
  {
    hide Committed, Retains, Stands, VotesHeld, Leads, AcksHeld, CommitTo;
    FixedCommit(n, h.voters, index);
    if index > n.state.hard.commit {
      CommitDurable(h, n.config.id, n.state, app, index);
      CoreAlike(h, n, CommitTo(n, index), app);
    }
  }

  /** The voters whose recorded position reaches `index` did acknowledge it. */
  lemma MatchedAreBackers<V, S>(h: History<V>, n: Node<V, S>, app: Application<V, S>, index: U64)
    requires Core(h, n, app) && n.role == Leader && index > 0
    requires Quorum(n.membership, Reached(MatchedBy(n), index))
    ensures Majority(Backers(h, n.state.hard.term, index), h.voters)
  {
    hide Committed, Retains;
    QuorumIsMajorities(n.membership, Reached(MatchedBy(n), index));
    var q := set j | j in h.voters && Reached(MatchedBy(n), index)(j);
    forall j | j in q ensures j in Backers(h, n.state.hard.term, index) {
      assert MatchedOf(n, j) >= index;
    }
    MajorityGrows(q, Backers(h, n.state.hard.term, index), h.voters);
  }

  /** Section 5.4.2: a leader commits only what a quorum acknowledged of its own term. */
  lemma AdvanceCore<V, S>(h: History<V>, n: Node<V, S>, app: Application<V, S>)
    requires LogsOk(h) && Core(h, n, app) && n.role == Leader
    ensures Core(h, AdvanceCommit(n), app)
    ensures AdvanceCommit(n) == n.(state := AdvanceCommit(n).state, dirty := AdvanceCommit(n).dirty)
    ensures AdvanceCommit(n).state.hard.term == n.state.hard.term
  {
    hide Retains, VotesHeld, Stands, AcksHeld, Committed, CommitTo, QuorumIndex;
    if MayCommit(n) {
      var index := QuorumMatched(n);
      var t := n.state.hard.term;
      var i := n.config.id;
      QuorumIndexCounts(n.membership, MatchedBy(n), index);
      MatchedAreBackers(h, n, app, index);
      LogNumbered(h, i);
      IdAtLog(h.log[i], n.state, app, index);
      assert Own(h, t, index);
      CommittedWitness(h, h.log[i][..index], t, t, index);
      CommitCore(h, n, app, index);
    }
  }

  // ---- A leader's own log.

  lemma SafeLogs<V>(h: History<V>)
    requires Safe(h)
    ensures Shape(h) && LogsOk(h) && Domains(h) && ReignsOk(h) && AcksOk(h)
  {
  }

  lemma LongerLog<V>(log: Log<V>, e: Entry<V>, k: nat)
    requires k <= |log|
    ensures (log + [e])[..k] == log[..k] && (log + [e])[k..] == log[k..] + [e]
  {
  }

  lemma ExtendDurable<V, S>(h: History<V>, i: Id, s: Checkpoint<V, S>, app: Application<V, S>, e: Entry<V>)
    requires Durable(h, i, s, app) && CanExtend(h, i, e) && Grows(h, Extend(h, i, e), i)
    ensures Durable(Extend(h, i, e), i, Pushed(s, e), app)
  {
    hide Committed;
    var h1 := Extend(h, i, e);
    var log := h.log[i];
    var base := Base(s).index;
    CommittedStable(h, h1, i, log[..s.hard.commit], s.hard.term, s.hard.term);
    LongerLog(log, e, s.hard.commit);
    LongerLog(log, e, base);
  }

  /** A leader that appends an entry extends its reign. */
  lemma ExtendCore<V, S>(h: History<V>, n: Node<V, S>, app: Application<V, S>, e: Entry<V>)
    requires Domains(h) && AcksOk(h) && Core(h, n, app) && n.role == Leader
    requires e.id.index == |h.log[n.config.id]| + 1 && e.id.term == n.state.hard.term
    requires |n.state.entries| < n.cap && PlainEntry(n.hooks, e)
    ensures CanExtend(h, n.config.id, e) && Grows(h, Extend(h, n.config.id, e), n.config.id)
    ensures Core(Extend(h, n.config.id, e), n.(state := Pushed(n.state, e)), app)
  {
    hide Domains, Committed, Retains, AcksOk;
    var i := n.config.id;
    var h1 := Extend(h, i, e);
    var m := n.(state := Pushed(n.state, e));
    ExtendGrows(h, i, e);
    ExtendDurable(h, i, n.state, app, e);
    FixedAlike(n, m, h.voters);
    forall j ensures Ack(h, n.state.hard.term, j) <= Ack(h1, n.state.hard.term, j) {
      AckStable(h, h1, i, n.state.hard.term, j);
    }
  }

  lemma FixedMatched<V, S>(n: Node<V, S>, m: Node<V, S>, voters: set<Id>)
    requires Fixed(n, voters) && m == n.(matched := m.matched, next := m.next)
    requires |m.matched| == |n.peers| && |m.next| == |n.peers|
    ensures Fixed(m, voters)
  {
  }

  lemma MatchedPeerCore<V, S>(
    h: History<V>, n: Node<V, S>, m: Node<V, S>, app: Application<V, S>, peer: nat, index: U64)
    requires Core(h, n, app) && n.role == Leader && peer < |n.peers| && peer < |n.matched|
    requires n.peers[peer].Some? && index <= Ack(h, n.state.hard.term, n.peers[peer].value)
    requires m == n.(matched := n.matched[peer := index], next := m.next) && |m.next| == |n.peers|
    ensures Core(h, m, app)
  {
    hide Durable;
    FixedMatched(n, m, h.voters);
  }

  lemma MatchedCore<V, S>(h: History<V>, n: Node<V, S>, app: Application<V, S>, index: U64)
    requires Core(h, n, app) && n.role == Leader && index <= Ack(h, n.state.hard.term, n.config.id)
    ensures Core(h, MatchedSelf(n, index), app)
  {
    hide Durable, Leads, AcksHeld, Fixed;
    FixedSelf(n, h.voters);
    MatchedPeerCore(h, n, MatchedSelf(n, index), app, n.local, index);
  }

  lemma FixedSelf<V, S>(n: Node<V, S>, voters: set<Id>)
    requires Fixed(n, voters)
    ensures Sized(n) && n.local < |n.peers| && n.peers[n.local] == Some(n.config.id)
  {
    PositionKnown(n.peers, n.config.id);
  }

  lemma LastOfLog<V, S>(h: History<V>, n: Node<V, S>, app: Application<V, S>)
    requires LogsOk(h) && Core(h, n, app)
    ensures Last(n.state) == LastOf(h.log[n.config.id])
    ensures Last(n.state).index == |h.log[n.config.id]| <= MAX_U64
  {
    LogNumbered(h, n.config.id);
    IdAtLog(h.log[n.config.id], n.state, app, 0);
  }

  /** The parts of a node that a barrier leaves alone. */
  ghost predicate BarrierFrame<V, S>(n: Node<V, S>, m: Node<V, S>) {
    m == n.(state := m.state, dirty := m.dirty, logFrom := m.logFrom, matched := m.matched)
  }

  lemma BarrierCore<V, S>(h: History<V>, n: Node<V, S>, app: Application<V, S>) returns (h1: History<V>)
    requires Safe(h) && Core(h, n, app) && n.role == Leader
    ensures Safe(h1) && Grows(h, h1, n.config.id) && Core(h1, Barrier(n), app)
    ensures BarrierFrame(n, Barrier(n)) && Barrier(n).state.hard.term == n.state.hard.term
  {
    hide LogsOk, ReignsOk, AcksOk, Domains, Same, Durable, Stands, VotesHeld, Leads, AcksHeld, AdvanceCommit, Safe,
         Fixed, Grows, Shape;
    FixedSized(n, h.voters);
    var last := Last(n.state);
    if last.term == n.state.hard.term || |n.state.entries| >= n.cap || last.index == MAX_U64 {
      h1 := h;
      GrowsRefl(h, n.config.id);
    } else {
      SafeLogs(h);
      LastOfLog(h, n, app);
      var e: Entry<V> := Entry(LogId(last.index + 1, n.state.hard.term), None);
      var d := n.(dirty := true, logFrom := Some(e.id.index));
      CoreFlags(h, n, d, app);
      h1 := Extended(h, d, app, e);
      var p := d.(state := Pushed(d.state, e));
      MatchedCore(h1, p, app, e.id.index);
      SafeLogs(h1);
      AdvanceCore(h1, MatchedSelf(p, e.id.index), app);
    }
  }

  /** Flags and timers say nothing about the history. */
  lemma CoreFlags<V, S>(h: History<V>, n: Node<V, S>, m: Node<V, S>, app: Application<V, S>)
    requires Core(h, n, app) && Alike(n, m) && m.state == n.state
    ensures Core(h, m, app)
  {
    hide Fixed, Durable;
    FixedAlike(n, m, h.voters);
  }

  lemma Extended<V, S>(h: History<V>, n: Node<V, S>, app: Application<V, S>, e: Entry<V>) returns (h1: History<V>)
    requires Safe(h) && Core(h, n, app) && n.role == Leader
    requires e.id.index == |h.log[n.config.id]| + 1 && e.id.term == n.state.hard.term
    requires |n.state.entries| < n.cap && PlainEntry(n.hooks, e)
    ensures Safe(h1) && Grows(h, h1, n.config.id)
    ensures Core(h1, n.(state := Pushed(n.state, e)), app)
    ensures n.config.id in h1.log && |h1.log[n.config.id]| == e.id.index as int
    ensures Ack(h1, n.state.hard.term, n.config.id) == e.id.index
  {
    hide BallotsOk, PlatformsOk, ReignsOk, LogsOk, AcksKept, AcksMatch, BallotsSafe, ReignsSafe, Retains, Committed;
    ExtendCore(h, n, app, e);
    h1 := Extend(h, n.config.id, e);
    ExtendSafe(h, n.config.id, e);
  }

  // ---- Outgoing messages.

  lemma SentSim<V, S>(h: History<V>, n: Node<V, S>, app: Application<V, S>, peer: nat, out: Outbound)
    requires Core(h, n, app) && Quiet(n) && peer < |n.peers| && peer != n.local
    requires n.peers[peer].Some? && Queued(h, n, n.peers[peer].value, out)
    ensures Sim(h, Sent(n, peer, out), app)
  {
    hide Durable, Fixed, Stands, VotesHeld, Leads, AcksHeld;
    FixedSized(n, h.voters);
    CoreFlags(h, n, Sent(n, peer, out), app);
    QueuedAlike(h, n, Sent(n, peer, out), n.peers[peer].value, out);
  }

  lemma QueuedAlike<V, S>(h: History<V>, n: Node<V, S>, m: Node<V, S>, to: Id, out: Outbound)
    requires Queued(h, n, to, out) && m.config == n.config && m.state == n.state && m.role == n.role
    ensures Queued(h, m, to, out)
  {
  }

  lemma SentToAllSim<V, S>(h: History<V>, n: Node<V, S>, app: Application<V, S>, wanted: Id -> bool, out: Outbound)
    requires Core(h, n, app) && Quiet(n)
    requires forall to :: Queued(h, n, to, out)
    ensures Sim(h, SentToAll(n, wanted, out), app)
  {
    hide Durable, Fixed, Stands, VotesHeld, Leads, AcksHeld, Queued;
    FixedSized(n, h.voters);
    var m := SentToAll(n, wanted, out);
    CoreFlags(h, n, m, app);
    forall p | 0 <= p < |m.outbox| && p < |m.peers| && m.outbox[p].Some?
      ensures p != m.local && m.peers[p].Some? && Queued(h, m, m.peers[p].value, m.outbox[p].value)
    {
      QueuedAlike(h, n, m, m.peers[p].value, out);
    }
  }

  lemma QuietSim<V, S>(h: History<V>, n: Node<V, S>, app: Application<V, S>)
    requires Core(h, n, app) && Quiet(n)
    ensures Sim(h, n, app)
  {
  }

  lemma BroadcastSim<V, S>(h: History<V>, n: Node<V, S>, app: Application<V, S>)
    requires Core(h, n, app) && Quiet(n) && n.role == Leader
    ensures Sim(h, Broadcast(n), app)
  {
    hide Durable, Fixed, AcksHeld;
    FixedSized(n, h.voters);
    SentToAllSim(h, n, app, MembersOf(n.membership), SendReplicate);
  }

  // ---- Elections.

  /** Votes that make a quorum are a majority's ballots. */
  lemma ElectedSupporters<V, S>(h: History<V>, n: Node<V, S>)
    requires Fixed(n, h.voters) && VotesHeld(h, n) && ElectionQuorum(n)
    ensures Majority(Supporters(h, n.state.hard.term, n.config.id), h.voters)
  {
    QuorumIsMajorities(n.membership, VotedBy(n));
    var q := set j | j in h.voters && VotedBy(n)(j);
    var sup := Supporters(h, n.state.hard.term, n.config.id);
    forall j | j in q ensures j in sup {
      assert PeerWhere(n, n.votes, j);
    }
    MajorityGrows(q, sup, h.voters);
  }

  /** The node just made leader, before its barrier. */
  ghost function Enthroned<V, S>(n: Node<V, S>): Node<V, S>
    requires Sized(n)
  {
    n.(quorumElapsed := 0,
       active := Filled<bool>(|n.peers|, false),
       role := Leader,
       leader := Some(n.config.id),
       elapsed := 0,
       next := Filled(|n.peers|, SaturatingInc(Last(n.state).index)),
       matched := Filled<U64>(|n.peers|, 0))
  }

  lemma EnthronedCore<V, S>(h: History<V>, n: Node<V, S>, app: Application<V, S>)
    requires Core(h, n, app) && Leads(h, n)
    ensures Core(h, Enthroned(n), app)
  {
    hide Durable;
  }

  lemma CrownDurable<V, S>(h: History<V>, i: Id, s: Checkpoint<V, S>, app: Application<V, S>)
    requires Durable(h, i, s, app) && CanReign(h, i) && Grows(h, Crown(h, i), i)
    ensures Durable(Crown(h, i), i, s, app)
  {
    CommittedStable(h, Crown(h, i), i, h.log[i][..s.hard.commit], s.hard.term, s.hard.term);
  }

  /** A candidate with a majority's ballots can begin its reign. */
  lemma MayReign<V, S>(h: History<V>, n: Node<V, S>)
    requires ReignsOk(h) && Stands(h, n) && n.config.id in h.voters
    requires n.config.id in h.term && h.term[n.config.id] == n.state.hard.term
    requires Majority(Supporters(h, n.state.hard.term, n.config.id), h.voters)
    ensures CanReign(h, n.config.id)
  {
    if n.state.hard.term as nat in h.reigns {
      SupportedLeads(h, n.state.hard.term, n.config.id);
    }
  }

  /** A follower claims nothing beyond its checkpoint. */
  lemma FollowerCore<V, S>(h: History<V>, n: Node<V, S>, app: Application<V, S>)
    requires Fixed(n, h.voters) && n.role == Follower && Durable(h, n.config.id, n.state, app)
    requires |n.state.entries| <= n.cap && Still(n)
    ensures Core(h, n, app)
  {
  }

  lemma Crowned<V>(h: History<V>, i: Id) returns (h1: History<V>)
    requires Safe(h) && CanReign(h, i)
    ensures h1 == Crown(h, i) && Safe(h1) && Grows(h, h1, i)
    ensures Ack(h1, h.term[i], i) == |h.log[i]|
  {
    h1 := Crown(h, i);
    CrownGrows(h, i);
    CrownSafe(h, i);
  }

  lemma CrownCore<V, S>(h: History<V>, n: Node<V, S>, app: Application<V, S>) returns (h1: History<V>)
    requires Safe(h) && Core(h, n, app) && n.role == Candidate && ElectionQuorum(n)
    ensures Safe(h1) && Grows(h, h1, n.config.id)
    ensures Core(h1, n.(role := Follower), app) && Leads(h1, n.(role := Follower))
    ensures n.config.id in h.log && Ack(h1, n.state.hard.term, n.config.id) == |h.log[n.config.id]|
    ensures h1.log == h.log
  {
    var i := n.config.id;
    ElectedSupporters(h, n);
    hide Retains, Committed, LogsOk, AcksKept, AcksMatch, BallotsSafe, ReignsSafe, PlatformsOk, ElectionQuorum, Fixed;
    MayReign(h, n);
    h1 := Crowned(h, i);
    CrownDurable(h, i, n.state, app);
    FixedAlike(n, n.(role := Follower), h.voters);
    FollowerCore(h1, n.(role := Follower), app);
  }

  lemma BecomeLeaderSim<V, S>(h: History<V>, n: Node<V, S>, app: Application<V, S>) returns (h1: History<V>)
    requires Safe(h) && Core(h, n, app) && n.role == Candidate && ElectionQuorum(n) && Quiet(n)
    ensures Safe(h1) && Grows(h, h1, n.config.id) && Sim(h1, BecomeLeader(n), app)
  {
    hide LogsOk, ReignsOk, AcksOk, Domains, Same, Proper, Durable, Fixed, Stands, Leads, VotesHeld, AcksHeld, Safe,
         Grows, Shape, Barrier, ElectionQuorum, Broadcast, Sim;
    FixedSized(n, h.voters);
    SafeLogs(h);
    var last := Last(n.state).index;
    LastOfLog(h, n, app);
    var hc := CrownCore(h, n, app);
    EnthronedCore(hc, n.(role := Follower), app);
    assert Enthroned(n.(role := Follower)) == Enthroned(n);
    var e := Enthroned(n);
    MatchedCore(hc, e, app, last);
    h1 := BarrierCore(hc, MatchedSelf(e, last), app);
    GrowsTrans(h, hc, h1, n.config.id);
    BroadcastSim(h1, Barrier(MatchedSelf(e, last)), app);
  }

  lemma Heard<V>(h: History<V>, i: Id, t: nat) returns (h1: History<V>)
    requires Safe(h) && i in h.voters && i in h.term && h.term[i] < t
    ensures h1 == Observe(h, i, t) && Safe(h1) && Grows(h, h1, i)
    ensures (t, i) !in h1.ballots
    ensures forall k | i in h1.log && 0 <= k < |h1.log[i]| :: h1.log[i][k].id.term < t
  {
    ObserveGrows(h, i, t);
    ObserveSafe(h, i, t);
    h1 := Observe(h, i, t);
  }

  lemma ObserveDurable<V, S>(
    h: History<V>, i: Id, s: Checkpoint<V, S>, app: Application<V, S>, t: U64)
    requires Durable(h, i, s, app) && s.hard.term < t && Grows(h, Observe(h, i, t), i)
    requires (t as nat, i) !in h.ballots
    ensures Durable(Observe(h, i, t), i, s.(hard := s.hard.(term := t, votedFor := None)), app)
  {
    CommittedStable(h, Observe(h, i, t), i, h.log[i][..s.hard.commit], s.hard.term, t);
  }

  lemma ObserveCore<V, S>(h: History<V>, n: Node<V, S>, app: Application<V, S>, t: U64) returns (h1: History<V>)
    requires Safe(h) && Core(h, n, app) && n.state.hard.term < t
    ensures Safe(h1) && Grows(h, h1, n.config.id) && Core(h1, Observed(n, t), app)
    ensures Observed(n, t).role == Follower
    ensures n.config.id in h1.voters && n.config.id in h1.term && h1.term[n.config.id] == t
    ensures (t as nat, n.config.id) !in h1.ballots
    ensures n.config.id in h1.log && forall k | 0 <= k < |h1.log[n.config.id]| :: h1.log[n.config.id][k].id.term < t
  {
    hide Fixed, Retains, Committed, Shape, AcksKept, AcksMatch, BallotsSafe, ReignsSafe, Stands, VotesHeld, Leads,
         AcksHeld;
    FixedSized(n, h.voters);
    h1 := Heard(h, n.config.id, t);
    ObserveDurable(h, n.config.id, n.state, app, t);
    FixedObserved(n, h.voters, t);
    FollowerCore(h1, Observed(n, t), app);
  }

  lemma FixedObserved<V, S>(n: Node<V, S>, voters: set<Id>, t: U64)
    requires Fixed(n, voters) && n.state.hard.term < t
    ensures Fixed(Observed(n, t), voters)
  {
  }

  // ---- Campaigning.

  lemma StoodSafely<V>(h: History<V>, i: Id) returns (h1: History<V>)
    requires Safe(h) && CanStand(h, i)
    ensures h1 == Stand(h, i) && Safe(h1) && Grows(h, h1, i)
    ensures h.term[i] in h.reigns ==> h.reigns[h.term[i]].leader != i
  {
    StandGrows(h, i);
    StandSafe(h, i);
    h1 := Stand(h, i);
    if h.term[i] in h.reigns {
      assert ReignOk(h, h.term[i]);
    }
  }

  /** The candidate as Campaign makes it, before it asks anyone. */
  ghost function Standing<V, S>(n: Node<V, S>, term: U64): Node<V, S>
    requires Sized(n) && Timed(n)
  {
    ResetElection(SelfVote(
      n.(prevoting := None,
         state := n.state.(hard := n.state.hard.(term := term, votedFor := Some(n.config.id))),
         dirty := true,
         role := Candidate,
         leader := None)))
  }

  lemma StandDurable<V, S>(h: History<V>, i: Id, s: Checkpoint<V, S>, app: Application<V, S>)
    requires Durable(h, i, s, app) && Grows(h, Stand(h, i), i)
    ensures Durable(Stand(h, i), i, s.(hard := s.hard.(votedFor := Some(i))), app)
  {
    CommittedStable(h, Stand(h, i), i, h.log[i][..s.hard.commit], s.hard.term, s.hard.term);
  }

  lemma FixedStanding<V, S>(n: Node<V, S>, voters: set<Id>, term: U64)
    requires Fixed(n, voters)
    ensures Fixed(Standing(n, term), voters)
    ensures forall p | 0 <= p < |n.peers| && Standing(n, term).votes[p] :: n.peers[p] == Some(n.config.id)
  {
    PositionKnown(n.peers, n.config.id);
  }

  lemma StandCore<V, S>(h: History<V>, n: Node<V, S>, app: Application<V, S>, term: U64) returns (h1: History<V>)
    requires Safe(h) && Core(h, n, app) && term == n.state.hard.term + 1
    ensures Safe(h1) && Grows(h, h1, n.config.id) && Core(h1, Standing(n, term), app)
  {
    hide Shape, Grows, Fixed, Retains, Committed, Safe, Leads, AcksHeld;
    FixedSized(n, h.voters);
    var i := n.config.id;
    var ho := ObserveCore(h, n, app, term);
    h1 := StoodSafely(ho, i);
    GrowsTrans(h, ho, h1, i);
    FixedStanding(n, h.voters, term);
    StandDurable(ho, i, Observed(n, term).state, app);
  }

  lemma CampaignSim<V, S>(h: History<V>, n: Node<V, S>, app: Application<V, S>, term: U64) returns (h1: History<V>)
    requires Safe(h) && Core(h, n, app) && Quiet(n) && term == n.state.hard.term + 1
    ensures Safe(h1) && Grows(h, h1, n.config.id) && Sim(h1, Campaign(n, term), app)
  {
    hide Durable, Fixed, Safe, Grows, Sim, BecomeLeader, ElectionQuorum, VotesHeld, AcksHeld;
    FixedSized(n, h.voters);
    var c := Standing(n, term);
    h1 := StandCore(h, n, app, term);
    if ElectionQuorum(c) {
      var hs := h1;
      h1 := BecomeLeaderSim(hs, c, app);
      GrowsTrans(h, hs, h1, n.config.id);
    } else {
      SentToAllSim(h1, c, app, VotersOf(c.membership), SendVote);
    }
  }

  // ---- Votes.

  lemma GrantedSafely<V>(h: History<V>, i: Id, c: Id) returns (h1: History<V>)
    requires Safe(h) && CanGrant(h, i, c)
    ensures h1 == Grant(h, i, c) && Safe(h1) && Grows(h, h1, i)
  {
    GrantGrows(h, i, c);
    GrantSafe(h, i, c);
    h1 := Grant(h, i, c);
  }

  lemma GrantDurable<V, S>(h: History<V>, i: Id, c: Id, s: Checkpoint<V, S>, app: Application<V, S>)
    requires Durable(h, i, s, app) && Grows(h, Grant(h, i, c), i)
    ensures Durable(Grant(h, i, c), i, s.(hard := s.hard.(votedFor := Some(c))), app)
  {
    CommittedStable(h, Grant(h, i, c), i, h.log[i][..s.hard.commit], s.hard.term, s.hard.term);
  }

  /** A node that has voted for nobody in its term neither stands nor leads. */
  lemma NoVoteFollows<V, S>(h: History<V>, n: Node<V, S>, app: Application<V, S>)
    requires Shape(h) && Core(h, n, app) && n.state.hard.votedFor.None?
    ensures n.role == Follower
  {
    hide Fixed, Retains, Committed, WellRooted;
    if n.state.hard.term as nat in h.reigns {
      assert ReignOk(h, n.state.hard.term);
    }
  }

  lemma GrantCore<V, S>(h: History<V>, n: Node<V, S>, app: Application<V, S>, from: Id, last: LogId)
    returns (h1: History<V>)
    requires Safe(h) && Core(h, n, app) && n.state.hard.votedFor.None?
    requires (n.state.hard.term as nat, from) in h.platforms
    requires LastOf(h.platforms[(n.state.hard.term as nat, from)]) == last
    requires AtLeastAsUpToDate(last, Last(n.state))
    ensures Safe(h1) && Grows(h, h1, n.config.id)
    ensures Core(h1, n.(state := n.state.(hard := n.state.hard.(votedFor := Some(from))), dirty := true), app)
    ensures (n.state.hard.term as nat, n.config.id) in h1.ballots
    ensures h1.ballots[(n.state.hard.term as nat, n.config.id)] == from
  {
    hide Fixed, Retains, Committed, Safe, Stands, VotesHeld, Leads, AcksHeld;
    FixedSized(n, h.voters);
    SafeLogs(h);
    NoVoteFollows(h, n, app);
    LastOfLog(h, n, app);
    h1 := GrantedSafely(h, n.config.id, from);
    GrantDurable(h, n.config.id, from, n.state, app);
    var v := n.(state := n.state.(hard := n.state.hard.(votedFor := Some(from))), dirty := true);
    FixedAlike(n, v, h.voters);
    FollowerCore(h1, v, app);
  }

  lemma ResetCore<V, S>(h: History<V>, n: Node<V, S>, app: Application<V, S>)
    requires Core(h, n, app)
    ensures Timed(n) && Core(h, ResetElection(n), app)
  {
    hide Fixed, Durable, Stands, VotesHeld, Leads, AcksHeld;
    FixedSized(n, h.voters);
    CoreFlags(h, n, ResetElection(n), app);
  }

  lemma VoteAnswerSim<V, S>(
    h: History<V>, n: Node<V, S>, app: Application<V, S>, peer: nat, from: Id, last: LogId)
    returns (h1: History<V>)
    requires Safe(h) && Core(h, n, app) && Quiet(n)
    requires peer < |n.peers| && n.peers[peer] == Some(from) && peer != n.local
    requires (n.state.hard.term as nat, from) in h.platforms
    requires LastOf(h.platforms[(n.state.hard.term as nat, from)]) == last
    ensures Safe(h1) && Grows(h, h1, n.config.id) && Sim(h1, VoteAnswer(n, peer, from, last), app)
  {
    hide Fixed, Retains, Committed, Safe, Grows, Stands, VotesHeld, Leads, AcksHeld, Sim;
    FixedSized(n, h.voters);
    h1 := h;
    GrowsRefl(h, n.config.id);
    var granted :=
      && (n.state.hard.votedFor.None? || n.state.hard.votedFor == Some(from))
      && AtLeastAsUpToDate(last, Last(n.state));
    var v := n;
    if granted && n.state.hard.votedFor != Some(from) {
      h1 := GrantCore(h, n, app, from, last);
      v := n.(state := n.state.(hard := n.state.hard.(votedFor := Some(from))), dirty := true);
    }
    if granted {
      ResetCore(h1, v, app);
      v := ResetElection(v);
    }
    SentSim(h1, v, app, peer, SendVoted(granted));
  }

  lemma VotePeerCore<V, S>(h: History<V>, n: Node<V, S>, app: Application<V, S>, peer: nat)
    requires Core(h, n, app) && n.role == Candidate
    requires peer < |n.peers| && peer < |n.votes| && n.peers[peer].Some?
    requires (n.state.hard.term as nat, n.peers[peer].value) in h.ballots
    requires h.ballots[(n.state.hard.term as nat, n.peers[peer].value)] == n.config.id
    ensures Core(h, n.(votes := n.votes[peer := true]), app)
  {
    hide Durable;
    assert Fixed(n.(votes := n.votes[peer := true]), h.voters);
  }

  lemma VoteCountedSim<V, S>(h: History<V>, n: Node<V, S>, app: Application<V, S>, peer: nat, from: Id, granted: bool)
    returns (h1: History<V>)
    requires Safe(h) && Core(h, n, app) && Quiet(n)
    requires peer < |n.peers| && n.peers[peer] == Some(from)
    requires granted ==> (n.state.hard.term as nat, from) in h.ballots
    requires granted ==> h.ballots[(n.state.hard.term as nat, from)] == n.config.id
    ensures Safe(h1) && Grows(h, h1, n.config.id) && Sim(h1, VoteCounted(n, peer, granted), app)
  {
    hide Durable, Safe, Grows, BecomeLeader, ElectionQuorum, Sim, Fixed, Stands, VotesHeld, Leads, AcksHeld;
    FixedSized(n, h.voters);
    h1 := h;
    GrowsRefl(h, n.config.id);
    if n.role == Candidate && granted {
      var v := n.(votes := n.votes[peer := true]);
      VotePeerCore(h, n, app, peer);
      if ElectionQuorum(v) {
        h1 := BecomeLeaderSim(h, v, app);
      } else {
        QuietSim(h, v, app);
      }
    } else {
      QuietSim(h, n, app);
    }
  }

  // ---- The leader hears back.

  lemma AcknowledgedSim<V, S>(h: History<V>, n: Node<V, S>, app: Application<V, S>, peer: nat, index: U64)
    requires LogsOk(h) && Core(h, n, app) && Quiet(n) && n.role == Leader
    requires peer < |n.peers| && n.peers[peer].Some? && peer != n.local
    requires n.matched[peer] < index <= Last(n.state).index
    requires index <= Ack(h, n.state.hard.term, n.peers[peer].value)
    ensures Sim(h, ReplicatedBy(n, peer, index, None), app)
  {
    hide Durable, Fixed, Sim, AdvanceCommit, MayCommit, Broadcast, Leads;
    FixedSized(n, h.voters);
    var a := n.(active := n.active[peer := true]);
    CoreFlags(h, n, a, app);
    var m := a.(matched := a.matched[peer := index],
                next := a.next[peer := Max(a.next[peer], SaturatingInc(index))]);
    MatchedPeerCore(h, a, m, app, peer, index);
    if MayCommit(m) {
      AdvanceCore(h, m, app);
      BroadcastSim(h, AdvanceCommit(m), app);
    } else if index < Last(n.state).index {
      LeaderQueues(h, m, app, m.peers[peer].value);
      SentSim(h, m, app, peer, SendReplicate);
    } else {
      QuietSim(h, m, app);
    }
  }

  lemma LeaderQueues<V, S>(h: History<V>, n: Node<V, S>, app: Application<V, S>, to: Id)
    requires Core(h, n, app) && n.role == Leader
    ensures Queued(h, n, to, SendReplicate)
  {
  }

  lemma ReplicatedSim<V, S>(
    h: History<V>, n: Node<V, S>, app: Application<V, S>, peer: nat, index: U64, rejection: Option<Rejection>)
    requires LogsOk(h) && Core(h, n, app) && Quiet(n) && n.role == Leader
    requires peer < |n.peers| && n.peers[peer].Some? && peer != n.local
    requires rejection.None? ==> index <= Ack(h, n.state.hard.term, n.peers[peer].value)
    ensures Sized(n) && Timed(n) && Sim(h, ReplicatedBy(n, peer, index, rejection), app)
  {
    hide Durable, Fixed, Sim, AdvanceCommit, MayCommit, Broadcast, Leads, AcksHeld, LogsOk;
    FixedSized(n, h.voters);
    var last := Last(n.state).index;
    var a := n.(active := n.active[peer := true]);
    CoreFlags(h, n, a, app);
    if index <= last && rejection.None? && index > n.matched[peer] {
      AcknowledgedSim(h, n, app, peer, index);
    } else if index <= last && rejection.Some? && rejection.value.Conflict?
              && index >= a.matched[peer] && index + 1 == a.next[peer] {
      var r := a.(next := a.next[peer :=
        Clamp(rejection.value.next, SaturatingInc(a.matched[peer]), SaturatingInc(last))]);
      CoreFlags(h, a, r, app);
      LeaderQueues(h, r, app, r.peers[peer].value);
      SentSim(h, r, app, peer, SendReplicate);
    } else {
      QuietSim(h, a, app);
    }
  }

}
