/**
 * What a node never puts off, through any life of either engine: a leader leaves nothing
 * uncommitted that may be committed, counts itself to the end of its log and lacks its
 * barrier only for want of room; a candidate or a prober never sits on a quorum.
 */
module Duties {
  import opened Types
  import opened Checkpoints
  import opened Memberships
  import opened NodeModel
  import opened LocalHistory
  import opened NodeHistory
  import opened SlotTables
  import opened DynamicNodes
  import opened DynamicElections
  import opened DynamicOperations
  import opened CommitRules
  import opened Queues
  import opened LeaderActs
  import opened LeaderSteps
  import opened Ballots
  import opened Campaigns
  import opened FollowerActs
  import opened FollowerSteps
  import opened HostRuns

  /** No entry of the leader's own term past the commit index is held by a quorum. */
  ghost predicate NothingLeft<V, S>(n: Node<V, S>) {
    forall t: U64 | t > n.state.hard.commit && OfOwnTerm(n.state, t) :: !Quorum(n.membership, Holding(n, t))
  }

  ghost predicate LeaderDuty<V, S>(n: Node<V, S>) {
    && NothingLeft(n) && !LacksBarrier(n.state, n.cap)
    && (n.local < |n.peers| && n.local < |n.matched| ==> n.matched[n.local] == Last(n.state).index)
  }

  ghost predicate CandidateDuty<V, S>(n: Node<V, S>) {
    !Quorum(n.membership, Counted(n)) && Last(n.state).term < n.state.hard.term
  }

  ghost predicate Diligent<V, S>(n: Node<V, S>) {
    && (n.role == Leader ==> LeaderDuty(n))
    && (n.role == Candidate ==> CandidateDuty(n))
    && (n.prevoting.Some? ==> !Quorum(n.membership, Counted(n)))
  }

  // ---- The commit rule leaves nothing.

  lemma QuorumNeedsOne(m: Membership, ack: Id -> bool) returns (id: Id)
    requires Quorum(m, ack)
    ensures ack(id)
  {
    QuorumIsMajorities(m, ack);
    var acked := set j | j in SetOf(m, Voters) && ack(j);
    assert acked != {};
    id :| id in acked;
  }

  /** Whatever a quorum holds lies within the leader's log. */
  lemma HeldWithin<V, S>(n: Node<V, S>, t: U64)
    requires Sized(n) && Bounded(n) && Quorum(n.membership, Holding(n, t))
    ensures t <= Last(n.state).index
  {
    hide Quorum;
    var id := QuorumNeedsOne(n.membership, Holding(n, t));
  }

  /** Terms never decrease along the log, and none is newer than the node's. */
  lemma LaterTerms<V, S>(s: Checkpoint<V, S>, t: U64, u: U64)
    requires WellFormed(s) && t <= u <= Last(s).index && IdAt(s, t).Some?
    ensures IdAt(s, u).Some? && IdAt(s, t).value.term <= IdAt(s, u).value.term <= s.hard.term
    ensures IdAt(s, t).value.term <= Last(s).term
  {
    GetContiguous(s, t);
    GetContiguous(s, u);
    LastIndex(s);
  }

  lemma RuleLeavesNothing<V, S>(n: Node<V, S>, before: U64)
    requires Sized(n) && WellFormed(n.state) && Bounded(n) && CommitRule(n, before, n.state.hard.commit)
    ensures NothingLeft(n)
  {
    hide Quorum, WellFormed, IdAt, Bounded, Holding;
    var c: U64 :| Carried(n, c) && n.state.hard.commit == if c > before && OfOwnTerm(n.state, c) then c else before;
    HeldWithin(n, c);
    forall t: U64 | t > n.state.hard.commit && OfOwnTerm(n.state, t) ensures !Quorum(n.membership, Holding(n, t)) {
      if t <= c {
        LaterTerms(n.state, t, c);
      }
    }
  }

  lemma OlderLog<V, S>(s: Checkpoint<V, S>, t: U64)
    requires WellFormed(s) && Last(s).term < s.hard.term
    ensures !OfOwnTerm(s, t)
  {
    if IdAt(s, t).Some? {
      HeldIsWithin(s, t);
      LaterTerms(s, t, t);
    }
  }

  /** With the same log and the same positions, nothing is left if nothing was. */
  lemma NothingStays<V, S>(n: Node<V, S>, r: Node<V, S>)
    requires NothingLeft(n) && r.peers == n.peers && r.matched == n.matched && r.membership == n.membership
    requires r.state.hard.commit == n.state.hard.commit && r.state.hard.term == n.state.hard.term
    requires forall t: U64 | t > n.state.hard.commit :: IdAt(r.state, t) == IdAt(n.state, t)
    ensures NothingLeft(r)
  {
    hide Quorum, IdAt;
    forall t: U64 | t > r.state.hard.commit && OfOwnTerm(r.state, t) ensures !Quorum(r.membership, Holding(r, t)) {
      QuorumSame(n.membership, Holding(n, t), Holding(r, t));
      assert OfOwnTerm(n.state, t);
    }
  }

  // ---- Each act keeps the duties.

  /** What holds after any operation, besides the duties. */
  ghost predicate Ready<V(!new), S(!new)>(r: Node<V, S>) {
    Steady(r) && WellFormed(r.state) && Seating(r) && (r.role == Leader ==> Bounded(r))
  }

  lemma BarsDuty<V(!new), S(!new)>(s: Checkpoint<V, S>, r: Node<V, S>)
    requires Ready(r) && r.role == Leader && LacksBarrier(s, r.cap) && Bars(s, r)
    ensures NothingLeft(r) && !LacksBarrier(r.state, r.cap)
  {
    hide WellFormed, Seating, CommitRule, NothingLeft, Bounded;
    RuleLeavesNothing(r, s.hard.commit);
    assert Last(r.state).term == s.hard.term;
  }

  lemma OfficeDuty<V(!new), S(!new)>(s: Checkpoint<V, S>, n: Node<V, S>, r: Node<V, S>)
    requires Ready(r) && TakesOffice(s, n, r) && Last(s).term < s.hard.term
    ensures Diligent(r)
  {
    hide Seating, CommitRule, Tells, Bounded, WellFormed;
    if LacksBarrier(s, r.cap) {
      BarsDuty(s, r);
    } else {
      forall t: U64 ensures !OfOwnTerm(r.state, t) {
        OlderLog(r.state, t);
      }
    }
  }

  lemma UndecidedSame<V, S>(n: Node<V, S>, r: Node<V, S>, wanted: Id -> bool)
    requires !Quorum(n.membership, wanted) && r.membership == n.membership && forall id :: Counted(r)(id) == wanted(id)
    ensures !Quorum(r.membership, Counted(r))
  {
    QuorumSame(r.membership, Counted(r), wanted);
  }

  lemma StandsDuty<V(!new), S(!new)>(n: Node<V, S>, r: Node<V, S>, term: U64)
    requires Ready(r) && Stands(n, r, term) && WellFormed(n.state) && term > n.state.hard.term
    ensures Diligent(r)
  {
    hide Seating, Quorum, Tells, Bars, Bounded, Counted;
    LastTerm(n.state);
    var s := n.state.(hard := HardState(term, Some(n.config.id), n.state.hard.commit));
    hide WellFormed;
    if Quorum(n.membership, Only(n.config.id)) {
      OfficeDuty(s, n, r);
    } else {
      UndecidedSame(n, r, Only(n.config.id));
    }
  }

  lemma ProbesDuty<V(!new), S(!new)>(n: Node<V, S>, r: Node<V, S>, term: U64)
    requires Ready(r) && Probes(n, r, term) && WellFormed(n.state) && term > n.state.hard.term
    ensures Diligent(r)
  {
    hide Seating, Quorum, Tells, Stands, Bounded, Counted, WellFormed;
    if Quorum(n.membership, Only(n.config.id)) {
      StandsDuty(n, r, term);
    } else {
      UndecidedSame(n, r, Only(n.config.id));
    }
  }

  /** A node that only counted on. */
  lemma SameDuty<V, S>(n: Node<V, S>, r: Node<V, S>)
    requires Diligent(n) && SameCounts(n, r) && r.role in {n.role, Follower} && r.prevoting in {None, n.prevoting}
    requires r.role == Follower || r.state == n.state.(hard := n.state.hard.(votedFor := r.state.hard.votedFor))
    ensures Diligent(r)
  {
    hide Quorum;
    QuorumSame(n.membership, Counted(n), Counted(r));
    if r.role == Leader {
      NothingStays(n, r);
    }
  }

  // ---- Each operation keeps the duties.

  /** A clean node between operations, as a host keeps it. */
  ghost predicate Kept<V(!new), S(!new)>(n: Node<V, S>, grants: Grants) {
    Steady(n) && WellFormed(n.state) && Clean(n) && Sound(n, grants) && Silent(n)
  }

  lemma KeptRests<V(!new), S(!new)>(n: Node<V, S>, grants: Grants)
    requires Kept(n, grants)
    ensures Rests(n) && Ready(n) && AtRest(n) && (n.role == Leader ==> Leads(n)) && Listens(n)
  {
    hide WellFormed, InForce, SlotTables.Fits, AllSeated, VotesReal, Bounded, Outgoing;
  }

  lemma ReadyAfter<V(!new), S(!new)>(n: Node<V, S>, grants: Grants, op: Operation<V, S>)
    requires Kept(n, grants) && Attaches(n, op)
    ensures Sized(n) && Timed(n) && Ready(Operate(n, op).node)
  {
    hide Operate, Sound, Delta, Advances, Contiguous, Attaches, Earned, Brought;
    SoundRests(n, grants);
    SeatingPlaced(n);
    OperateGoes(n, op);
    OperateSound(n, grants, op);
    SoundRests(Operate(n, op).node, grants + Brought(n, op));
  }

  lemma SoundRests<V(!new), S(!new)>(n: Node<V, S>, grants: Grants)
    requires Sound(n, grants)
    ensures Seating(n) && (n.role == Leader ==> Bounded(n))
  {
    hide Seating, Bounded, VotesReal, Outgoing;
  }

  lemma TickDuty<V(!new), S(!new)>(n: Node<V, S>)
    requires Rests(n) && (n.role == Leader ==> Leads(n)) && Diligent(n) && Ready(Tick(n).node)
    ensures Diligent(Tick(n).node)
  {
    hide Seating, WellFormed, Tick, Quorum, Probes, Stands, Bars, Tells, Bounded, NothingLeft, LacksBarrier;
    var r := Tick(n).node;
    if n.role == Leader {
      TickLeads(n);
      if r.role == Leader {
        BeatDuty(n, r);
      }
    } else {
      TickWaits(n);
      if IsVoter(n.membership, n.config.id) && SaturatingInc(n.elapsed) >= n.electionDeadline
         && n.state.hard.term < MAX_U64 {
        if n.hooks.Some? {
          ProbesDuty(n, r, n.state.hard.term + 1);
        } else {
          StandsDuty(n, r, n.state.hard.term + 1);
        }
      } else {
        SameDuty(n, r);
      }
    }
  }

  /** A leader that goes on, with a barrier if it lacked one. */
  lemma BeatDuty<V(!new), S(!new)>(n: Node<V, S>, r: Node<V, S>)
    requires NothingLeft(n) && (n.local < |n.matched| ==> n.matched[n.local] == Last(n.state).index)
    requires Ready(r) && r.role == Leader && r.prevoting.None? && KeepsPositions(n, r)
    requires Bars(n.state, r) || (r.state == n.state && !LacksBarrier(n.state, n.cap))
    requires Sized(n) && r.cap == n.cap
    ensures Diligent(r)
  {
    hide Seating, WellFormed, Quorum, Bounded, NothingLeft;
    if LacksBarrier(n.state, r.cap) && Bars(n.state, r) {
      BarsDuty(n.state, r);
    } else {
      assert r.matched == n.matched;
      NothingStays(n, r);
    }
  }

  lemma AnswerDuty<V(!new), S(!new)>(n: Node<V, S>, r: Node<V, S>, p: nat, index: U64, rejection: Option<Rejection>)
    requires Leads(n) && Diligent(n) && Ready(r) && r.cap == n.cap
    requires p < |n.peers| && n.peers[p].Some? && n.peers[p].value != n.config.id
    requires TakesAnswer(n, r, p, index, rejection)
    ensures Diligent(r)
  {
    hide WellFormed, Quorum, Bounded, NothingLeft, CommitRule, Tells;
    OwnSlot(n, p);
    hide Seating;
    if r.role == Leader {
      if rejection.None? && n.matched[p] < index <= Last(n.state).index {
        RuleLeavesNothing(r, n.state.hard.commit);
      } else {
        NothingStays(n, r);
      }
    }
  }

  lemma CountsDuty<V, S>(n: Node<V, S>, r: Node<V, S>, from: Id)
    requires Diligent(n) && Counts(n, r, from) && !Quorum(n.membership, CountedWith(n, from))
    requires n.role != Leader
    ensures Diligent(r)
  {
    hide Quorum, Counted;
    UndecidedSame(n, r, CountedWith(n, from));
  }

  lemma VoteTakenDuty<V(!new), S(!new)>(n: Node<V, S>, e: Envelope<V, S>, p: nat)
    requires Rests(n) && Diligent(n) && Ready(Step(n, e).node)
    requires Delivered(n, e) && p < |n.peers| && n.peers[p] == Some(e.from) && e.message.Voted?
    ensures Diligent(Step(n, e).node)
  {
    hide Seating, WellFormed, Step, Quorum, TakesOffice, Counts, Diligent, ValidMessage, Ready;
    var r := Step(n, e).node;
    VoteTaken(n, e, p);
    if n.role == Candidate && e.message.granted && e.message.term == n.state.hard.term {
      if Quorum(n.membership, CountedWith(n, e.from)) {
        CandidateLog(n);
        OfficeDuty(n.state, n, r);
      } else {
        CountsDuty(n, r, e.from);
      }
    } else {
      NotesDuty(n, r, e.message.term);
    }
  }

  lemma CandidateLog<V, S>(n: Node<V, S>)
    requires Diligent(n) && n.role == Candidate
    ensures Last(n.state).term < n.state.hard.term
  {
  }

  lemma NotesDuty<V, S>(n: Node<V, S>, r: Node<V, S>, term: U64)
    requires Diligent(n) && OnlyNotes(n, r, term)
    ensures Diligent(r)
  {
    hide Quorum, Diligent;
    SameDuty(n, r);
  }

  lemma GrantTakenDuty<V(!new), S(!new)>(n: Node<V, S>, e: Envelope<V, S>, p: nat)
    requires Rests(n) && Diligent(n) && Ready(Step(n, e).node)
    requires Delivered(n, e) && p < |n.peers| && n.peers[p] == Some(e.from) && e.message.PreVoted?
    ensures Diligent(Step(n, e).node)
  {
    hide Seating, WellFormed, Step, Quorum, Stands, Counts, Diligent, ValidMessage, Ready;
    var r := Step(n, e).node;
    GrantTaken(n, e, p);
    if n.prevoting == Some(e.message.campaign) && e.message.granted && e.message.term <= n.state.hard.term {
      ProberVotes(n);
      if Quorum(n.membership, CountedWith(n, e.from)) {
        StandsDuty(n, r, e.message.campaign);
      } else {
        CountsDuty(n, r, e.from);
      }
    } else {
      NotesDuty(n, r, e.message.term);
    }
  }

  lemma RequestDuty<V(!new), S(!new)>(n: Node<V, S>, e: Envelope<V, S>)
    requires Rests(n) && Clean(n) && Diligent(n) && Delivered(n, e) && Answerable(n, e.from)
    requires e.message.Append? || e.message.AppendBatch? || e.message.Install?
    ensures Diligent(Step(n, e).node)
  {
    hide Rests, Step, Diligent, ValidMessage, TakesEntry, TakesBatch, TakesSnapshot, Replies, Tells;
    RestsListens(n);
    if e.message.term < n.state.hard.term {
      OldRequestRefused(n, e);
      SameDuty(n, Step(n, e).node);
    } else if e.message.Append? {
      var index, rejection := EntryHeard(n, e);
      FollowerDuty(Step(n, e).node, e.from);
    } else if e.message.AppendBatch? {
      var index, rejection := BatchHeard(n, e);
      FollowerDuty(Step(n, e).node, e.from);
    } else {
      var index, rejection := SnapshotHeard(n, e);
      FollowerDuty(Step(n, e).node, e.from);
    }
  }

  lemma FollowerDuty<V, S>(r: Node<V, S>, from: Id)
    requires FollowerSteps.Follows(r, from)
    ensures Diligent(r)
  {
  }

  lemma BallotDuty<V(!new), S(!new)>(n: Node<V, S>, e: Envelope<V, S>)
    requires Rests(n) && Diligent(n) && Delivered(n, e) && Answerable(n, e.from)
    requires e.message.Vote? || e.message.PreVote?
    ensures Diligent(Step(n, e).node)
  {
    hide Rests, Step, Diligent, ValidMessage, Tells, HasLeader;
    RestsListens(n);
    if e.message.PreVote? {
      ProbeAnswered(n, e);
    } else if n.hooks.Some? && HasLeader(n) {
      VoteSuppressed(n, e);
    } else {
      VoteAnswered(n, e);
    }
    SameDuty(n, Step(n, e).node);
  }

  lemma StepDuty<V(!new), S(!new)>(n: Node<V, S>, e: Envelope<V, S>)
    requires Rests(n) && Clean(n) && (n.role == Leader ==> Leads(n)) && Diligent(n) && Ready(Step(n, e).node)
    ensures Diligent(Step(n, e).node)
  {
    hide Rests, Leads, Step, Diligent, ValidMessage, Tells, Ready, AtRest;
    RestsListens(n);
    RefusedExactly(n, e);
    if Step(n, e).error.None? {
      match e.message
      case Vote(_, _) => BallotDuty(n, e);
      case PreVote(_, _) => BallotDuty(n, e);
      case Append(_, _, _, _) => RequestDuty(n, e);
      case AppendBatch(_, _, _, _) => RequestDuty(n, e);
      case Install(_, _) => RequestDuty(n, e);
      case Voted(_, _) => VoteTakenDuty(n, e, PositionOf(n.peers, e.from));
      case PreVoted(_, _, _) => GrantTakenDuty(n, e, PositionOf(n.peers, e.from));
      case Replicated(term, index, rejection) =>
        if n.role == Leader && term == n.state.hard.term {
          var p := PositionOf(n.peers, e.from);
          AnswerTaken(n, e, p);
          AnswerDuty(n, Step(n, e).node, p, index, rejection);
        } else {
          AnswerIgnored(n, e);
          NotesDuty(n, Step(n, e).node, term);
        }
    }
  }

  lemma ProposeDuty<V(!new), S(!new)>(n: Node<V, S>, values: seq<V>)
    requires Rests(n) && Diligent(n) && Ready(ProposeMany(n, values).node)
    ensures Diligent(ProposeMany(n, values).node)
  {
    hide Rests, Diligent, Ready, ProposeMany, Lands, Admissible;
    RestsTable(n);
    AdmittedExactly(n, values);
    if Admissible(n, |values|) {
      LeaderHasNoProbe(n, values);
      ProposalLands(n, values);
      ProposalAnnounced(n, values);
      AnnouncedDuty(n, ProposeMany(n, values).node, values);
    }
  }

  lemma RestsTable<V(!new), S(!new)>(n: Node<V, S>)
    requires Rests(n)
    ensures Sized(n) && Timed(n) && SlotTables.Fits(n) && DistinctPeers(n.peers)
  {
    hide WellFormed, InForce, SlotTables.Fits, AllSeated, DistinctPeers;
  }

  lemma LeaderHasNoProbe<V(!new), S(!new)>(n: Node<V, S>, values: seq<V>)
    requires Rests(n) && Admissible(n, |values|)
    ensures n.prevoting.None? && values != []
  {
  }

  lemma AnnouncedDuty<V(!new), S(!new)>(n: Node<V, S>, r: Node<V, S>, values: seq<V>)
    requires values != [] && Lands(n.state, r.state, values) && Announces(n, r) && Ready(r)
    ensures Diligent(r)
  {
    hide WellFormed, Seating, CommitRule, Tells, Bounded, NothingLeft;
    LandsLast(n.state, r.state, values);
    if r.role == Leader {
      RuleLeavesNothing(r, n.state.hard.commit);
    }
  }

  lemma LandsLast<V, S>(s: Checkpoint<V, S>, t: Checkpoint<V, S>, values: seq<V>)
    requires values != [] && Lands(s, t, values)
    ensures Last(t).term == s.hard.term == t.hard.term
  {
    var k := |values| - 1;
    assert t.entries[|t.entries| - 1] == t.entries[|s.entries| + k];
    assert t.entries[|s.entries| + k].value == Some(values[k]);
  }

  lemma CompactDuty<V(!new), S(!new)>(n: Node<V, S>, index: U64, value: S)
    requires Rests(n) && Diligent(n) && Ready(Compact(n, index, value).node) && Attaches(n, OpCompact(index, value))
    ensures Diligent(Compact(n, index, value).node)
  {
    hide Seating, WellFormed, Compact, Folds, Tells, Bars, Quorum, NothingLeft, Attaches;
    var r := Compact(n, index, value).node;
    FoldedExactly(n, index, value);
    if AtRest(n) && Foldable(n.state, index) {
      var t := FoldActs(n, index, value);
      FoldDuty(n, t, index, value);
      if n.role == Leader {
        if r.role == Leader {
          BeatDuty(n.(state := t), r);
        }
      } else {
        QuorumSame(n.membership, Counted(n), Counted(r));
      }
    }
  }

  /** Folding a committed prefix leaves the duties as they are. */
  lemma FoldDuty<V, S>(n: Node<V, S>, t: Checkpoint<V, S>, index: U64, value: S)
    requires WellFormed(n.state) && Foldable(n.state, index) && Folds(n.state, t, index, value)
    ensures t.hard == n.state.hard && Last(t) == Last(n.state)
    ensures n.role == Leader && Diligent(n) ==> NothingLeft(n.(state := t))
    ensures LacksBarrier(t, n.cap) ==> Last(n.state).term != n.state.hard.term
  {
    if n.role == Leader && Diligent(n) {
      FoldedBase(n.state, t, index, value);
      hide WellFormed, Quorum, Folds;
      NothingStays(n, n.(state := t));
    }
  }

  lemma FoldedBase<V, S>(s: Checkpoint<V, S>, t: Checkpoint<V, S>, index: U64, value: S)
    requires WellFormed(s) && Foldable(s, index) && Folds(s, t, index, value)
    ensures forall k: U64 | k > s.hard.commit :: IdAt(t, k) == IdAt(s, k)
  {
    IndexHeld(s, index);
  }

  /** Whatever a host asks of a clean node that has put nothing off leaves it so. */
  lemma OperateDuty<V(!new), S(!new)>(n: Node<V, S>, grants: Grants, op: Operation<V, S>)
    requires Steady(n) && WellFormed(n.state) && Clean(n) && Sound(n, grants) && Attaches(n, op) && Diligent(n)
    ensures Diligent(Operate(n, op).node)
  {
    hide Diligent, Tick, Step, ProposeMany, Compact, Attaches, Sound, Ready, Rests, Leads, WellFormed, AtRest, Steady;
    RestIsAvailable(n);
    SteadyParts(n);
    if AtRest(n) {
      SilentRest(n);
      KeptRests(n, grants);
      ReadyAfter(n, grants, op);
      match op
      case OpTick => TickDuty(n);
      case OpStep(e) => StepDuty(n, e);
      case OpPropose(values) => ProposeDuty(n, values);
      case OpCompact(index, value) => CompactDuty(n, index, value);
    } else {
      BusyStays(n, op);
    }
  }

  lemma SteadyParts<V, S>(n: Node<V, S>)
    requires Steady(n)
    ensures Sized(n) && Timed(n)
  {
  }

  lemma BusyStays<V, S>(n: Node<V, S>, op: Operation<V, S>)
    requires Sized(n) && Timed(n) && !Available(n)
    ensures Operate(n, op).node == n && Operate(n, op).error == Some(Busy)
  {
  }

  // ---- Through a whole life.

  lemma TakeDuty<V, S>(n: Node<V, S>)
    requires Sized(n) && Diligent(n)
    ensures Diligent(NextMessage(n).0) && Diligent(Persisted(n))
  {
    hide Rendered, Diligent;
    SameDuty(n, NextMessage(n).0);
    SameDuty(n, Persisted(n));
  }

  lemma BuiltDuty<V, S>(b: Birth<V, S>, n: Node<V, S>, d: Checkpoint<V, S>, config: Config, cap: nat)
    requires Rebuilt(b, n, d, config, cap)
    ensures Diligent(n)
  {
    BuiltFollows(b, n, d, config, cap);
    BuiltNoProbe(b, n, d, config, cap);
  }

  lemma BuiltNoProbe<V, S>(b: Birth<V, S>, n: Node<V, S>, d: Checkpoint<V, S>, config: Config, cap: nat)
    requires Rebuilt(b, n, d, config, cap)
    ensures n.prevoting.None?
  {
    hide Refreshed, Proper;
    var peers := Peers(b.genesis);
    var k := |peers|;
    RefreshedFrame(Node(
      config, cap, b.hooks, b.genesis, d, Follower, None, PositionOf(peers, config.id), b.genesis, peers,
      Filled<bool>(k, false), Filled<U64>(k, 1), Filled<U64>(k, 0), Filled<bool>(k, false),
          Filled<Option<Outbound>>(k, None), None, None,
      false, None, false, 0, 0, config.seed, None, MAX_U64, 0));
  }

  lemma HappensDuty<V(!new), S(!new)>(b: Birth<V, S>, x: Host<V, S>, y: Host<V, S>, e: Event<V, S>, grants: Grants)
    requires Well(b, x, grants) && Happens(b, x, y, e) && Diligent(x.node)
    ensures Diligent(y.node)
  {
    hide Diligent, Operate, NextMessage, Applied, WriteOf, Sound, Attaches, Delta, Advances, Contiguous, Rebuilt;
    match e {
      case Ask(op) =>
        if x.node.dirty {
          BusyOperate(x.node, op);
        } else {
          OperateDuty(x.node, grants, op);
        }
      case Take => TakeDuty(x.node);
      case Save => TakeDuty(x.node);
      case Crash(config, cap) => BuiltDuty(b, y.node, x.disk, config, cap);
    }
  }

  lemma {:induction false} DiligentAt<V(!new), S(!new)>(b: Birth<V, S>, hs: seq<Host<V, S>>, es: seq<Event<V, S>>,
      x: nat)
    requires Life(b, hs, es) && x <= |es|
    ensures Diligent(hs[x].node)
    decreases x
  {
    hide Diligent, Happens, Well, Rebuilt, Conceived;
    if x == 0 {
      BuiltDuty(b, hs[0].node, hs[0].disk, hs[0].node.config, hs[0].node.cap);
    } else {
      DiligentAt(b, hs, es, x - 1);
      WellAt(b, hs, es, x - 1);
      assert Happens(b, hs[x - 1], hs[x - 1 + 1], es[x - 1]);
      HappensDuty(b, hs[x - 1], hs[x], es[x - 1], Gathered(hs[..x], es[..x - 1]));
    }
  }

  /** At every moment of a life a leader has committed whatever of its own term a quorum holds. */
  lemma LeaderCommitsAll<V(!new), S(!new)>(
    b: Birth<V, S>, hs: seq<Host<V, S>>, es: seq<Event<V, S>>, x: nat, t: U64)
    requires Life(b, hs, es) && x <= |es| && hs[x].node.role == Leader
    requires OfOwnTerm(hs[x].node.state, t) && Quorum(hs[x].node.membership, Holding(hs[x].node, t))
    ensures t <= hs[x].node.state.hard.commit
  {
    hide Life, Quorum, Holding, OfOwnTerm;
    DiligentAt(b, hs, es, x);
  }

  /** At every moment a leader has an entry of its own term, unless its log has no room for one. */
  lemma LeaderHasBarrier<V(!new), S(!new)>(b: Birth<V, S>, hs: seq<Host<V, S>>, es: seq<Event<V, S>>, x: nat)
    requires Life(b, hs, es) && x <= |es| && hs[x].node.role == Leader
    ensures
      var n := hs[x].node;
      Last(n.state).term == n.state.hard.term || |n.state.entries| == n.cap || Last(n.state).index == MAX_U64
  {
    hide Life, Sound, Continues, NothingLeft;
    DiligentAt(b, hs, es, x);
    WellAt(b, hs, es, x);
  }

  /**
   * A leader that is the only voter has always committed its whole log, as soon as an entry of its
   * own term ends it.
   */
  lemma LoneLeaderCommits<V(!new), S(!new)>(b: Birth<V, S>, hs: seq<Host<V, S>>, es: seq<Event<V, S>>, x: nat)
    requires Life(b, hs, es) && x <= |es| && hs[x].node.role == Leader && Alone(hs[x].node)
    requires Last(hs[x].node.state).term == hs[x].node.state.hard.term
    ensures hs[x].node.state.hard.commit == Last(hs[x].node.state).index
  {
    var n := hs[x].node;
    hide Life, Sound, Continues, NothingLeft, WellFormed;
    DiligentAt(b, hs, es, x);
    WellAt(b, hs, es, x);
    GoesParts(hs[x].disk, n);
    LoneHolds(n, Gathered(hs[..x + 1], es[..x]));
  }

  lemma LoneHolds<V(!new), S(!new)>(n: Node<V, S>, grants: Grants)
    requires Sound(n, grants) && Steady(n) && WellFormed(n.state) && n.role == Leader && Alone(n) && LeaderDuty(n)
    requires Last(n.state).term == n.state.hard.term
    ensures n.state.hard.commit == Last(n.state).index
  {
    SoundRests(n, grants);
    assert IsVoter(n.membership, n.config.id);
    SeatingPlaced(n);
    LastTerm(n.state);
    GetContiguous(n.state, Last(n.state).index);
    hide WellFormed, Sound, IdAt, InForce, SlotTables.Fits, AllSeated, IsVoter;
    var last := Last(n.state).index;
    AloneDecides(n, Holding(n, last));
    assert n.peers[n.local] == Some(n.config.id) && n.matched[n.local] == last;
    assert OfOwnTerm(n.state, last);
    assert Quorum(n.membership, Holding(n, last));
  }

  // ---- A single voter's proposals.

  /** None of the values is a configuration record. */
  ghost predicate Plain<V, S>(n: Node<V, S>, values: seq<V>) {
    n.hooks.Some? ==> forall k | 0 <= k < |values| :: n.hooks.value.record(values[k]).None?
  }

  lemma {:induction false} NoRecords<V, S>(entries: seq<Entry<V>>, hooks: Hooks<V, S>, found: (U64, Membership))
    requires forall k | 0 <= k < |entries| && entries[k].value.Some? :: hooks.record(entries[k].value.value).None?
    ensures Records(entries, hooks, found) == found
    decreases |entries|
  {
    if entries != [] {
      NoRecords(entries[..|entries| - 1], hooks, found);
    }
  }

  /** A batch without records leaves the membership in force. */
  lemma PlainInForce<V, S>(n: Node<V, S>, r: Node<V, S>, values: seq<V>)
    requires WellFormed(n.state) && WellFormed(r.state) && Lands(n.state, r.state, values) && Plain(n, values)
    requires r.hooks == n.hooks && r.bootstrap == n.bootstrap
    ensures InForce(r).1 == InForce(n).1
  {
    if n.hooks.Some? {
      InForceFolds(n);
      InForceFolds(r);
      hide WellFormed, InForce;
      var es := r.state.entries[|n.state.entries|..];
      assert r.state.entries == n.state.entries + es;
      forall k | 0 <= k < |es| && es[k].value.Some? ensures n.hooks.value.record(es[k].value.value).None? {
        assert r.state.entries[|n.state.entries| + k].value == Some(values[k]);
      }
      hide Lands;
      RecordsSplit(n.state.entries, es, n.hooks.value, Origin(n));
      NoRecords(es, n.hooks.value, Records(n.state.entries, n.hooks.value, Origin(n)));
      assert Origin(r) == Origin(n);
    } else {
      hide WellFormed;
    }
  }

  /** A leader that is the only voter commits its own batch at once. */
  lemma LoneProposalCommits<V(!new), S(!new)>(n: Node<V, S>, grants: Grants, values: seq<V>)
    requires Kept(n, grants) && Diligent(n) && Admissible(n, |values|) && Alone(n) && Plain(n, values)
    ensures ProposeMany(n, values).node.state.hard.commit == Last(n.state).index + |values|
  {
    hide ProposeMany, Sound, Diligent, WellFormed, Lands, AtRest, InForce, CommitRule, Tells, SlotTables.Fits,
         AllSeated;
    var op: Operation<V, S> := OpPropose(values);
    var r := ProposeMany(n, values).node;
    KeptRests(n, grants);
    OperateDuty(n, grants, op);
    ReadyAfter(n, grants, op);
    OperateSound(n, grants, op);
    ProposalLands(n, values);
    PlainInForce(n, r, values);
    SoundSame(n, grants, r, grants + Brought(n, op));
    ProposalAnnounced(n, values);
    assert IsVoter(r.membership, r.config.id);
    LandsEnd(n.state, r.state, values);
    DutyOf(r);
    LoneHolds(r, grants + Brought(n, op));
  }

  lemma DutyOf<V, S>(r: Node<V, S>)
    requires Diligent(r) && r.role == Leader
    ensures LeaderDuty(r)
  {
  }

  lemma SoundSame<V(!new), S(!new)>(n: Node<V, S>, grants: Grants, r: Node<V, S>, more: Grants)
    requires Sound(n, grants) && Sound(r, more) && InForce(r).1 == InForce(n).1 && Alone(n) && r.config == n.config
    ensures Alone(r)
  {
    hide InForce, IsVoter;
  }

  lemma LandsEnd<V, S>(s: Checkpoint<V, S>, t: Checkpoint<V, S>, values: seq<V>)
    requires WellFormed(s) && WellFormed(t) && values != [] && Lands(s, t, values)
    ensures Last(t).term == t.hard.term && Last(t).index == Last(s).index + |values|
  {
    LandsLast(s, t, values);
    LastIndex(s);
    LastIndex(t);
  }
}
