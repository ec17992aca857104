/**
 * Membership changes through the cluster API (jarl/src/cluster.rs), as functions of the
 * node value: which configuration record a leader may append, and why the chain of
 * records is safe (section 6 of the Raft paper).
 */
module Clusters {
  import opened Types
  import opened Checkpoints
  import opened Memberships
  import opened MembershipSets
  import opened MembershipChanges
  import opened NodeModel
  import opened LocalHistory
  import opened NodeHistory
  import opened SlotTables
  import opened DynamicNodes
  import opened DynamicOperations
  import opened LeaderActs

  datatype Record<+V> = Command(value: V) | Configuration(membership: Membership)

  /** Snapshot contents: the application and the membership at the same boundary. */
  datatype Bundle<+S> = Bundle(application: S, membership: Membership)

  type ClusterNode<!V, !S> = Node<Record<V>, Bundle<S>>

  /**
   * What Cluster::new plugs in. Rust's MAX makes every membership as long as the
   * genesis one; here the hooks look at no other.
   */
  function RecordHook<V>(genesis: Membership): Record<V> -> Option<Membership> {
    (r: Record<V>) => if r.Configuration? && |r.membership.slots| == |genesis.slots| then Some(r.membership) else None
  }

  function SnapshotHook<S>(genesis: Membership): Bundle<S> -> Membership {
    (s: Bundle<S>) => if |s.membership.slots| == |genesis.slots| then s.membership else genesis
  }

  function ClusterHooks<V, S>(genesis: Membership): Hooks<Record<V>, Bundle<S>> {
    Hooks(RecordHook(genesis), SnapshotHook(genesis))
  }

  /** A node as Cluster::new builds it. */
  ghost predicate Clustered<V, S>(n: ClusterNode<V, S>) {
    n.hooks == Some(ClusterHooks(n.bootstrap))
  }

  function Remaining<V, S>(n: ClusterNode<V, S>): int {
    n.cap - |n.state.entries|
  }

  function CommittedTerm<V, S>(s: Checkpoint<V, S>): Option<U64> {
    var e := Get(s, s.hard.commit);
    if e.Some? then Some(e.value.id.term)
    else if s.snapshot.Some? && s.snapshot.value.last.index == s.hard.commit then Some(s.snapshot.value.last.term)
    else None
  }

  function Idle<V, S>(n: ClusterNode<V, S>): Option<Error> {
    if !Available(n) then Some(Busy)
    else if n.role != Leader then Some(NotLeader(n.leader))
    else None
  }

  /** Cluster::change_available. */
  function ChangeAvailable<V, S>(n: ClusterNode<V, S>): Option<Error> {
    var at := MembershipAt(n, Last(n.state).index);
    if Idle(n).Some? then Idle(n)
    else if IsJoint(at.1) || at.0 > n.state.hard.commit then Some(Reconfiguring)
    else if CommittedTerm(n.state) != Some(n.state.hard.term) then Some(Reconfiguring)
    else None
  }

  lemma LearnersProper(current: Membership, learners: seq<Id>)
    requires WithLearners(current, learners).Ok?
    ensures Proper(WithLearners(current, learners).value)
  {
    assert IdSet(learners) * SetOf(current, Voters) == {} by {
      if id :| id in IdSet(learners) * SetOf(current, Voters) {
        var k := SetMember(current.slots, Voters, id);
        assert IsVoter(current, id);
      }
    }
    LearnersFit(current, learners);
  }

  /** The configuration set_learners would append. */
  function NextLearners<V, S>(n: ClusterNode<V, S>, learners: seq<Id>): Result<Membership, Error> {
    if ChangeAvailable(n).Some? then Err(ChangeAvailable(n).value)
    else if |ListOf(n.membership.slots, Voters)| + |learners| > |n.peers| then Err(Full)
    else
      match WithLearners(n.membership, learners)
      case Err(e) => Err(e)
      case Ok(next) =>
        LearnersProper(n.membership, learners);
        if Remaining(n) <= 2 then Err(Full) else Ok(next)
  }

  /** Everybody promoted is a learner that holds the leader's last entry. */
  predicate CaughtUp<V, S>(n: ClusterNode<V, S>, target: Membership) {
    forall id | id in ListOf(target.slots, Voters) && !IsVoter(n.membership, id) ::
      id in ListOf(n.membership.slots, Learners) && MatchedOf(n, id) >= Last(n.state).index
  }

  /** The joint configuration reconfigure would append. */
  function NextJoint<V, S>(n: ClusterNode<V, S>, target: Membership): Result<Membership, Error> {
    if ChangeAvailable(n).Some? then Err(ChangeAvailable(n).value)
    else if IsJoint(target) then Err(Error.Config)
    else if !CaughtUp(n, target) then Err(NotCaughtUp)
    else if Remaining(n) < 3 then Err(Full)
    else
      JointHolds(n.membership, target);
      match Joint(n.membership, target)
      case Err(e) => Err(e)
      case Ok(next) => Ok(next)
  }

  /** The final configuration finish_reconfiguration would append. */
  function NextFinal<V, S>(n: ClusterNode<V, S>): Result<Membership, Error> {
    var at := MembershipAt(n, Last(n.state).index);
    if Idle(n).Some? then Err(Idle(n).value)
    else if !IsJoint(at.1) || at.0 > n.state.hard.commit then Err(Reconfiguring)
    else
      FinalizedSets(at.1);
      Ok(Finalized(at.1))
  }

  datatype Change = ToLearners(learners: seq<Id>) | ToTarget(target: Membership) | ToFinal

  function NextConfiguration<V, S>(n: ClusterNode<V, S>, change: Change): Result<Membership, Error> {
    match change
    case ToLearners(learners) => NextLearners(n, learners)
    case ToTarget(target) => NextJoint(n, target)
    case ToFinal => NextFinal(n)
  }

  /** Change the membership: append the record, or say why not. */
  function Changed<V, S>(n: ClusterNode<V, S>, change: Change): (r: Outcome<Record<V>, Bundle<S>>)
    requires Sized(n) && Timed(n)
    ensures Sized(r.node) && Same(n, r.node)
  {
    match NextConfiguration(n, change)
    case Err(e) => Outcome(n, Some(e))
    case Ok(next) => ProposeMany(n, [Configuration(next)])
  }

  /** Cluster::propose_batch keeps three slots for the protocol. */
  function CommandsAdmitted<V, S>(n: ClusterNode<V, S>, commands: seq<V>): (r: Outcome<Record<V>, Bundle<S>>)
    requires Sized(n) && Timed(n)
    ensures Sized(r.node) && Same(n, r.node)
  {
    if Idle(n).Some? then Outcome(n, Idle(n))
    else if |commands| > (if Remaining(n) <= 3 then 0 else Remaining(n) - 3) then Outcome(n, Some(Full))
    else ProposeMany(n, seq(|commands|, k requires 0 <= k < |commands| => Command(commands[k])))
  }

  /** Cluster::compact: the snapshot carries the membership at that index, not the latest one. */
  function Folded<V, S>(n: ClusterNode<V, S>, index: U64, application: S): (r: Outcome<Record<V>, Bundle<S>>)
    requires Sized(n) && Timed(n)
    ensures Sized(r.node) && Same(n, r.node)
  {
    Compact(n, index, Bundle(application, MembershipAt(n, index).1))
  }

  // ---- The latest record is the committed one.

  lemma {:induction false} RecordsAbove<V, S>(
    entries: seq<Entry<V>>, hooks: Hooks<V, S>, found: (U64, Membership), bound: U64)
    requires forall k | 0 <= k < |entries| :: entries[k].id.index > bound
    ensures Records(entries, hooks, found) == found || Records(entries, hooks, found).0 > bound
    decreases |entries|
  {
    if entries != [] {
      RecordsAbove(entries[..|entries| - 1], hooks, found, bound);
    }
  }

  /** Records above a bound do not matter once the last record is known to lie below it. */
  lemma RecordsUpTo<V, S>(
    entries: seq<Entry<V>>, cut: nat, hooks: Hooks<V, S>, found: (U64, Membership), bound: U64)
    requires cut <= |entries| && forall k | cut <= k < |entries| :: entries[k].id.index > bound
    requires Records(entries, hooks, found).0 <= bound
    ensures Records(entries[..cut], hooks, found) == Records(entries, hooks, found)
  {
    hide Records;
    var a, b := entries[..cut], entries[cut..];
    assert a + b == entries;
    RecordsSplit(a, b, hooks, found);
    RecordsAbove(b, hooks, Records(a, hooks, found), bound);
  }

  lemma AboveCommit<V, S>(s: Checkpoint<V, S>)
    requires WellFormed(s)
    ensures Base(s).index <= s.hard.commit <= Base(s).index + |s.entries|
    ensures forall k | s.hard.commit - Base(s).index <= k < |s.entries| :: s.entries[k].id.index > s.hard.commit
  {
    LastIndex(s);
  }

  /** When no record lies above the commit index, the latest membership is the committed one. */
  lemma LatestIsCommitted<V, S>(n: ClusterNode<V, S>)
    requires WellFormed(n.state) && InForce(n).0 <= n.state.hard.commit
    ensures MembershipAt(n, n.state.hard.commit) == InForce(n)
  {
    if n.hooks.Some? {
      hide WellFormed, InForce, MembershipAt, Proper, Records;
      AboveCommit(n.state);
      InForceFolds(n);
      MembershipFolds(n, n.state.hard.commit);
      RecordsUpTo(n.state.entries, n.state.hard.commit - Base(n.state).index, n.hooks.value, Origin(n),
                  n.state.hard.commit);
    }
  }

  /** change_available succeeds only when the latest membership is committed and stable, in the leader's own term. */
  lemma ChangeAvailableMeans<V(!new), S(!new)>(n: ClusterNode<V, S>)
    requires WellFormed(n.state) && Seating(n) && ChangeAvailable(n).None?
    ensures n.role == Leader && !IsJoint(n.membership)
    ensures n.membership == MembershipAt(n, n.state.hard.commit).1
    ensures IdAt(n.state, n.state.hard.commit).Some?
    ensures IdAt(n.state, n.state.hard.commit).value.term == n.state.hard.term
  {
    hide Fits, DistinctPeers, AllSeated, IsVoter, Proper, Contiguous;
    LatestIsCommitted(n);
    hide MembershipAt;
  }

  /** Every change replaces the committed membership by one it may be succeeded by. */
  lemma ChangeSucceeds<V(!new), S(!new)>(n: ClusterNode<V, S>, change: Change)
    requires WellFormed(n.state) && Seating(n) && NextConfiguration(n, change).Ok?
    ensures n.role == Leader
    ensures n.membership == MembershipAt(n, n.state.hard.commit).1
    ensures Succeeds(n.membership, NextConfiguration(n, change).value)
  {
    hide Fits, DistinctPeers, AllSeated, IsVoter, Proper, Contiguous, MembershipAt, SetOf, Finalized, Joint,
         WithLearners,
         IsJoint, Everyone, CommittedTerm, CaughtUp;
    match change {
      case ToLearners(learners) =>
        ChangeAvailableMeans(n);
        WithLearnersHolds(n.membership, learners);
        StaysStable(NextConfiguration(n, change).value);
      case ToTarget(target) =>
        ChangeAvailableMeans(n);
        JointHolds(n.membership, target);
        OldMakesJoint(n.membership, NextConfiguration(n, change).value);
      case ToFinal =>
        LatestIsCommitted(n);
        FinalizedSets(n.membership);
        StaysStable(NextConfiguration(n, change).value);
    }
  }

  lemma StaysStable(r: Roster)
    ensures SetOf(r, OldVoters) == {} ==> !IsJoint(r)
  {
    JointIsNonempty(r);
  }

  lemma OldMakesJoint(current: Membership, r: Roster)
    requires SetOf(r, OldVoters) == SetOf(current, Voters)
    ensures IsJoint(r)
  {
    ProperVoters(current);
    JointIsNonempty(r);
  }

  /**
   * The joint-consensus chain: the record a leader appends replaces the membership
   * committed at that leader, and every quorum of one meets every quorum of the other.
   */
  lemma ChangeQuorumsMeet<V(!new), S(!new)>(n: ClusterNode<V, S>, change: Change, a: Id -> bool, b: Id -> bool)
    returns (j: Id)
    requires WellFormed(n.state) && Seating(n) && NextConfiguration(n, change).Ok?
    requires Quorum(MembershipAt(n, n.state.hard.commit).1, a) && Quorum(NextConfiguration(n, change).value, b)
    ensures a(j) && b(j)
  {
    hide Seating, WellFormed, NextConfiguration, Quorum, Succeeds, MembershipAt;
    ChangeSucceeds(n, change);
    j := QuorumsMeet(n.membership, NextConfiguration(n, change).value, a, b);
  }

  // ---- What a change does to the node.

  lemma RecordTakesForce<V(!new), S(!new)>(n: ClusterNode<V, S>, x: ClusterNode<V, S>, next: Membership, id: LogId)
    requires x.hooks == n.hooks && Clustered(n) && |next.slots| == |n.bootstrap.slots|
    requires x.state.entries == n.state.entries + [Entry(id, Some(Configuration(next)))]
    requires WellFormed(x.state)
    ensures InForce(x) == (id.index, next)
  {
    InForceFolds(x);
    assert x.state.entries[|x.state.entries| - 1] == Entry(id, Some(Configuration(next)));
  }

  lemma NextFits<V(!new), S(!new)>(n: ClusterNode<V, S>, change: Change)
    requires Fits(n) && |n.membership.slots| == |n.peers| && NextConfiguration(n, change).Ok?
    requires change.ToTarget? ==> |change.target.slots| == |n.peers|
    ensures |NextConfiguration(n, change).value.slots| == |n.peers|
  {
    hide Proper, IsVoter, IsJoint;
    match change {
      case ToLearners(learners) => IncludedSizes(n.membership, learners);
      case ToTarget(target) => JointSize(n.membership, target);
      case ToFinal =>
        MembershipFits(n, Last(n.state).index);
    }
  }

  /** An admitted record is the last entry of the log, at the next index. */
  lemma RecordLands<V, S>(n: Node<V, S>, value: V)
    requires Sized(n) && Timed(n) && ProposeMany(n, [value]).error.None?
    ensures Last(n.state).index < MAX_U64
    ensures
      var r := ProposeMany(n, [value]).node;
      && r.state.entries ==
           n.state.entries + [Entry(LogId(Last(n.state).index + 1, n.state.hard.term), Some(value))]
      && r.hooks == n.hooks && r.bootstrap == n.bootstrap
  {
    hide ProposeMany, Lands, Admissible, Last;
    AdmittedExactly(n, [value]);
    ProposalLands(n, [value]);
    LandsOnce(n.state, ProposeMany(n, [value]).node.state, value);
  }

  lemma LandsOnce<V, S>(s: Checkpoint<V, S>, t: Checkpoint<V, S>, value: V)
    requires Lands(s, t, [value])
    ensures Last(s).index < MAX_U64
    ensures t.entries == s.entries + [Entry(LogId(Last(s).index + 1, s.hard.term), Some(value))]
  {
    assert [value][0] == value;
    assert t.entries[|s.entries| + 0] == Entry(LogId(Last(s).index + 1, s.hard.term), Some(value));
    assert t.entries == t.entries[..|s.entries|] + [t.entries[|s.entries|]];
  }

  /** A change that succeeds takes force at once: the new record is the node's membership, not yet its committed one. */
  lemma ChangeTakesForce<V(!new), S(!new)>(n: ClusterNode<V, S>, grants: set<(U64, Id)>, change: Change)
    requires Steady(n) && WellFormed(n.state) && Clean(n) && Sound(n, grants) && Clustered(n)
    requires change.ToTarget? ==> |change.target.slots| == |n.peers|
    requires Changed(n, change).error.None?
    ensures NextConfiguration(n, change).Ok?
    ensures
      var r := Changed(n, change).node;
      && InForce(r) == (Last(n.state).index + 1, NextConfiguration(n, change).value)
      && r.membership == NextConfiguration(n, change).value
  {
    hide WellFormed, InForce, Fits, Seating, Sound, NextConfiguration, ProposeMany, Available;
    SoundSeating(n, grants);
    SeatingFits(n);
    var next := NextConfiguration(n, change).value;
    NextFits(n, change);
    OperateSound(n, grants, OpPropose([Configuration(next)]));
    var r := ProposeMany(n, [Configuration(next)]).node;
    SoundSeating(r, grants + Brought(n, OpPropose([Configuration(next)])));
    SeatingFits(r);
    SeatingPlaced(n);
    OperateGoes(n, OpPropose([Configuration(next)]));
    GoesWellFormed(n.state, r);
    RecordLands(n, Configuration(next));
    RecordTakesForce(n, r, next, LogId(Last(n.state).index + 1, n.state.hard.term));
  }

  lemma GoesWellFormed<V, S>(d: Checkpoint<V, S>, n: Node<V, S>)
    requires Goes(d, n)
    ensures WellFormed(n.state)
  {
  }

  lemma SoundSeating<V(!new), S(!new)>(n: Node<V, S>, grants: set<(U64, Id)>)
    requires Sound(n, grants)
    ensures Seating(n)
  {
  }

  lemma SeatingFits<V(!new), S(!new)>(n: Node<V, S>)
    requires Seating(n)
    ensures Fits(n) && n.membership == InForce(n).1
    ensures |n.membership.slots| == |n.peers| && |n.bootstrap.slots| == |n.peers|
  {
    hide MembershipAt;
    MembershipFits(n, Last(n.state).index);
  }

  lemma {:induction false} IncludedAllSize(slots: seq<Option<Member>>, ids: seq<Id>, kind: Kind)
    ensures IncludedAll(slots, ids, kind).Ok? ==> |IncludedAll(slots, ids, kind).value| == |slots|
    decreases |ids|
  {
    if ids != [] && Included(slots, ids[0], kind).Ok? {
      IncludedAllSize(Included(slots, ids[0], kind).value, ids[1..], kind);
    }
  }

  lemma IncludedSizes(current: Membership, learners: seq<Id>)
    ensures WithLearners(current, learners).Ok? ==> |WithLearners(current, learners).value.slots| == |current.slots|
  {
    hide NoMembers, IncludedAll;
    var a := NoMembers(|current.slots|);
    NoMembersSize(|current.slots|);
    var ids := ListOf(current.slots, Voters);
    IncludedAllSize(a, ids, Voters);
    if IncludedAll(a, ids, Voters).Ok? {
      IncludedAllSize(IncludedAll(a, ids, Voters).value, learners, Learners);
    }
  }

  lemma JointSize(current: Membership, target: Membership)
    ensures Joint(current, target).Ok? ==> |Joint(current, target).value.slots| == |target.slots|
  {
    IncludedAllSize(target.slots, ListOf(current.slots, Voters), OldVoters);
  }

  /** A compaction through the API never changes anybody's membership: it keeps the cache coherent. */
  lemma FoldAttaches<V(!new), S(!new)>(n: ClusterNode<V, S>, index: U64, application: S)
    requires Clustered(n) && Fits(n)
    ensures Attaches(n, OpCompact(index, Bundle(application, MembershipAt(n, index).1)))
  {
    hide MembershipAt;
    MembershipFits(n, index);
  }
}
