/**
 * What the cluster API admits, said without the functions that decide it: exactly which
 * commands and which membership changes a leader accepts, and where the commands land
 * (jarl/src/cluster.rs).
 */
module ClusterActs {
  import opened Types
  import opened Checkpoints
  import opened Memberships
  import opened MembershipSets
  import opened MembershipChanges
  import opened QuorumIndexes
  import opened NodeModel
  import opened LocalHistory
  import opened NodeHistory
  import opened SlotTables
  import opened DynamicNodes
  import opened CommitRules
  import opened Queues
  import opened LeaderActs
  import opened Clusters

  // ---- Commands.

  /** A batch of this many commands is admitted: three slots stay free for the protocol. */
  ghost predicate CommandsFit<V, S>(n: ClusterNode<V, S>, count: nat) {
    && AtRest(n) && n.role == Leader && 0 < count
    && |n.state.entries| + count + 3 <= n.cap && Last(n.state).index + count <= MAX_U64
  }

  /** The old log, then the commands in their order, at the next indices, in the leader's term. */
  ghost predicate CommandsLand<V, S>(
    s: Checkpoint<Record<V>, Bundle<S>>, t: Checkpoint<Record<V>, Bundle<S>>, commands: seq<V>)
  {
    && t.snapshot == s.snapshot && t.hard == s.hard.(commit := t.hard.commit)
    && |t.entries| == |s.entries| + |commands| && t.entries[..|s.entries|] == s.entries
    && Last(s).index + |commands| <= MAX_U64
    && forall k | 0 <= k < |commands| ::
         t.entries[|s.entries| + k] == Entry(LogId(Last(s).index + 1 + k, s.hard.term), Some(Command(commands[k])))
  }

  /** Why a batch of this many commands is refused. */
  ghost predicate CommandsRefused<V, S>(n: ClusterNode<V, S>, count: nat, error: Error) {
    if !AtRest(n) then error == Busy
    else if n.role != Leader then error == NotLeader(n.leader)
    else if count == 0 then error == Error.Config
    else if |n.state.entries| + count + 3 > n.cap then error == Full
    else error == Exhausted
  }

  /** What proposing commands does. */
  ghost predicate CommandActs<V, S>(n: ClusterNode<V, S>, commands: seq<V>, r: ClusterNode<V, S>,
      error: Option<Error>) {
    if CommandsFit(n, |commands|) then
      error.None? && CommandsLand(n.state, r.state, commands) && (n.prevoting.None? ==> Announces(n, r))
    else error.Some? && r == n && CommandsRefused(n, |commands|, error.value)
  }

  lemma CommandsAre<V, S>(
    s: Checkpoint<Record<V>, Bundle<S>>, t: Checkpoint<Record<V>, Bundle<S>>, commands: seq<V>, records: seq<Record<V>>)
    requires |records| == |commands| && forall k | 0 <= k < |commands| :: records[k] == Command(commands[k])
    requires Lands(s, t, records)
    ensures CommandsLand(s, t, commands)
  {
    hide Last;
    forall k | 0 <= k < |commands|
      ensures t.entries[|s.entries| + k] == Entry(LogId(Last(s).index + 1 + k, s.hard.term), Some(Command(commands[k])))
    {
      assert records[k] == Command(commands[k]);
    }
  }

  lemma CommandsDo<V(!new), S(!new)>(n: ClusterNode<V, S>, commands: seq<V>)
    requires Sized(n) && Timed(n) && Fits(n) && DistinctPeers(n.peers)
    ensures CommandActs(n, commands, CommandsAdmitted(n, commands).node, CommandsAdmitted(n, commands).error)
  {
    hide ProposeMany, Lands, CommandsLand, Announces, Fits, DistinctPeers, AtRest, Available;
    var records: seq<Record<V>> := seq(|commands|, k requires 0 <= k < |commands| => Command(commands[k]));
    RestIsAvailable(n);
    AdmittedExactly(n, records);
    if CommandsFit(n, |commands|) {
      ProposalLands(n, records);
      CommandsAre(n.state, ProposeMany(n, records).node.state, commands, records);
      if n.prevoting.None? {
        ProposalAnnounced(n, records);
      }
    }
  }

  // ---- Membership changes.

  /** The membership in force is committed and this leader has committed something of its own term. */
  ghost predicate Decided<V, S>(n: ClusterNode<V, S>) {
    && AtRest(n) && n.role == Leader && !IsJoint(n.membership)
    && InForce(n).0 <= n.state.hard.commit && OfOwnTerm(n.state, n.state.hard.commit)
  }

  /** Everybody to be promoted is a learner whose slot says that it holds the leader's whole log. */
  ghost predicate ReadyToVote<V, S>(n: ClusterNode<V, S>, target: Membership) {
    forall id | id in SetOf(target, Voters) && !IsVoter(n.membership, id) ::
      id in SetOf(n.membership, Learners) && Holding(n, Last(n.state).index)(id)
  }

  /** The changes a leader accepts. */
  ghost predicate Allowed<V, S>(n: ClusterNode<V, S>, change: Change) {
    match change
    case ToLearners(learners) =>
      // Learners listed once, none of them a voter, all of them seated beside the voters.
      && Decided(n) && Remaining(n) >= 3
      && NoDuplicates(learners) && IdSet(learners) * SetOf(n.membership, Voters) == {}
      && |SetOf(n.membership, Voters) + IdSet(learners)| <= |n.membership.slots|
    case ToTarget(target) =>
      && Decided(n) && Remaining(n) >= 3 && !IsJoint(target) && ReadyToVote(n, target)
      && |Everyone(target) + SetOf(n.membership, Voters)| <= |target.slots|
    case ToFinal =>
      AtRest(n) && n.role == Leader && IsJoint(n.membership) && InForce(n).0 <= n.state.hard.commit
  }

  /** Why a change is refused, for the first reason that applies. */
  ghost predicate Denied<V, S>(n: ClusterNode<V, S>, change: Change, error: Error) {
    if !AtRest(n) then error == Busy
    else if n.role != Leader then error == NotLeader(n.leader)
    else if change.ToFinal? || !Decided(n) then error == Reconfiguring
    else if change.ToLearners? then
      error == if |SetOf(n.membership, Voters)| + |change.learners| > |n.membership.slots| then Full
               else if NoDuplicates(change.learners) && IdSet(change.learners) * SetOf(n.membership, Voters) == {}
                   then Full
               else Error.Config
    else if IsJoint(change.target) then error == Error.Config
    else if !ReadyToVote(n, change.target) then error == NotCaughtUp
    else error == Full
  }

  lemma CommitHeld<V, S>(s: Checkpoint<V, S>)
    requires WellFormed(s)
    ensures IdAt(s, s.hard.commit).Some?
    ensures Get(s, s.hard.commit).Some? ==> IdAt(s, s.hard.commit) == Some(Get(s, s.hard.commit).value.id)
  {
    LastIndex(s);
    GetContiguous(s, s.hard.commit);
  }

  lemma DecidedExactly<V(!new), S(!new)>(n: ClusterNode<V, S>)
    requires WellFormed(n.state) && Seating(n) && (n.role == Leader ==> n.state.hard.term > 0)
    ensures ChangeAvailable(n).None? <==> Decided(n)
    ensures ChangeAvailable(n).Some? ==>
              ChangeAvailable(n).value ==
              if !AtRest(n) then Busy else if n.role != Leader then NotLeader(n.leader) else Reconfiguring
  {
    RestIsAvailable(n);
    CommitHeld(n.state);
    hide WellFormed, MembershipAt, Fits, DistinctPeers, AllSeated, IsVoter, IsJoint, AtRest, Available, Get;
  }

  lemma ReadyExactly<V, S>(n: ClusterNode<V, S>, target: Membership)
    requires Sized(n) && DistinctPeers(n.peers)
    ensures CaughtUp(n, target) <==> ReadyToVote(n, target)
  {
    ListIsSet(target.slots, Voters);
    ListIsSet(n.membership.slots, Learners);
    hide DistinctPeers, IsVoter, SetOf, ListOf, Holding, MatchedOf, Proper;
    forall id
      ensures id in ListOf(target.slots, Voters) <==> id in SetOf(target, Voters)
      ensures id in ListOf(n.membership.slots, Learners) <==> id in SetOf(n.membership, Learners)
      ensures Holding(n, Last(n.state).index)(id) <==> MatchedOf(n, id) >= Last(n.state).index
    {
      assert id in ListOf(target.slots, Voters) <==> id in IdSet(ListOf(target.slots, Voters));
      assert id in ListOf(n.membership.slots, Learners) <==> id in IdSet(ListOf(n.membership.slots, Learners));
      HoldingIsMatched(n, Last(n.state).index, id);
    }
  }

  lemma HoldingIsMatched<V, S>(n: Node<V, S>, t: U64, id: Id)
    requires Sized(n) && DistinctPeers(n.peers)
    ensures Holding(n, t)(id) <==> MatchedOf(n, id) >= t
  {
    HoldingIsReached(n, t, id);
  }

  lemma LearnersAllowed<V(!new), S(!new)>(n: ClusterNode<V, S>, learners: seq<Id>)
    requires WellFormed(n.state) && Seating(n) && (n.role == Leader ==> n.state.hard.term > 0)
    ensures NextLearners(n, learners).Ok? <==> Allowed(n, ToLearners(learners))
    ensures NextLearners(n, learners).Err? ==> Denied(n, ToLearners(learners), NextLearners(n, learners).error)
  {
    hide WellFormed, Seating, ChangeAvailable, WithLearners, Decided, SetOf, IdSet, ListOf, NoDuplicates, IsJoint,
         AtRest, Proper;
    DecidedExactly(n);
    DecidedLeads(n);
    LearnersErrors(n.membership, learners);
    SeatingFits(n);
    if Decided(n) {
      DecidedStable(n);
      WithLearnersHolds(n.membership, learners);
      ListsCount(n.membership, learners);
    }
  }

  lemma DecidedLeads<V, S>(n: ClusterNode<V, S>)
    ensures Decided(n) ==> AtRest(n) && n.role == Leader
  {
  }

  lemma LearnersErrors(current: Membership, learners: seq<Id>)
    ensures WithLearners(current, learners).Err? ==> WithLearners(current, learners).error == Error.Config
  {
    hide IncludedAll, NoMembers, IsVoter, NoDuplicates;
    NobodyYet(|current.slots|);
    var a, ids := NoMembers(|current.slots|), ListOf(current.slots, Voters);
    IncludedAllAdds(a, ids, Voters);
    if IncludedAll(a, ids, Voters).Ok? {
      AddsFacts(a, IncludedAll(a, ids, Voters).value, IdSet(ids), Voters);
      IncludedAllAdds(IncludedAll(a, ids, Voters).value, learners, Learners);
    }
  }

  lemma DecidedStable<V, S>(n: ClusterNode<V, S>)
    requires Decided(n)
    ensures !IsJoint(n.membership)
  {
  }

  /** Counting the lists, as the source does first, is counting the sets. */
  lemma ListsCount(m: Membership, learners: seq<Id>)
    ensures |ListOf(m.slots, Voters)| == |SetOf(m, Voters)|
    ensures NoDuplicates(learners) && IdSet(learners) * SetOf(m, Voters) == {} ==>
              |SetOf(m, Voters) + IdSet(learners)| == |SetOf(m, Voters)| + |learners|
  {
    ListCounts(m.slots, Voters);
    ProperVoters(m);
    hide Proper;
    hide SetOf, IdSet;
    if NoDuplicates(learners) && IdSet(learners) * SetOf(m, Voters) == {} {
      IdSetCounts(learners);
      assert SetOf(m, Voters) * IdSet(learners) == {};
    }
  }

  lemma {:induction false} ListCounts(slots: seq<Option<Member>>, kind: Kind)
    requires Distinct(slots)
    ensures |ListOf(slots, kind)| == |SetOf(Roster(slots), kind)|
    decreases |slots|
  {
    if slots != [] {
      var n := |slots| - 1;
      ListCounts(slots[..n], kind);
      SetSnoc(slots, kind);
      if Seats(slots, n, kind) && slots[n].value.id in SetOf(Roster(slots[..n]), kind) {
        var k := SetMember(slots[..n], kind, slots[n].value.id);
      }
    }
  }

  lemma {:induction false} IdSetCounts(ids: seq<Id>)
    requires NoDuplicates(ids)
    ensures |IdSet(ids)| == |ids|
    decreases |ids|
  {
    if ids != [] {
      IdSetHead(ids);
      IdSetCounts(ids[1..]);
    }
  }

  lemma TargetAllowed<V(!new), S(!new)>(n: ClusterNode<V, S>, target: Membership)
    requires Sized(n) && WellFormed(n.state) && Seating(n) && (n.role == Leader ==> n.state.hard.term > 0)
    ensures NextJoint(n, target).Ok? <==> Allowed(n, ToTarget(target))
    ensures NextJoint(n, target).Err? ==> Denied(n, ToTarget(target), NextJoint(n, target).error)
  {
    hide WellFormed, Seating, ChangeAvailable, Decided, SetOf, ListOf, IsJoint, CaughtUp, ReadyToVote, Joint, Everyone,
         AtRest;
    DecidedExactly(n);
    DecidedLeads(n);
    SeatingTable(n);
    ReadyExactly(n, target);
    JointHolds(n.membership, target);
    if Decided(n) {
      DecidedStable(n);
    }
  }

  lemma FinalAllowed<V(!new), S(!new)>(n: ClusterNode<V, S>)
    requires Seating(n)
    ensures NextFinal(n).Ok? <==> Allowed(n, ToFinal)
    ensures NextFinal(n).Err? ==> Denied(n, ToFinal, NextFinal(n).error)
  {
    RestIsAvailable(n);
    hide MembershipAt, Fits, DistinctPeers, AllSeated, IsVoter, IsJoint, AtRest, Available, Finalized;
  }

  /** The cluster API accepts exactly the allowed changes. */
  lemma ChangeAllowedExactly<V(!new), S(!new)>(n: ClusterNode<V, S>, change: Change)
    requires Steady(n) && WellFormed(n.state) && Seating(n)
    ensures NextConfiguration(n, change).Ok? <==> Allowed(n, change)
    ensures NextConfiguration(n, change).Err? ==> Denied(n, change, NextConfiguration(n, change).error)
  {
    hide WellFormed, Seating, Allowed, Denied, NextLearners, NextJoint, NextFinal;
    match change
    case ToLearners(learners) => LearnersAllowed(n, learners);
    case ToTarget(target) => TargetAllowed(n, target);
    case ToFinal => FinalAllowed(n);
  }

  /** The membership that a change is meant to bring about, as sets. */
  ghost predicate Becomes(current: Membership, change: Change, next: Membership) {
    match change
    case ToLearners(learners) => Holds(next, SetOf(current, Voters), {}, IdSet(learners))
    case ToTarget(target) => Holds(next, SetOf(target, Voters), SetOf(current, Voters), SetOf(target, Learners))
    case ToFinal => Holds(next, SetOf(current, Voters), {}, SetOf(current, Learners))
  }

  /** What asking for a change does: its record is the new last entry, is judged and announced, or nothing changes. */
  ghost predicate ChangeActs<V(!new), S(!new)>(
    n: ClusterNode<V, S>, change: Change, r: ClusterNode<V, S>, error: Option<Error>)
  {
    if !Allowed(n, change) then error.Some? && r == n && Denied(n, change, error.value)
    else if |n.state.entries| >= n.cap then error == Some(Full) && r == n
    else if Last(n.state).index == MAX_U64 then error == Some(Exhausted) && r == n
    else
      && error.None? && Announces(n, r)
      && exists next: Membership :: Becomes(n.membership, change, next)
          && Lands(n.state, r.state, [Configuration(next)])
  }

  lemma AllowedBecomes<V(!new), S(!new)>(n: ClusterNode<V, S>, change: Change)
    requires Steady(n) && WellFormed(n.state) && Seating(n) && Allowed(n, change)
    requires NextConfiguration(n, change).Ok?
    ensures Becomes(n.membership, change, NextConfiguration(n, change).value) && AtRest(n) && n.role == Leader
  {
    hide WellFormed, Fits, DistinctPeers, AllSeated, IsVoter, Proper, MembershipAt, Joint, WithLearners, Finalized,
         SetOf, IdSet,
         Holds, AtRest, IsJoint, CaughtUp, ReadyToVote, ChangeAvailable, Everyone, ListOf, NoDuplicates, OfOwnTerm;
    match change
    case ToLearners(learners) => WithLearnersHolds(n.membership, learners);
    case ToTarget(target) => JointHolds(n.membership, target);
    case ToFinal => FinalizedSets(n.membership);
  }

  lemma ChangeDoes<V(!new), S(!new)>(n: ClusterNode<V, S>, change: Change)
    requires Steady(n) && WellFormed(n.state) && Seating(n)
    ensures ChangeActs(n, change, Changed(n, change).node, Changed(n, change).error)
  {
    hide WellFormed, Seating, NextConfiguration, ProposeMany, Allowed, Denied, Becomes, Lands, Announces, AtRest;
    ChangeAllowedExactly(n, change);
    if Allowed(n, change) {
      AllowedBecomes(n, change);
      var values: seq<Record<V>> := [Configuration(NextConfiguration(n, change).value)];
      AdmittedExactly(n, values);
      SeatingTable(n);
      if Admissible(n, 1) {
        ProposalLands(n, values);
        ProposalAnnounced(n, values);
      }
    }
  }
}
