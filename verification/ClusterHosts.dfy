/** The cluster API as an object around its node (jarl/src/cluster.rs). */
module ClusterHosts {
  import opened Types
  import opened Checkpoints
  import opened LogStates
  import opened Memberships
  import MembershipChanges
  import opened MembershipSets
  import opened MembershipTables
  import opened NodeModel
  import opened SlotTables
  import opened DynamicOperations
  import opened Queues
  import opened NodeActs
  import opened RaftNodes
  import opened Clusters
  import opened ClusterActs

  class Cluster<V(!new), S(!new)> {
    const node: RaftNode<Record<V>, Bundle<S>>

    ghost predicate Valid()
      reads this, node, node.state, node.state.slots
    {
      node.Valid() && node.hooks == Some(ClusterHooks(node.bootstrap))
    }

    /** Cluster::new; the size of the genesis membership is MAX. */
    constructor (config: Config, state: LogState<Record<V>, Bundle<S>>, genesis: Membership)
      requires state.Valid() && state.slots.Length >= 4 && Configured(config)
      ensures Valid() && fresh(node) && node.state == state
      ensures node.View() ==
              Built(config, state.slots.Length, state.Contents(), genesis, Some(ClusterHooks(genesis)))
    {
      HooksAlwaysFit<V, S>(genesis);
      node := new RaftNode(config, state, genesis, Some(ClusterHooks(genesis)));
    }

    function Remaining(): (r: int)
      requires Valid()
      reads this, node, node.state, node.state.slots
      ensures r == Clusters.Remaining(node.View())
    {
      node.HardOf();
      node.state.slots.Length - node.state.len
    }

    lemma CommandsAsSaid(commands: seq<V>)
      requires Valid()
      ensures
        var r := CommandsAdmitted(node.View(), commands);
        CommandActs(node.View(), commands, r.node, r.error)
    {
      hide LogState.Contents, LogState.Valid, HooksFit, Proper, DistinctPeers, CommandActs, CommandsAdmitted;
      node.ViewFits();
      CommandsDo(node.View(), commands);
    }

    method Idle() returns (error: Option<Error>)
      requires Valid()
      ensures error == Clusters.Idle(node.View())
    {
      if !node.IsAvailable() {
        return Some(Busy);
      }
      if node.role != Leader {
        return Some(NotLeader(node.leader));
      }
      return None;
    }

    method ChangeAvailable() returns (error: Option<Error>)
      requires Valid()
      ensures error == Clusters.ChangeAvailable(node.View())
    {
      hide LogState.Contents, LogState.Valid, HooksFit, Proper, DistinctPeers, Available;
      node.HardOf();
      error := Idle();
      if error.Some? {
        return;
      }
      var at := node.RecordAt(node.state.LastId().index);
      if IsJoint(at.1) || at.0 > node.state.hard.commit {
        return Some(Reconfiguring);
      }
      var e := node.state.GetEntry(node.state.hard.commit);
      var term :=
        if e.Some? then Some(e.value.id.term)
        else if node.state.snapshot.Some? && node.state.snapshot.value.last.index == node.state.hard.commit
        then Some(node.state.snapshot.value.last.term)
        else None;
      if term != Some(node.state.hard.term) {
        return Some(Reconfiguring);
      }
      return None;
    }

    /** Append one configuration record. */
    method Propose(next: Membership) returns (range: Result<LogId, Error>)
      requires Valid()
      modifies node, node.state, node.state.slots
      ensures Valid()
      ensures Outcome(node.View(), if range.Ok? then None else Some(range.error)) ==
              ProposeMany(old(node.View()), [Configuration(next)])
      ensures range.Ok? ==> range.value.index == Last(old(node.View()).state).index + 1
    {
      var r := node.ProposeMany([Configuration(next)]);
      return match r case Ok(pair) => Ok(pair.0) case Err(e) => Err(e);
    }

    /** Replace the learners without changing voters. */
    method SetLearners(learners: seq<Id>) returns (range: Result<LogId, Error>)
      requires Valid()
      modifies node, node.state, node.state.slots
      ensures Valid()
      ensures Outcome(node.View(), if range.Ok? then None else Some(range.error)) ==
              Changed(old(node.View()), ToLearners(learners))
      ensures old(WellKept(node.View())) ==>
                ChangeActs(old(node.View()), ToLearners(learners), node.View(),
                    if range.Ok? then None else Some(range.error))
    {
      hide WellKept, ChangeActs;
      ChangeAsSaid(node.View(), ToLearners(learners));
      hide LogState.Contents, LogState.Valid, HooksFit, Proper, DistinctPeers, ProposeMany, Clusters.ChangeAvailable,
           Clusters.Remaining;
      var error := ChangeAvailable();
      if error.Some? {
        return Err(error.value);
      }
      var voters := Listed(node.membership, Voters);
      if |voters| + |learners| > |node.peers| {
        return Err(Full);
      }
      var next := WithLearners(node.membership, learners);
      if next.Err? {
        return Err(next.error);
      }
      LearnersProper(node.membership, learners);
      if Remaining() <= 2 {
        return Err(Full);
      }
      range := Propose(next.value);
    }

    /** Begin joint consensus with a stable target. */
    method Reconfigure(target: Membership) returns (range: Result<LogId, Error>)
      requires Valid()
      modifies node, node.state, node.state.slots
      ensures Valid()
      ensures Outcome(node.View(), if range.Ok? then None else Some(range.error)) ==
              Changed(old(node.View()), ToTarget(target))
      ensures old(WellKept(node.View())) ==>
                ChangeActs(old(node.View()), ToTarget(target), node.View(),
                    if range.Ok? then None else Some(range.error))
    {
      hide WellKept, ChangeActs;
      ChangeAsSaid(node.View(), ToTarget(target));
      hide LogState.Contents, LogState.Valid, HooksFit, Proper, DistinctPeers, ProposeMany, Clusters.ChangeAvailable,
           Clusters.Remaining, Joint;
      var error := ChangeAvailable();
      if error.Some? {
        return Err(error.value);
      }
      if IsJoint(target) {
        return Err(Error.Config);
      }
      var ready := AllCaughtUp(target);
      if !ready {
        return Err(NotCaughtUp);
      }
      if Remaining() < 3 {
        return Err(Full);
      }
      JointProper(node.membership, target);
      var joint := JointWith(node.membership, target);
      if joint.Err? {
        return Err(joint.error);
      }
      range := Propose(joint.value);
    }

    /** Every voter to be promoted is a learner that holds the last entry. */
    method AllCaughtUp(target: Membership) returns (ready: bool)
      requires Valid()
      ensures ready == CaughtUp(node.View(), target)
    {
      hide LogState.Contents, LogState.Valid, HooksFit, Proper, DistinctPeers;
      var voters := Listed(target, Voters);
      var learners := Listed(node.membership, Learners);
      for k := 0 to |voters|
        invariant forall i | 0 <= i < k && !IsVoter(node.membership, voters[i]) ::
          voters[i] in learners && MatchedOf(node.View(), voters[i]) >= Last(node.View().state).index
      {
        if !IsVoter(node.membership, voters[k]) {
          var matched := PositionAt(node.peers, node.matched)(voters[k]);
          if voters[k] !in learners || matched < node.state.LastId().index {
            assert voters[k] in ListOf(target.slots, Voters);
            return false;
          }
        }
      }
      return true;
    }

    /** Append the final configuration once the joint one is committed. */
    method FinishReconfiguration() returns (range: Result<LogId, Error>)
      requires Valid()
      modifies node, node.state, node.state.slots
      ensures Valid()
      ensures Outcome(node.View(), if range.Ok? then None else Some(range.error)) == Changed(old(node.View()), ToFinal)
      ensures old(WellKept(node.View())) ==>
                ChangeActs(old(node.View()), ToFinal, node.View(), if range.Ok? then None else Some(range.error))
    {
      hide WellKept, ChangeActs;
      ChangeAsSaid(node.View(), ToFinal);
      hide LogState.Contents, LogState.Valid, HooksFit, Proper, DistinctPeers, ProposeMany, Finalized, Available;
      node.HardOf();
      var error := Idle();
      if error.Some? {
        return Err(error.value);
      }
      var at := node.RecordAt(node.state.LastId().index);
      if !IsJoint(at.1) || at.0 > node.state.hard.commit {
        return Err(Reconfiguring);
      }
      var final := Finalize(at.1);
      FinalProper(at.1);
      range := Propose(final);
    }

    /** Snapshot the application with the membership at the same index. */
    method Compact(index: U64, application: S) returns (error: Option<Error>)
      requires Valid()
      modifies node, node.state, node.state.slots
      ensures Valid()
      ensures Outcome(node.View(), error) == Folded(old(node.View()), index, application)
      ensures
        var n := old(node.View());
        WellKept(n) ==> CompactActs(n, index, Bundle(application, MembershipAt(n, index).1), node.View(), error)
    {
      hide WellKept, CompactActs, Attaches, MembershipAt, NodeModel.Compact;
      node.ViewFits();
      FoldAttaches(node.View(), index, application);
      hide LogState.Contents, LogState.Valid, HooksFit, Proper, DistinctPeers;
      var at := node.RecordAt(index);
      error := node.Compact(index, Bundle(application, at.1));
    }

    /** Admit commands, leaving three slots for the protocol. */
    method ProposeBatch(commands: seq<V>) returns (range: Result<(LogId, LogId), Error>)
      requires Valid()
      modifies node, node.state, node.state.slots
      ensures Valid()
      ensures Outcome(node.View(), if range.Ok? then None else Some(range.error)) ==
              CommandsAdmitted(old(node.View()), commands)
      ensures CommandActs(old(node.View()), commands, node.View(), if range.Ok? then None else Some(range.error))
    {
      hide CommandActs;
      CommandsAsSaid(commands);
      hide LogState.Contents, LogState.Valid, HooksFit, Proper, DistinctPeers, ProposeMany, Available,
           Clusters.Remaining;
      var error := Idle();
      if error.Some? {
        return Err(error.value);
      }
      if |commands| > (if Remaining() <= 3 then 0 else Remaining() - 3) {
        return Err(Full);
      }
      var records := seq(|commands|, k requires 0 <= k < |commands| => Command(commands[k]));
      range := node.ProposeMany(records);
    }
  }

  lemma ChangeAsSaid<V(!new), S(!new)>(n: ClusterNode<V, S>, change: Change)
    requires Sized(n) && Timed(n)
    ensures WellKept(n) ==> ChangeActs(n, change, Changed(n, change).node, Changed(n, change).error)
  {
    hide ChangeActs, Changed, Seating, WellFormed, AtRest;
    if WellKept(n) {
      ChangeDoes(n, change);
    }
  }

  lemma HooksAlwaysFit<V(!new), S(!new)>(genesis: Membership)
    ensures HooksFit(ClusterHooks<V, S>(genesis), |genesis.slots|)
  {
  }

  lemma JointProper(current: Membership, target: Membership)
    ensures Joint(current, target).Ok? ==> Proper(Joint(current, target).value)
  {
    hide Joint;
    MembershipChanges.JointHolds(current, target);
  }

  lemma FinalProper(r: Membership)
    ensures Proper(Finalized(r))
  {
    hide Finalized;
    MembershipChanges.FinalizedSets(r);
  }
}
