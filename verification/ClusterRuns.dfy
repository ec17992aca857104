/**
 * What a cluster host does through the cluster API (jarl/src/cluster.rs), over whole
 * runs: without membership changes it is a run of Worlds, so everything proved there
 * holds for it; and along any life the records a leader appends form a chain.
 */
module ClusterRuns {
  import opened Types
  import opened Checkpoints
  import opened Memberships
  import opened MembershipChanges
  import opened NodeModel
  import opened RaftHistory
  import opened FixedVoters
  import opened LocalHistory
  import opened NodeHistory
  import opened SlotTables
  import opened DynamicNodes
  import opened DynamicElections
  import opened DynamicOperations
  import opened Machines
  import opened Restarts
  import opened Worlds
  import opened HostRuns
  import opened Clusters

  // ---- Commands only.

  function ClusterEngine<V, S>(genesis: Membership): Engine<Record<V>, Bundle<S>> {
    Engine(Some(ClusterHooks(genesis)), genesis)
  }

  /** The application inside the bundle applies commands; the membership rides along. */
  function ClusterMachine<V, S>(m: Machine<V, S>, genesis: Membership): Machine<Record<V>, Bundle<S>> {
    Machine(Bundle(m.init, genesis),
            (b: Bundle<S>, r: Record<V>) =>
              if r.Command? then Bundle(m.apply(b.application, r.value), b.membership) else b)
  }

  function ClusterSetting<V, S>(members: seq<Id>, m: Machine<V, S>, genesis: Membership)
    : Setting<Record<V>, Bundle<S>>
  {
    Setting(members, ClusterMachine(m, genesis), ClusterEngine(genesis))
  }

  function CommandsOf<V>(commands: seq<V>): seq<Record<V>> {
    seq(|commands|, k requires 0 <= k < |commands| => Command(commands[k]))
  }

  /** Whatever propose_batch admits is a justified proposal. */
  lemma CommandsJustified<V, S>(
    g: Setting<Record<V>, Bundle<S>>, network: seq<Envelope<Record<V>, Bundle<S>>>, n: ClusterNode<V, S>,
    commands: seq<V>)
    requires g.engine == ClusterEngine(g.engine.genesis) && Sized(n) && Timed(n)
    ensures Justified(g, network, n, OpPropose(CommandsOf(commands)))
    ensures CommandsAdmitted(n, commands).node == n
            || CommandsAdmitted(n, commands) == Operate(n, OpPropose(CommandsOf(commands)))
  {
    hide ProposeMany;
    assert CommandsOf(commands) == seq(|commands|, k requires 0 <= k < |commands| => Command(commands[k]));
  }

  lemma {:induction false} ReplayedBundle<V, S>(m: Machine<V, S>, genesis: Membership, b: Bundle<S>,
      log: Log<Record<V>>)
    ensures ReplayFrom(ClusterMachine(m, genesis), b, log).membership == b.membership
    decreases |log|
  {
    if log != [] {
      ReplayedBundle(m, genesis, b, log[..|log| - 1]);
    }
  }

  /** The snapshot that compact makes of an exact application state is exact, and carries the membership in force. */
  lemma FoldJustified<V, S>(
    g: Setting<Record<V>, Bundle<S>>, m: Machine<V, S>, h: History<Record<V>>,
    network: seq<Envelope<Record<V>, Bundle<S>>>, i: Id, n: ClusterNode<V, S>, d: Checkpoint<Record<V>, Bundle<S>>,
    index: U64, application: S)
    requires g == ClusterSetting(g.members, m, g.engine.genesis) && Saved(g, h, i, n, d)
    requires Base(n.state).index < index <= n.state.hard.commit && index <= Base(n.state).index + |n.state.entries| ==>
               application == Recovered(g.machine, n.state, index).application
    requires n.state.snapshot.Some? ==> |n.state.snapshot.value.value.membership.slots| == |g.engine.genesis.slots|
    ensures Sized(n) && Timed(n)
    ensures Folded(n, index, application) == Operate(n, OpCompact(index, Bundle(application, g.engine.genesis)))
    ensures Justified(g, network, n, OpCompact(index, Bundle(application, g.engine.genesis)))
  {
    hide Compact, Durable, Fixed, MembershipAt, Steady, Clean, Sim;
    SimDurable(h, n, App(g));
    FixedPlaced(n, h.voters);
    StillMembership(n, index);
    BundleExact(g, m, n, index, application);
  }

  lemma BundleExact<V, S>(
    g: Setting<Record<V>, Bundle<S>>, m: Machine<V, S>, n: ClusterNode<V, S>, index: U64, application: S)
    requires g == ClusterSetting(g.members, m, g.engine.genesis)
    requires Still(n) && n.hooks == g.engine.hooks && n.bootstrap == g.engine.genesis
    requires Base(n.state).index < index <= n.state.hard.commit && index <= Base(n.state).index + |n.state.entries| ==>
               application == Recovered(g.machine, n.state, index).application
    requires n.state.snapshot.Some? ==> |n.state.snapshot.value.value.membership.slots| == |g.engine.genesis.slots|
    ensures Exact(g, n.state, index, Bundle(application, g.engine.genesis))
  {
    if Base(n.state).index < index <= n.state.hard.commit && index <= Base(n.state).index + |n.state.entries| {
      var start := if n.state.snapshot.Some? then n.state.snapshot.value.value else g.machine.init;
      assert start.membership == g.engine.genesis;
      ReplayedBundle(m, g.engine.genesis, start, n.state.entries[..index - Base(n.state).index]);
    }
  }

  // ---- The chain of records.

  /**
   * Along any life of a cluster node, every record it appends replaces the membership then
   * committed by one that may succeed it, and takes force at once, past the commit index.
   */
  lemma RecordsChain<V(!new), S(!new)>(
    b: Birth<Record<V>, Bundle<S>>, hs: seq<Host<Record<V>, Bundle<S>>>, es: seq<Event<Record<V>, Bundle<S>>>,
    k: nat, change: Change, next: Membership)
    requires Life(b, hs, es) && b.hooks == Some(ClusterHooks(b.genesis)) && k < |es|
    requires NextConfiguration(hs[k].node, change) == Ok(next) && es[k] == Ask(OpPropose([Configuration(next)]))
    requires change.ToTarget? ==> |change.target.slots| == |b.genesis.slots|
    requires Sized(hs[k].node) && Timed(hs[k].node) && Available(hs[k].node)
    requires Changed(hs[k].node, change).error.None?
    ensures hs[k].node.role == Leader
    ensures Succeeds(MembershipAt(hs[k].node, hs[k].node.state.hard.commit).1, next)
    ensures hs[k + 1].node == Changed(hs[k].node, change).node && hs[k + 1].node.membership == next
    ensures MembershipAt(hs[k + 1].node, Last(hs[k + 1].node.state).index) == (Last(hs[k].node.state).index + 1, next)
  {
    hide Happens, Begins, Conceived, Well, NextConfiguration, Changed, Succeeds, Available, MembershipAt;
    WellAt(b, hs, es, k);
    AppendedNext(b, hs[k], hs[k + 1], change, next) by { assert Happens(b, hs[k], hs[k + 1], es[k]); }
    RecordChained(b, hs[k], Gathered(hs[..k + 1], es[..k]), change, next);
  }

  lemma AppendedNext<V(!new), S(!new)>(
    b: Birth<Record<V>, Bundle<S>>, x: Host<Record<V>, Bundle<S>>, y: Host<Record<V>, Bundle<S>>, change: Change,
    next: Membership)
    requires Happens(b, x, y, Ask(OpPropose([Configuration(next)]))) && NextConfiguration(x.node, change) == Ok(next)
    ensures Sized(x.node) && Timed(x.node) && y.node == Changed(x.node, change).node
  {
    hide NextConfiguration, ProposeMany;
  }

  /** One link of the chain. */
  lemma RecordChained<V(!new), S(!new)>(
    b: Birth<Record<V>, Bundle<S>>, x: Host<Record<V>, Bundle<S>>, grants: Grants, change: Change, next: Membership)
    requires Well(b, x, grants) && b.hooks == Some(ClusterHooks(b.genesis)) && Available(x.node)
    requires NextConfiguration(x.node, change) == Ok(next)
    requires change.ToTarget? ==> |change.target.slots| == |b.genesis.slots|
    requires Sized(x.node) && Timed(x.node) && Changed(x.node, change).error.None?
    ensures x.node.role == Leader
    ensures Succeeds(MembershipAt(x.node, x.node.state.hard.commit).1, next)
    ensures
      var r := Changed(x.node, change).node;
      r.membership == next && MembershipAt(r, Last(r.state).index) == (Last(x.node.state).index + 1, next)
  {
    hide Seating, Sound, WellFormed, NextConfiguration, ProposeMany, Delta, Advances, Succeeds, Available, MembershipAt,
         Changed;
    SoundSeating(x.node, grants);
    SeatingFits(x.node);
    AvailableClean(x.node, x.disk);
    ChangeSucceeds(x.node, change);
    ChangeTakesForce(x.node, grants, change);
  }

  lemma AvailableClean<V, S>(n: Node<V, S>, d: Checkpoint<V, S>)
    requires Goes(d, n) && Available(n)
    ensures Clean(n)
  {
  }

  /** So no quorum of the appended record can act apart from one of the record it replaces. */
  lemma ChainQuorumsMeet<V(!new), S(!new)>(
    b: Birth<Record<V>, Bundle<S>>, hs: seq<Host<Record<V>, Bundle<S>>>, es: seq<Event<Record<V>, Bundle<S>>>,
    k: nat, change: Change, old_: Id -> bool, new_: Id -> bool) returns (j: Id)
    requires Life(b, hs, es) && k <= |es| && NextConfiguration(hs[k].node, change).Ok?
    requires Quorum(MembershipAt(hs[k].node, hs[k].node.state.hard.commit).1, old_)
    requires Quorum(NextConfiguration(hs[k].node, change).value, new_)
    ensures old_(j) && new_(j)
  {
    hide Happens, Begins, Conceived, Seating, Sound, WellFormed, NextConfiguration, Delta, Advances, Quorum,
         MembershipAt;
    WellAt(b, hs, es, k);
    SoundSeating(hs[k].node, Gathered(hs[..k + 1], es[..k]));
    j := ChangeQuorumsMeet(hs[k].node, change, old_, new_);
  }
}
