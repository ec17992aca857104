/**
 * A cluster whose voters never change, with its disks and network, after
 * jarl/src/explore.rs without its bounds: either engine, any number of voters, any log
 * capacity, any run. The network keeps every message ever sent and may deliver any of them at any
 * time to anybody, which covers loss, duplication and reordering. A save applies the
 * incremental transaction to the disk; a crash may come at any time and restarts from
 * the disk alone.
 */
module Worlds {
  import opened Types
  import opened Checkpoints
  import opened NodeModel
  import opened RaftHistory
  import opened RaftGrowth
  import opened RaftSafety
  import opened FixedVoters
  import opened FixedSteps
  import opened FixedOperations
  import opened LocalHistory
  import opened NodeHistory
  import opened Machines
  import opened Restarts

  datatype World<!V, !S> = World(
    nodes: map<Id, Node<V, S>>,
    disk: map<Id, Checkpoint<V, S>>,
    network: seq<Envelope<V, S>>)

  datatype Action<+V, +S> =
    | Act(node: Id, op: Operation<V, S>)
    | Send(node: Id)
    | Save(node: Id)
    | Crash(node: Id, config: Config, cap: nat)

  /** The members, the application every host runs, and the engine below it. */
  datatype Setting<!V, !S> = Setting(members: seq<Id>, machine: Machine<V, S>, engine: Engine<V, S>)

  ghost predicate Founded<V, S>(g: Setting<V, S>) {
    Founds(g.engine, g.members)
  }

  ghost predicate Starts<V, S>(g: Setting<V, S>, w: World<V, S>) {
    && Founded(g)
    && w.nodes.Keys == Ids(g.members) && w.disk.Keys == Ids(g.members) && w.network == []
    && forall i | i in w.nodes && i in w.disk ::
         && w.disk[i] == Empty()
         && Configures(g.engine, w.nodes[i].config, g.members, i, w.nodes[i].cap)
         && Started(g.engine, w.nodes[i].config, w.nodes[i].cap, Empty()) == Ok(w.nodes[i])
  }

  /** A snapshot must be the exact application state through its index. */
  ghost predicate Exact<V, S>(g: Setting<V, S>, s: Checkpoint<V, S>, index: U64, value: S) {
    Base(s).index < index <= s.hard.commit && index <= Base(s).index + |s.entries| ==>
      value == Recovered(g.machine, s, index)
  }

  /** No configuration records. */
  ghost predicate PlainValues<V, S>(hooks: Option<Hooks<V, S>>, values: seq<V>) {
    hooks.Some? ==> forall k | 0 <= k < |values| :: hooks.value.record(values[k]).None?
  }

  /**
   * What the host owes: messages come from the network, snapshots are exact. What makes
   * the voters stay: nobody proposes a configuration, and a snapshot carries the one in force.
   */
  ghost predicate Justified<V, S>(
    g: Setting<V, S>, network: seq<Envelope<V, S>>, n: Node<V, S>, op: Operation<V, S>)
  {
    match op
    case OpStep(e) => e in network
    case OpPropose(values) => PlainValues(g.engine.hooks, values)
    case OpCompact(index, value) =>
      Exact(g, n.state, index, value) && PlainSnapshot(g.engine.hooks, g.engine.genesis, value)
    case _ => true
  }

  function Pending<V, S>(n: Node<V, S>): Write<V, S> {
    WriteOf(n.state, n.logFrom, n.snapshotChanged)
  }

  ghost predicate Performs<V, S>(g: Setting<V, S>, w: World<V, S>, w1: World<V, S>, a: Action<V, S>) {
    && a.node in w.nodes && a.node in w.disk
    && Sized(w.nodes[a.node]) && Timed(w.nodes[a.node])
    && var n := w.nodes[a.node];
       match a
       case Act(i, op) =>
         Justified(g, w.network, n, op) && w1 == w.(nodes := w.nodes[i := Operate(n, op).node])
       case Send(i) =>
         w1 == w.(nodes := w.nodes[i := NextMessage(n).0],
                  network := if NextMessage(n).1.Some? then w.network + [NextMessage(n).1.value] else w.network)
       case Save(i) =>
         n.dirty && w1 == w.(nodes := w.nodes[i := Persisted(n)], disk := w.disk[i := Applied(w.disk[i], Pending(n))])
       case Crash(i, config, cap) =>
         var r := Restarted(g.engine, config, cap, w.disk[i]);
         Configures(g.engine, config, g.members, i, cap) && r.Ok? && w1 == w.(nodes := w.nodes[i := r.value])
  }

  ghost predicate Next<V(!new), S(!new)>(g: Setting<V, S>, w: World<V, S>, w1: World<V, S>) {
    exists a :: Performs(g, w, w1, a)
  }

  ghost predicate Run<V(!new), S(!new)>(g: Setting<V, S>, ws: seq<World<V, S>>) {
    && ws != [] && Starts(g, ws[0])
    && forall k | 0 <= k < |ws| - 1 :: Next(g, ws[k], ws[k + 1])
  }

  // ---- How a world stands in the history.

  ghost function App<V, S>(g: Setting<V, S>): Application<V, S> { Replays(g.machine) }

  /** A node with nothing to save is in the history, and on its disk. */
  ghost predicate Saved<V, S>(g: Setting<V, S>, h: History<V>, i: Id, n: Node<V, S>, d: Checkpoint<V, S>) {
    && n.config.id == i && n.hooks == g.engine.hooks && n.bootstrap == g.engine.genesis
    && Sim(h, n, App(g)) && Steady(n) && Clean(n) && d == n.state
  }

  /** A node with something to save is one operation past a saved one. */
  ghost predicate Unsaved<V, S>(
    g: Setting<V, S>, h: History<V>, network: seq<Envelope<V, S>>, i: Id, n: Node<V, S>, d: Checkpoint<V, S>,
    p: Node<V, S>, op: Operation<V, S>)
  {
    && n.dirty && Saved(g, h, i, p, d) && Justified(g, network, p, op)
    && Sized(p) && Timed(p) && n == Operate(p, op).node
  }

  ghost predicate Accounted<V(!new), S(!new)>(
    g: Setting<V, S>, h: History<V>, network: seq<Envelope<V, S>>, i: Id, n: Node<V, S>, d: Checkpoint<V, S>)
  {
    if n.dirty then exists p, op :: Unsaved(g, h, network, i, n, d, p, op) else Saved(g, h, i, n, d)
  }

  ghost predicate PromisesKept<V, S>(g: Setting<V, S>, h: History<V>, network: seq<Envelope<V, S>>) {
    forall e | e in network ::
      Promises(h, e, App(g)) && PlainMessage(g.engine.hooks, g.engine.genesis, e.message)
  }

  ghost predicate EachAccounted<V(!new), S(!new)>(
    g: Setting<V, S>, h: History<V>, network: seq<Envelope<V, S>>,
    nodes: map<Id, Node<V, S>>, disk: map<Id, Checkpoint<V, S>>)
  {
    forall i | i in nodes && i in disk :: Accounted(g, h, network, i, nodes[i], disk[i])
  }

  ghost predicate Inv<V(!new), S(!new)>(g: Setting<V, S>, h: History<V>, w: World<V, S>) {
    && Founded(g) && h.voters == Ids(g.members)
    && w.nodes.Keys == h.voters && w.disk.Keys == h.voters
    && PromisesKept(g, h, w.network)
    && EachAccounted(g, h, w.network, w.nodes, w.disk)
    && Safe(h)
  }

  // ---- One operation.

  lemma ExactInHistory<V, S>(g: Setting<V, S>, h: History<V>, n: Node<V, S>, index: U64, value: S)
    requires Durable(h, n.config.id, n.state, App(g)) && Exact(g, n.state, index, value)
    ensures n.config.id in h.log
    ensures Base(n.state).index < index <= n.state.hard.commit ==>
              index <= |h.log[n.config.id]| && value == App(g)(h.log[n.config.id][..index])
  {
    hide Committed;
    if Base(n.state).index < index <= n.state.hard.commit {
      RecoveredIsReplay(g.machine, h.log[n.config.id], n.state, index);
    }
  }

  lemma SimDurable<V, S>(h: History<V>, n: Node<V, S>, app: Application<V, S>)
    requires Sim(h, n, app)
    ensures Durable(h, n.config.id, n.state, app) && Fixed(n, h.voters) && n.config.id in h.voters
    ensures |n.state.entries| <= n.cap && n.cap > 0
    ensures n.role == Leader ==> Leads(h, n)
    ensures Still(n)
  {
    hide Retains, Committed, Leads;
  }

  /** A saved node's operation extends the history. */
  lemma OperateSim<V, S>(
    g: Setting<V, S>, h: History<V>, network: seq<Envelope<V, S>>, n: Node<V, S>, op: Operation<V, S>)
    returns (h1: History<V>)
    requires Sim(h, n, App(g)) && Justified(g, network, n, op) && PromisesKept(g, h, network)
    requires Steady(n) && n.hooks == g.engine.hooks && n.bootstrap == g.engine.genesis
    requires Safe(h)
    ensures Sized(n) && Timed(n)
    ensures Safe(h1) && Grows(h, h1, n.config.id) && Sim(h1, Operate(n, op).node, App(g))
  {
    hide Safe, Grows, Sim, Durable, Fixed, Tick, Step, ProposeMany, Compact, Leads, Exact, App;
    match op {
      case OpTick => h1 := TickSim(h, n, App(g));
      case OpStep(e) => h1 := StepSim(h, n, e, App(g));
      case OpPropose(values) => h1 := ProposeSim(h, n, App(g), values);
      case OpCompact(index, value) =>
        SimDurable(h, n, App(g));
        ExactInHistory(g, h, n, index, value);
        h1 := CompactSim(h, n, App(g), index, value);
    }
  }

  lemma FixedPlaced<V, S>(n: Node<V, S>, voters: set<Id>)
    requires Fixed(n, voters)
    ensures Sized(n) && Timed(n) && Placed(n)
  {
    FixedSized(n, voters);
  }

  /** Saving an operation's transaction leaves exactly the node's new state on disk. */
  lemma SaveWrites<V, S>(g: Setting<V, S>, h: History<V>, i: Id, p: Node<V, S>, d: Checkpoint<V, S>, op: Operation<V,
      S>)
    requires Saved(g, h, i, p, d)
    requires Safe(h)
    ensures Sized(p) && Timed(p)
    ensures var r := Operate(p, op).node; Goes(d, r) && Applied(d, Pending(r)) == r.state
  {
    hide Safe, Sim, Durable, Fixed, WellFormed, Operate, Applied, Delta, Advances, App, Leads, Placed;
    SimDurable(h, p, App(g));
    FixedPlaced(p, h.voters);
    DurableWellFormed(h, i, p.state, App(g));
    OperateGoes(p, op);
    var r := Operate(p, op).node;
    DeltaApplies(d, r.state, r.logFrom, r.snapshotChanged);
  }
}
