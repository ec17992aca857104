/** Every step of a run keeps the world standing in a safe history. */
module WorldSafety {
  import opened Types
  import opened Checkpoints
  import opened NodeModel
  import opened RaftHistory
  import opened RaftGrowth
  import opened RaftSafety
  import opened FixedVoters
  import opened FixedSteps
  import opened FixedReplication
  import opened FixedOperations
  import opened LocalHistory
  import opened NodeHistory
  import opened Machines
  import opened Restarts
  import opened Worlds

  // ---- What one voter's step leaves alone.

  lemma KeptStable<V, S>(g: Setting<V, S>, h: History<V>, h1: History<V>, i: Id, network: seq<Envelope<V, S>>)
    requires PromisesKept(g, h, network) && Grows(h, h1, i)
    ensures PromisesKept(g, h1, network)
  {
    hide Grows, Promises;
    forall e | e in network ensures Promises(h1, e, App(g)) {
      PromisesStable(h, h1, i, e, App(g));
    }
  }

  lemma SavedStable<V, S>(
    g: Setting<V, S>, h: History<V>, h1: History<V>, i: Id, j: Id, n: Node<V, S>, d: Checkpoint<V, S>)
    requires Saved(g, h, j, n, d) && Grows(h, h1, i) && i != j
    ensures Saved(g, h1, j, n, d)
  {
    hide Grows, Sim, Steady;
    SimStable(h, h1, i, n, App(g));
  }

  ghost predicate Includes<T>(a: seq<T>, b: seq<T>) {
    forall x | x in a :: x in b
  }

  lemma AccountedStable<V(!new), S(!new)>(
    g: Setting<V, S>, h: History<V>, h1: History<V>, i: Id, network: seq<Envelope<V, S>>,
    network1: seq<Envelope<V, S>>, j: Id, n: Node<V, S>, d: Checkpoint<V, S>)
    requires Accounted(g, h, network, j, n, d) && Grows(h, h1, i) && i != j && Includes(network, network1)
    ensures Accounted(g, h1, network1, j, n, d)
  {
    hide Grows, Saved, Operate, Exact;
    if n.dirty {
      var p, op :| Unsaved(g, h, network, j, n, d, p, op);
      SavedStable(g, h, h1, i, j, p, d);
      assert Unsaved(g, h1, network1, j, n, d, p, op);
    } else {
      SavedStable(g, h, h1, i, j, n, d);
    }
  }

  lemma IncludesItself<T>(a: seq<T>)
    ensures Includes(a, a)
  {
  }

  lemma AccountedMore<V(!new), S(!new)>(
    g: Setting<V, S>, h: History<V>, network: seq<Envelope<V, S>>, network1: seq<Envelope<V, S>>,
    i: Id, n: Node<V, S>, d: Checkpoint<V, S>)
    requires Accounted(g, h, network, i, n, d) && Includes(network, network1)
    ensures Accounted(g, h, network1, i, n, d)
  {
    hide Saved, Operate, Exact;
    if n.dirty {
      var p, op :| Unsaved(g, h, network, i, n, d, p, op);
      assert Unsaved(g, h, network1, i, n, d, p, op);
    }
  }

  lemma EachStable<V(!new), S(!new)>(
    g: Setting<V, S>, h: History<V>, h1: History<V>, w: World<V, S>, i: Id, n: Node<V, S>, d: Checkpoint<V, S>,
    network1: seq<Envelope<V, S>>)
    requires EachAccounted(g, h, w.network, w.nodes, w.disk) && Grows(h, h1, i)
    requires Includes(w.network, network1) && Accounted(g, h1, network1, i, n, d)
    ensures EachAccounted(g, h1, network1, w.nodes[i := n], w.disk[i := d])
  {
    hide Grows, Accounted, Includes;
    var nodes, disk := w.nodes[i := n], w.disk[i := d];
    forall j | j in nodes && j in disk ensures Accounted(g, h1, network1, j, nodes[j], disk[j]) {
      if j != i {
        AccountedStable(g, h, h1, i, w.network, network1, j, w.nodes[j], w.disk[j]);
      }
    }
  }

  /** Changing one node, its disk and the network. */
  lemma InvUpdate<V(!new), S(!new)>(
    g: Setting<V, S>, h: History<V>, h1: History<V>, w: World<V, S>, i: Id, n: Node<V, S>, d: Checkpoint<V, S>,
    network1: seq<Envelope<V, S>>)
    requires Inv(g, h, w) && Grows(h, h1, i) && Safe(h1) && i in w.nodes
    requires Includes(w.network, network1) && PromisesKept(g, h1, network1) && Accounted(g, h1, network1, i, n, d)
    ensures Inv(g, h1, World(w.nodes[i := n], w.disk[i := d], network1))
  {
    hide EachAccounted, Accounted, Includes, PromisesKept, Safe, Founded, Grows;
    GrowsVoters(h, h1, i);
    EachStable(g, h, h1, w, i, n, d, network1);
  }

  lemma GrowsVoters<V>(h: History<V>, h1: History<V>, i: Id)
    requires Grows(h, h1, i)
    ensures h1.voters == h.voters
  {
  }

  // ---- Each action keeps the invariant.

  lemma BusyStays<V, S>(n: Node<V, S>, op: Operation<V, S>)
    requires Sized(n) && Timed(n) && n.dirty
    ensures Operate(n, op).node == n
  {
    assert !Available(n);
  }

  lemma ActKeeps<V(!new), S(!new)>(
    g: Setting<V, S>, h: History<V>, network: seq<Envelope<V, S>>, i: Id, n: Node<V, S>, d: Checkpoint<V, S>,
    op: Operation<V, S>)
    returns (h1: History<V>)
    requires Accounted(g, h, network, i, n, d) && PromisesKept(g, h, network) && Justified(g, network, n, op)
    requires Safe(h)
    requires Sized(n) && Timed(n)
    ensures Safe(h1) && Grows(h, h1, i) && Accounted(g, h1, network, i, Operate(n, op).node, d)
  {
    hide Safe, Grows, Sim, Operate, Continues, PromisesKept, Justified;
    h1 := h;
    GrowsRefl(h, i);
    if n.dirty {
      BusyStays(n, op);
    } else {
      var r := Operate(n, op).node;
      SaveWrites(g, h, i, n, d, op);
      if r.dirty {
        assert Unsaved(g, h, network, i, r, d, n, op);
      } else {
        h1 := OperateSim(g, h, network, n, op);
      }
    }
  }

  lemma SendKeeps<V(!new), S(!new)>(
    g: Setting<V, S>, h: History<V>, network: seq<Envelope<V, S>>, i: Id, n: Node<V, S>, d: Checkpoint<V, S>)
    requires Accounted(g, h, network, i, n, d)
    requires Safe(h)
    requires Sized(n)
    ensures Accounted(g, h, network, i, NextMessage(n).0, d)
    ensures NextMessage(n).1.Some? ==>
              && Promises(h, NextMessage(n).1.value, App(g))
              && PlainMessage(g.engine.hooks, g.engine.genesis, NextMessage(n).1.value.message)
  {
    hide Safe, Sim, Operate, Promises, Justified, Rendered;
    if !n.dirty {
      TakeSim(h, n, App(g));
      NextPromise(h, n, App(g));
    }
  }

  lemma PersistedSim<V, S>(h: History<V>, n: Node<V, S>, app: Application<V, S>)
    requires Sim(h, n, app)
    ensures Sim(h, Persisted(n), app)
  {
    hide Durable, Stands, Leads, VotesHeld, AcksHeld;
    CoreFlags(h, n, Persisted(n), app);
  }

  lemma SaveKeeps<V(!new), S(!new)>(
    g: Setting<V, S>, h: History<V>, network: seq<Envelope<V, S>>, i: Id, n: Node<V, S>, d: Checkpoint<V, S>)
    returns (h1: History<V>)
    requires Accounted(g, h, network, i, n, d) && PromisesKept(g, h, network) && n.dirty
    requires Safe(h)
    ensures Applied(d, Pending(n)) == n.state
    ensures Safe(h1) && Grows(h, h1, i) && Accounted(g, h1, network, i, Persisted(n), Applied(d, Pending(n)))
  {
    hide Safe, Grows, Sim, Operate, Continues, PromisesKept, Justified, Pending;
    var p, op :| Unsaved(g, h, network, i, n, d, p, op);
    SaveWrites(g, h, i, p, d, op);
    h1 := OperateSim(g, h, network, p, op);
    PersistedSim(h1, n, App(g));
  }

  lemma CrashKeeps<V(!new), S(!new)>(
    g: Setting<V, S>, h: History<V>, network: seq<Envelope<V, S>>, i: Id, n: Node<V, S>, d: Checkpoint<V, S>,
    config: Config, cap: nat)
    requires Accounted(g, h, network, i, n, d) && Founded(g) && h.voters == Ids(g.members)
    requires Configures(g.engine, config, g.members, i, cap) && |d.entries| <= cap
    requires Safe(h)
    ensures Restarted(g.engine, config, cap, d).Ok?
    ensures Restarted(g.engine, config, cap, d).value.state == d
    ensures Restarted(g.engine, config, cap, d).value.role == Follower
    ensures Accounted(g, h, network, i, Restarted(g.engine, config, cap, d).value, d)
  {
    hide Safe, Sim, Operate, Steady, Justified, Restarted;
    var p: Node<V, S>;
    if n.dirty {
      var q, op :| Unsaved(g, h, network, i, n, d, q, op);
      p := q;
    } else {
      p := n;
    }
    SimDurable(h, p, App(g));
    RestartSim(h, i, d, App(g), g.engine, config, g.members, cap);
  }

  lemma RestartedFits<V, S>(g: Engine<V, S>, config: Config, cap: nat, d: Checkpoint<V, S>)
    requires Restarted(g, config, cap, d).Ok?
    ensures |d.entries| <= cap
  {
    hide Restored, WellFormed;
    RestoreExactly(d, cap);
  }

  ghost function More<V, S>(network: seq<Envelope<V, S>>, e: Option<Envelope<V, S>>): seq<Envelope<V, S>> {
    if e.Some? then network + [e.value] else network
  }

  lemma KeptMore<V, S>(g: Setting<V, S>, h: History<V>, network: seq<Envelope<V, S>>, e: Option<Envelope<V, S>>)
    requires PromisesKept(g, h, network)
    requires e.Some? ==>
               Promises(h, e.value, App(g)) && PlainMessage(g.engine.hooks, g.engine.genesis, e.value.message)
    ensures PromisesKept(g, h, More(network, e)) && Includes(network, More(network, e))
  {
    hide Promises;
  }

  /** Every step of a run keeps the invariant, and moves the history by one voter's steps. */
  lemma NextInv<V(!new), S(!new)>(g: Setting<V, S>, h: History<V>, w: World<V, S>, w1: World<V, S>)
    returns (h1: History<V>, i: Id)
    requires Inv(g, h, w) && Next(g, w, w1)
    ensures Inv(g, h1, w1) && Grows(h, h1, i)
    ensures forall j | j in w.nodes && j in w1.nodes && j != i :: w1.nodes[j] == w.nodes[j]
  {
    hide Safe, Grows, Accounted, Promises, Operate, NextMessage, Persisted, Applied, Justified, Restarted, Sized,
         PromisesKept, Founded, Includes;
    var a :| Performs(g, w, w1, a);
    i := a.node;
    var n, d := w.nodes[i], w.disk[i];
    h1 := h;
    GrowsRefl(h, i);
    IncludesItself(w.network);
    assert w.disk[i := d] == w.disk;
    match a {
      case Act(_, op) =>
        h1 := ActKeeps(g, h, w.network, i, n, d, op);
        KeptStable(g, h, h1, i, w.network);
        InvUpdate(g, h, h1, w, i, Operate(n, op).node, d, w.network);
      case Send(_) =>
        SendKeeps(g, h, w.network, i, n, d);
        KeptMore(g, h, w.network, NextMessage(n).1);
        AccountedMore(g, h, w.network, More(w.network, NextMessage(n).1), i, NextMessage(n).0, d);
        InvUpdate(g, h, h, w, i, NextMessage(n).0, d, More(w.network, NextMessage(n).1));
      case Save(_) =>
        h1 := SaveKeeps(g, h, w.network, i, n, d);
        KeptStable(g, h, h1, i, w.network);
        InvUpdate(g, h, h1, w, i, Persisted(n), Applied(d, Pending(n)), w.network);
      case Crash(_, config, cap) =>
        RestartedFits(g.engine, config, cap, d);
        CrashKeeps(g, h, w.network, i, n, d, config, cap);
        InvUpdate(g, h, h, w, i, Restarted(g.engine, config, cap, d).value, d, w.network);
    }
  }
}
