/** What every run of a cluster whose voters never change guarantees, in terms of the run alone. */
module RunSafety {
  import opened Types
  import opened FiniteSets
  import opened Checkpoints
  import opened NodeModel
  import opened RaftHistory
  import opened RaftGrowth
  import opened RaftSafety
  import opened FixedVoters
  import opened FixedSteps
  import opened FixedReplication
  import opened NodeHistory
  import opened Machines
  import opened Restarts
  import opened Worlds
  import opened WorldSafety

  // ---- Evidence that outlives crashes.

  /** Nobody else can ever lead this term. */
  ghost predicate Elected<V>(h: History<V>, i: Id, t: nat) {
    i in h.voters && (h.voters == {i} || Majority(Supporters(h, t, i), h.voters))
  }

  lemma ElectedStable<V>(h: History<V>, h1: History<V>, k: Id, i: Id, t: nat)
    requires Elected(h, i, t) && Grows(h, h1, k)
    ensures Elected(h1, i, t)
  {
    SupportersStable(h, h1, k, t, i);
  }

  lemma ElectedOnce<V>(h: History<V>, i: Id, j: Id, t: nat)
    requires Elected(h, i, t) && Elected(h, j, t)
    ensures i == j
  {
    if h.voters != {i} && h.voters != {j} {
      SupportersAgree(h, t, i, j);
    }
  }

  lemma ReignElected<V>(h: History<V>, i: Id, t: nat)
    requires Shape(h) && t in h.reigns && h.reigns[t].leader == i && i in h.voters
    ensures Elected(h, i, t)
  {
    assert ReignOk(h, t);
  }

  lemma SingletonSupport<V>(h: History<V>, i: Id, t: nat)
    requires i in h.voters && Majority(Supporters(h, t, i), h.voters) && Supporters(h, t, i) <= {i}
    ensures h.voters == {i}
  {
    SubsetCardinality(Supporters(h, t, i), {i});
    if j :| j in h.voters && j != i {
      SubsetCardinality({i, j}, h.voters);
    }
  }

  /** Whoever leads after an unsaved operation had been elected before it. */
  lemma ElectedBefore<V>(h: History<V>, h1: History<V>, i: Id, t: nat)
    requires Shape(h) && Shape(h1) && Grows(h, h1, i) && i in h.voters
    requires t in h1.reigns && h1.reigns[t].leader == i
    ensures Elected(h, i, t)
  {
    hide WellRooted, ReignsOk, LogsOk, AcksOk;
    ReignElected(h1, i, t);
    if h.voters != {i} {
      if (t, i) in h.ballots {
        assert Supporters(h1, t, i) <= Supporters(h, t, i);
        MajorityGrows(Supporters(h1, t, i), Supporters(h, t, i), h.voters);
      } else {
        forall j | j in Supporters(h1, t, i) ensures j == i {
          assert (t, j) in h1.ballots && h1.ballots[(t, j)] == i;
        }
        SingletonSupport(h1, i, t);
      }
    }
  }

  /** These entries are at the front of the checkpoint's log, as far as it retains them. */
  ghost predicate Fronts<V, S>(log: Log<V>, s: Checkpoint<V, S>) {
    |log| <= Last(s).index && forall k: U64 | Base(s).index < k <= |log| :: Get(s, k) == Some(log[k - 1])
  }

  /** The log a leader stood on at its election is at the front of its log. */
  ghost predicate Stood<V, S>(h: History<V>, i: Id, t: nat, s: Checkpoint<V, S>) {
    && (t, i) in h.platforms && Majority(Supporters(h, t, i), h.voters)
    && Fronts(h.platforms[(t, i)], s)
  }

  lemma StoodStable<V, S>(h: History<V>, h1: History<V>, k: Id, i: Id, t: nat, s: Checkpoint<V, S>)
    requires Stood(h, i, t, s) && Grows(h, h1, k)
    ensures Stood(h1, i, t, s)
  {
    SupportersStable(h, h1, k, t, i);
  }

  lemma SupportedStands<V>(h: History<V>, i: Id, t: nat)
    requires BallotsOk(h) && Majority(Supporters(h, t, i), h.voters)
    ensures (t, i) in h.platforms
  {
    var j :| j in Supporters(h, t, i);
    assert h.ballots[(t, j)] == i;
  }

  /** Whoever leads after an unsaved operation stood, before it, on what its log now begins with. */
  lemma StoodBefore<V, S>(
    h: History<V>, h1: History<V>, i: Id, s: Checkpoint<V, S>, app: Application<V, S>)
    requires Durable(h1, i, s, app) && Grows(h, h1, i) && Elected(h, i, s.hard.term) && h.voters != {i}
    requires s.hard.term in h1.reigns && h1.reigns[s.hard.term] == Reign(i, h1.log[i])
    requires BallotsOk(h) && Safe(h1)
    ensures Stood(h, i, s.hard.term, s)
  {
    var t := s.hard.term;
    SupportedStands(h, i, t);
    assert ReignOk(h1, t) && h1.platforms[(t, i)] == h.platforms[(t, i)];
    hide Grows, Safe, BallotsOk, Committed, Retains, WellRooted, Supporters, Fronts;
    SafeLogs(h1);
    DurableLog(h1, i, s, app);
    NumberedLog(h1.log[i], t);
    LogFronts(h1.log[i], h.platforms[(t, i)], s, app);
  }

  lemma LogFronts<V, S>(log: Log<V>, front: Log<V>, s: Checkpoint<V, S>, app: Application<V, S>)
    requires Retains(log, s, app) && Numbered(log) && Agree(front, log, |front|)
    ensures Fronts(front, s)
  {
    IdAtLog(log, s, app, Base(s).index);
    forall k: U64 | Base(s).index < k <= |front| ensures Get(s, k) == Some(front[k - 1]) {
      IdAtLog(log, s, app, k);
    }
  }

  /** c is the committed log this checkpoint exposes. */
  ghost predicate Exposure<V, S>(c: Log<V>, s: Checkpoint<V, S>, app: Application<V, S>) {
    var base := Base(s).index;
    && base <= s.hard.commit == |c|
    && (forall k: U64 | base < k <= s.hard.commit :: Get(s, k) == Some(c[k - 1]))
    && (s.snapshot.Some? ==> IdOf(c, base) == Base(s) && s.snapshot.value.value == app(c[..base]))
  }

  ghost predicate Exposed<V(!new), S>(h: History<V>, s: Checkpoint<V, S>, app: Application<V, S>) {
    exists c :: Committed(h, c, s.hard.term) && Exposure(c, s, app)
  }

  ghost predicate Witnessed<V(!new), S>(g: Setting<V, S>, h: History<V>, i: Id, n: Node<V, S>) {
    && n.config.id == i && i in h.voters
    && (n.role == Leader ==> Elected(h, i, n.state.hard.term))
    && (n.role == Leader && h.voters != {i} ==> Stood(h, i, n.state.hard.term, n.state))
    && (!n.dirty ==> Exposed(h, n.state, App(g)))
  }

  lemma ExposedNow<V(!new), S>(h: History<V>, i: Id, s: Checkpoint<V, S>, app: Application<V, S>)
    requires Durable(h, i, s, app) && LogsOk(h)
    ensures Exposed(h, s, app)
  {
    var log := h.log[i];
    DurableLog(h, i, s, app);
    hide WellRooted, Committed, LogsOk;
    var c := log[..s.hard.commit];
    IdAtLog(log, s, app, Base(s).index);
    forall k: U64 | Base(s).index < k <= s.hard.commit ensures Get(s, k) == Some(c[k - 1]) {
      IdAtLog(log, s, app, k);
    }
    assert c[..Base(s).index] == log[..Base(s).index];
    assert Exposure(c, s, app);
  }

  lemma LeaderElected<V, S>(h: History<V>, n: Node<V, S>)
    requires Leads(h, n) && n.config.id in h.voters
    requires Safe(h)
    ensures Elected(h, n.config.id, n.state.hard.term)
  {
    hide LogsOk, AcksOk, WellRooted;
    ReignElected(h, n.config.id, n.state.hard.term);
  }

  lemma LeaderElectedBefore<V, S>(h: History<V>, h1: History<V>, n: Node<V, S>)
    requires Leads(h1, n) && n.config.id in h.voters && Grows(h, h1, n.config.id)
    requires Safe(h) && Safe(h1)
    ensures Elected(h, n.config.id, n.state.hard.term)
  {
    hide Grows, BallotsOk, PlatformsOk, ReignsOk, LogsOk, AcksOk, Domains, AcksKept, AcksMatch, BallotsSafe, ReignsSafe;
    ElectedBefore(h, h1, n.config.id, n.state.hard.term);
  }

  lemma LeaderStood<V, S>(h: History<V>, h1: History<V>, n: Node<V, S>, app: Application<V, S>)
    requires Leads(h1, n) && Durable(h1, n.config.id, n.state, app) && Grows(h, h1, n.config.id)
    requires Elected(h, n.config.id, n.state.hard.term)
    requires Safe(h) && Safe(h1)
    ensures h.voters != {n.config.id} ==> Stood(h, n.config.id, n.state.hard.term, n.state)
  {
    hide Safe, Durable, Elected, Grows, Stood;
    SafeBallots(h);
    if h.voters != {n.config.id} {
      StoodBefore(h, h1, n.config.id, n.state, app);
    }
  }

  lemma WitnessSaved<V(!new), S(!new)>(
    g: Setting<V, S>, h: History<V>, i: Id, n: Node<V, S>, d: Checkpoint<V, S>)
    requires Saved(g, h, i, n, d)
    requires Safe(h)
    ensures Witnessed(g, h, i, n)
  {
    hide Sim, Durable, Fixed, Safe, Leads, Elected, Exposed, Stood;
    SimDurable(h, n, App(g));
    SafeLogs(h);
    ExposedNow(h, i, n.state, App(g));
    if n.role == Leader {
      LeaderElected(h, n);
      GrowsRefl(h, i);
      LeaderStood(h, h, n, App(g));
    }
  }

  lemma WitnessNow<V(!new), S(!new)>(
    g: Setting<V, S>, h: History<V>, network: seq<Envelope<V, S>>, i: Id, n: Node<V, S>, d: Checkpoint<V, S>)
    requires Accounted(g, h, network, i, n, d) && PromisesKept(g, h, network)
    requires Safe(h)
    ensures Witnessed(g, h, i, n)
  {
    hide Sim, Durable, Fixed, Safe, Leads, Elected, Stood, Operate, Grows, PromisesKept, Justified, Exposed;
    if n.dirty {
      var p, op :| Unsaved(g, h, network, i, n, d, p, op);
      SimDurable(h, p, App(g));
      var h1 := OperateSim(g, h, network, p, op);
      GrowsVoters(h, h1, i);
      SimDurable(h1, n, App(g));
      if n.role == Leader {
        LeaderElectedBefore(h, h1, n);
        LeaderStood(h, h1, n, App(g));
      }
    } else {
      WitnessSaved(g, h, i, n, d);
    }
  }

  lemma WitnessStable<V(!new), S>(g: Setting<V, S>, h: History<V>, h1: History<V>, k: Id, i: Id, n: Node<V, S>)
    requires Witnessed(g, h, i, n) && Grows(h, h1, k)
    ensures Witnessed(g, h1, i, n)
  {
    GrowsVoters(h, h1, k);
    hide Grows, Elected, Stood, Exposure, Committed;
    if n.role == Leader {
      ElectedStable(h, h1, k, i, n.state.hard.term);
      if h.voters != {i} {
        StoodStable(h, h1, k, i, n.state.hard.term, n.state);
      }
    }
    if !n.dirty {
      var c :| Committed(h, c, n.state.hard.term) && Exposure(c, n.state, App(g));
      CommittedStable(h, h1, k, c, n.state.hard.term, n.state.hard.term);
    }
  }

  ghost predicate WorldWitnessed<V(!new), S>(g: Setting<V, S>, h: History<V>, w: World<V, S>) {
    forall i | i in w.nodes :: Witnessed(g, h, i, w.nodes[i])
  }

  lemma WorldWitnessNow<V(!new), S(!new)>(g: Setting<V, S>, h: History<V>, w: World<V, S>)
    requires Inv(g, h, w)
    ensures WorldWitnessed(g, h, w)
  {
    hide Safe, Accounted, PromisesKept, Witnessed, Founded;
    forall i | i in w.nodes ensures Witnessed(g, h, i, w.nodes[i]) {
      WitnessNow(g, h, w.network, i, w.nodes[i], w.disk[i]);
    }
  }

  lemma WorldWitnessStable<V(!new), S>(g: Setting<V, S>, h: History<V>, h1: History<V>, k: Id, w: World<V, S>)
    requires WorldWitnessed(g, h, w) && Grows(h, h1, k)
    ensures WorldWitnessed(g, h1, w)
  {
    hide Grows, Witnessed;
    forall i | i in w.nodes ensures Witnessed(g, h1, i, w.nodes[i]) {
      WitnessStable(g, h, h1, k, i, w.nodes[i]);
    }
  }

  // ---- Runs.

  /** The first world stands at genesis. */
  lemma StartInv<V(!new), S(!new)>(g: Setting<V, S>, w: World<V, S>)
    requires Starts(g, w)
    ensures Inv(g, Genesis<V>(Ids(g.members)), w)
  {
    hide Safe, Started, Accounted, Configures, Founds;
    var h := Genesis<V>(Ids(g.members));
    FoundsSets(g.engine, g.members);
    GenesisSafe<V>(Ids(g.members));
    forall i | i in w.nodes && i in w.disk ensures Accounted(g, h, w.network, i, w.nodes[i], w.disk[i]) {
      StartAccounted(g, h, i, w.nodes[i]);
    }
  }

  lemma StartAccounted<V(!new), S(!new)>(g: Setting<V, S>, h: History<V>, i: Id, n: Node<V, S>)
    requires Founded(g) && h == Genesis(Ids(g.members)) && i in h.voters
    requires Configures(g.engine, n.config, g.members, i, n.cap) && Started(g.engine, n.config, n.cap, Empty()) == Ok(n)
    requires Safe(h)
    ensures Accounted(g, h, [], i, n, Empty())
  {
    hide Safe, Sim;
    var d := Empty<V, S>();
    GenesisDurable<V, S>(Ids(g.members), i, App(g));
    hide Durable, Configured, Started;
    assert Restored(d.hard, d.snapshot, d.entries, n.cap) == Ok(d);
    RestartSim(h, i, d, App(g), g.engine, n.config, g.members, n.cap);
  }

  lemma GenesisDurable<V, S>(voters: set<Id>, i: Id, app: Application<V, S>)
    requires i in voters
    ensures Durable(Genesis<V>(voters), i, Empty<V, S>(), app)
  {
    assert Genesis<V>(voters).log[i][..0] == [];
  }

  ghost predicate RunInv<V(!new), S(!new)>(g: Setting<V, S>, h: History<V>, ws: seq<World<V, S>>) {
    ws != [] && Inv(g, h, ws[|ws| - 1]) && forall x | 0 <= x < |ws| :: WorldWitnessed(g, h, ws[x])
  }

  /** Every run has one safe history that accounts for all of it. */
  lemma {:induction false} RunHistory<V(!new), S(!new)>(g: Setting<V, S>, ws: seq<World<V, S>>)
    returns (h: History<V>)
    requires Run(g, ws)
    ensures RunInv(g, h, ws)
    decreases |ws|
  {
    hide Inv, WorldWitnessed, Grows, Next, Starts;
    var n := |ws| - 1;
    if n == 0 {
      StartInv(g, ws[0]);
      h := Genesis<V>(Ids(g.members));
    } else {
      var less := ws[..n];
      forall k | 0 <= k < |less| - 1 ensures Next(g, less[k], less[k + 1]) {
        assert Next(g, ws[k], ws[k + 1]);
      }
      var h0 := RunHistory(g, less);
      var i: Id;
      assert Next(g, ws[n - 1], ws[n - 1 + 1]);
      h, i := NextInv(g, h0, ws[n - 1], ws[n]);
      forall x | 0 <= x < n ensures WorldWitnessed(g, h, ws[x]) {
        assert less[x] == ws[x];
        WorldWitnessStable(g, h0, h, i, ws[x]);
      }
    }
    WorldWitnessNow(g, h, ws[n]);
  }

  /**
   * Election safety across crashes (section 5.2 of the Raft paper): in a whole run, no
   * two identities ever lead the same term, not even before saving anything.
   */
  lemma ElectionSafety<V(!new), S(!new)>(
    g: Setting<V, S>, ws: seq<World<V, S>>, x: nat, i: Id, y: nat, j: Id)
    requires Run(g, ws) && x < |ws| && y < |ws| && i in ws[x].nodes && j in ws[y].nodes
    requires ws[x].nodes[i].role == Leader && ws[y].nodes[j].role == Leader
    requires ws[x].nodes[i].state.hard.term == ws[y].nodes[j].state.hard.term
    ensures i == j
  {
    hide Run, Inv, Elected, Exposed;
    var h := RunHistory(g, ws);
    assert WorldWitnessed(g, h, ws[x]) && WorldWitnessed(g, h, ws[y]);
    ElectedOnce(h, i, j, ws[x].nodes[i].state.hard.term);
  }

  /** What a clean node exposes is a prefix of `log`, folded by the machine up to its base. */
  ghost predicate Follows<V, S>(g: Setting<V, S>, log: Log<V>, n: Node<V, S>) {
    var s := n.state;
    !n.dirty ==>
      && s.hard.commit <= |log|
      && (forall k: U64 | Base(s).index < k <= s.hard.commit :: Get(s, k) == Some(log[k - 1]))
      && (s.snapshot.Some? ==>
            && Base(s).index <= |log| && IdOf(log, Base(s).index) == Base(s)
            && s.snapshot.value.value == Replay(g.machine, log[..Base(s).index]))
  }

  lemma ExposureFollows<V(!new), S(!new)>(
    g: Setting<V, S>, h: History<V>, log: Log<V>, bound: nat, i: Id, n: Node<V, S>)
    requires Witnessed(g, h, i, n) && Committed(h, log, bound) && (!n.dirty ==> n.state.hard.commit <= |log|)
    requires Safe(h)
    ensures Follows(g, log, n)
  {
    hide Committed, Elected, Shape, AcksKept, AcksMatch, BallotsSafe, ReignsSafe, Get;
    if !n.dirty {
      var c :| Committed(h, c, n.state.hard.term) && Exposure(c, n.state, App(g));
      CommittedAgree(h, c, log, n.state.hard.term, bound);
      assert c[..Base(n.state).index] == log[..Base(n.state).index];
    }
  }

  /** Every clean node among these has committed no more than `most`. */
  ghost predicate Within<V, S>(w: World<V, S>, ids: set<Id>, most: nat) {
    forall i | i in ids && i in w.nodes && !w.nodes[i].dirty :: w.nodes[i].state.hard.commit <= most
  }

  lemma {:induction false} LongestInWorld<V(!new), S(!new)>(
    g: Setting<V, S>, h: History<V>, w: World<V, S>, ids: set<Id>, log0: Log<V>, bound0: nat)
    returns (log: Log<V>, bound: nat)
    requires WorldWitnessed(g, h, w) && Committed(h, log0, bound0)
    ensures Committed(h, log, bound) && |log0| <= |log| && Within(w, ids, |log|)
    decreases ids
  {
    hide Committed, Elected;
    if ids == {} {
      log, bound := log0, bound0;
    } else {
      var i :| i in ids;
      log, bound := LongestInWorld(g, h, w, ids - {i}, log0, bound0);
      if i in w.nodes && !w.nodes[i].dirty && |log| < w.nodes[i].state.hard.commit {
        assert Witnessed(g, h, i, w.nodes[i]);
        var s := w.nodes[i].state;
        var c :| Committed(h, c, s.hard.term) && Exposure(c, s, App(g));
        log, bound := c, s.hard.term;
      }
    }
  }

  lemma {:induction false} LongestInRun<V(!new), S(!new)>(g: Setting<V, S>, h: History<V>, ws: seq<World<V, S>>)
    returns (log: Log<V>, bound: nat)
    requires forall x | 0 <= x < |ws| :: WorldWitnessed(g, h, ws[x])
    ensures Committed(h, log, bound)
    ensures forall x | 0 <= x < |ws| :: Within(ws[x], ws[x].nodes.Keys, |log|)
    decreases |ws|
  {
    hide Committed, WorldWitnessed;
    if ws == [] {
      log, bound := [], 0;
      NothingCommitted(h);
    } else {
      var n := |ws| - 1;
      assert forall x | 0 <= x < n :: ws[..n][x] == ws[x];
      var log0, bound0 := LongestInRun(g, h, ws[..n]);
      log, bound := LongestInWorld(g, h, ws[n], ws[n].nodes.Keys, log0, bound0);
    }
  }

  lemma NothingCommitted<V>(h: History<V>)
    ensures Committed(h, [], 0)
  {
  }

  /**
   * State machine safety (section 5.4.3): one log explains everything any node ever
   * exposes in the run. Committed entries are its entries, at their own index, and
   * snapshots are the replay of its prefixes.
   */
  lemma StateMachineSafety<V(!new), S(!new)>(g: Setting<V, S>, ws: seq<World<V, S>>) returns (log: Log<V>)
    requires Run(g, ws)
    ensures forall x, i | 0 <= x < |ws| && i in ws[x].nodes :: Follows(g, log, ws[x].nodes[i])
  {
    hide Run, Committed, WorldWitnessed, Follows, Safe, EachAccounted, PromisesKept, Founded;
    var h := RunHistory(g, ws);
    var bound: nat;
    log, bound := LongestInRun(g, h, ws);
    forall x, i | 0 <= x < |ws| && i in ws[x].nodes ensures Follows(g, log, ws[x].nodes[i]) {
      WitnessOf(g, h, ws[x], i);
      assert Within(ws[x], ws[x].nodes.Keys, |log|);
      ExposureFollows(g, h, log, bound, i, ws[x].nodes[i]);
    }
  }

  lemma WitnessOf<V(!new), S>(g: Setting<V, S>, h: History<V>, w: World<V, S>, i: Id)
    requires WorldWitnessed(g, h, w) && i in w.nodes
    ensures Witnessed(g, h, i, w.nodes[i])
  {
  }

  // ---- Leaders hold what was committed before.

  /** A leader's checkpoint stands at its reign's log in some safe history that continues h. */
  lemma LeaderLog<V(!new), S(!new)>(
    g: Setting<V, S>, h: History<V>, network: seq<Envelope<V, S>>, i: Id, n: Node<V, S>, d: Checkpoint<V, S>)
    returns (h1: History<V>)
    requires Accounted(g, h, network, i, n, d) && PromisesKept(g, h, network)
    requires Safe(h)
    ensures Safe(h1) && Grows(h, h1, i) && Sim(h1, n, App(g)) && n.config.id == i
  {
    hide Sim, Safe, Operate, Grows, PromisesKept, Justified, Steady;
    h1 := h;
    GrowsRefl(h, i);
    if n.dirty {
      var p, op :| Unsaved(g, h, network, i, n, d, p, op);
      h1 := OperateSim(g, h, network, p, op);
      SimDurable(h1, n, App(g));
      SimDurable(h, p, App(g));
      OperateIdentity(p, op);
    }
  }

  lemma OperateIdentity<V, S>(n: Node<V, S>, op: Operation<V, S>)
    requires Sized(n) && Timed(n)
    ensures Operate(n, op).node.config == n.config
  {
  }

  /** The checkpoint still has this part of the committed log, or has folded it. */
  ghost predicate HoldsCommitted<V, S>(s: Checkpoint<V, S>, c: Checkpoint<V, S>) {
    && c.hard.commit <= Last(s).index
    && forall k: U64 | Base(c).index < k <= c.hard.commit && Base(s).index < k :: Get(s, k) == Get(c, k)
  }

  lemma CommittedHeld<V, S>(
    h: History<V>, c: Log<V>, e: Checkpoint<V, S>, n: Node<V, S>, app: Application<V, S>)
    requires Committed(h, c, e.hard.term) && Exposure(c, e, app) && e.hard.term <= n.state.hard.term
    requires Durable(h, n.config.id, n.state, app) && Leads(h, n)
    requires Safe(h)
    ensures HoldsCommitted(n.state, e)
  {
    hide Committed;
    var i := n.config.id;
    SafeLogs(h);
    DurableLog(h, i, n.state, app);
    hide Shape, AcksKept, AcksMatch, BallotsSafe, LogsOk, Plain, Sorted, Retains, Exposure, HoldsCommitted;
    CommittedInReign(h, c, e.hard.term, n.state.hard.term);
    NumberedLog(h.log[i], n.state.hard.term);
    hide ReignsSafe;
    LogHolds(h.log[i], c, e, n.state, app);
  }

  lemma LogHolds<V, S>(log: Log<V>, c: Log<V>, e: Checkpoint<V, S>, s: Checkpoint<V, S>, app: Application<V, S>)
    requires Retains(log, s, app) && Numbered(log) && Exposure(c, e, app) && Agree(c, log, |c|)
    ensures HoldsCommitted(s, e)
  {
    IdAtLog(log, s, app, Base(s).index);
    forall k: U64 | Base(e).index < k <= e.hard.commit && Base(s).index < k ensures Get(s, k) == Get(e, k) {
      IdAtLog(log, s, app, k);
    }
  }

  lemma NumberedLog<V>(log: Log<V>, bound: int)
    requires Plain(log, bound)
    ensures Numbered(log)
  {
  }

  /** What was chosen before an election is in the winner's log for good, whoever finds out when. */
  lemma WinnerHolds<V, S>(
    h: History<V>, c: Log<V>, e: Checkpoint<V, S>, i: Id, t: nat, s: Checkpoint<V, S>, app: Application<V, S>)
    requires Committed(h, c, e.hard.term) && Exposure(c, e, app) && e.hard.term < t && Stood(h, i, t, s)
    requires Safe(h)
    ensures HoldsCommitted(s, e)
  {
    var front := h.platforms[(t, i)];
    if c != [] {
      var u: nat, n: nat :| CommittedBy(h, c, e.hard.term, u, n);
      hide Committed, Supporters, Exposure, Fronts, HoldsCommitted;
      WinnerCarries(h, i, t, u, n);
      ChosenNotUnchoosable(h, u, n);
      hide Safe;
      AgreeTrans(c, h.reigns[u].log, c, |c|, |c|);
      assert Agree(c, front, |c|);
    }
    hide Safe, Committed, Supporters;
    FrontHolds(front, c, e, s, app);
  }

  lemma FrontHolds<V, S>(front: Log<V>, c: Log<V>, e: Checkpoint<V, S>, s: Checkpoint<V, S>, app: Application<V, S>)
    requires Fronts(front, s) && Exposure(c, e, app) && Agree(c, front, |c|)
    ensures HoldsCommitted(s, e)
  {
  }

  lemma HeldSince<V(!new), S(!new)>(
    g: Setting<V, S>, ws: seq<World<V, S>>, y: nat, j: Id, x: nat, i: Id)
    requires Run(g, ws) && y <= x < |ws| && j in ws[y].nodes && i in ws[x].nodes
    requires ws[x].nodes[i].role == Leader && !ws[y].nodes[j].dirty
    requires ws[y].nodes[j].state.hard.term <= ws[x].nodes[i].state.hard.term
    ensures HoldsCommitted(ws[x].nodes[i].state, ws[y].nodes[j].state)
  {
    hide Run, Next, WorldWitnessed, Committed, Elected, Safe, Accounted, HoldsCommitted, Sim, PromisesKept, Founded,
         Exposure,
         Grows, Durable, Fixed, Leads, Stood;
    var h := PrefixHistory(g, ws, x);
    WitnessOf(g, h, ws[y], j);
    var n := ws[x].nodes[i];
    var e := ws[y].nodes[j].state;
    var c :| Committed(h, c, e.hard.term) && Exposure(c, e, App(g));
    assert EachAccounted(g, h, ws[x].network, ws[x].nodes, ws[x].disk);
    var h1 := LeaderLog(g, h, ws[x].network, i, n, ws[x].disk[i]);
    SimDurable(h1, n, App(g));
    CommittedStable(h, h1, i, c, e.hard.term, e.hard.term);
    CommittedHeld(h1, c, e, n, App(g));
  }

  lemma HeldBefore<V(!new), S(!new)>(
    g: Setting<V, S>, ws: seq<World<V, S>>, y: nat, j: Id, x: nat, i: Id)
    requires Run(g, ws) && x <= y < |ws| && j in ws[y].nodes && i in ws[x].nodes && |g.members| > 1
    requires ws[x].nodes[i].role == Leader && !ws[y].nodes[j].dirty
    requires ws[y].nodes[j].state.hard.term < ws[x].nodes[i].state.hard.term
    ensures HoldsCommitted(ws[x].nodes[i].state, ws[y].nodes[j].state)
  {
    hide Run, Next, WorldWitnessed, Committed, Elected, Safe, PromisesKept, EachAccounted, Exposure, Stood,
         HoldsCommitted;
    var h := PrefixHistory(g, ws, y);
    WitnessOf(g, h, ws[y], j);
    WitnessOf(g, h, ws[x], i);
    SeveralVoters(g, i);
    var e := ws[y].nodes[j].state;
    var c :| Committed(h, c, e.hard.term) && Exposure(c, e, App(g));
    WinnerHolds(h, c, e, i, ws[x].nodes[i].state.hard.term, ws[x].nodes[i].state, App(g));
  }

  lemma SeveralVoters<V, S>(g: Setting<V, S>, i: Id)
    requires Founded(g) && |g.members| > 1
    ensures Ids(g.members) != {i}
  {
    assert g.members[0] in Ids(g.members) && g.members[1] in Ids(g.members);
  }

  /** A run up to some point is a run. */
  lemma PrefixHistory<V(!new), S(!new)>(g: Setting<V, S>, ws: seq<World<V, S>>, x: nat) returns (h: History<V>)
    requires Run(g, ws) && x < |ws|
    ensures Inv(g, h, ws[x]) && forall y | 0 <= y <= x :: WorldWitnessed(g, h, ws[y])
  {
    hide Inv, WorldWitnessed, Next, Starts;
    var less := ws[..x + 1];
    forall k | 0 <= k < |less| - 1 ensures Next(g, less[k], less[k + 1]) {
      assert Next(g, ws[k], ws[k + 1]);
    }
    h := RunHistory(g, less);
    forall y | 0 <= y <= x ensures WorldWitnessed(g, h, ws[y]) {
      assert less[y] == ws[y];
    }
  }

  // ---- Log matching.

  /** Section 5.3: where both checkpoints hold the same identity, they agree on what they retain before it. */
  ghost predicate Matching<V, S>(a: Checkpoint<V, S>, b: Checkpoint<V, S>) {
    forall k: U64, l: U64 |
      && IdAt(a, k).Some? && IdAt(a, k) == IdAt(b, k) && l <= k
      && Get(a, l).Some? && Get(b, l).Some? ::
      Get(a, l) == Get(b, l)
  }

  lemma MatchingLogs<V, S>(h: History<V>, n: Node<V, S>, m: Node<V, S>, app: Application<V, S>)
    requires Durable(h, n.config.id, n.state, app) && Durable(h, m.config.id, m.state, app)
    requires Safe(h)
    ensures Matching(n.state, m.state)
  {
    hide Committed;
    SafeLogs(h);
    LogPlain(h, n.config.id);
    LogPlain(h, m.config.id);
    hide Shape, Safe, Sorted;
    var a, b := h.log[n.config.id], h.log[m.config.id];
    assert Rooted(h, a) && Rooted(h, b);
    hide LogsOk, WellRooted, Rooted;
    forall k: U64, l: U64 |
      && IdAt(n.state, k).Some? && IdAt(n.state, k) == IdAt(m.state, k) && l <= k
      && Get(n.state, l).Some? && Get(m.state, l).Some?
      ensures Get(n.state, l) == Get(m.state, l)
    {
      IdAtLog(a, n.state, app, k);
      IdAtLog(b, m.state, app, k);
      IdAtLog(a, n.state, app, l);
      IdAtLog(b, m.state, app, l);
      MatchedPrefix(h, a, b, k);
    }
  }

  lemma MatchingSelf<V, S>(a: Checkpoint<V, S>)
    ensures Matching(a, a)
  {
  }

  /** One safe history in which two different nodes of a world both stand. */
  lemma BothStand<V(!new), S(!new)>(g: Setting<V, S>, ws: seq<World<V, S>>, x: nat, i: Id, j: Id)
      returns (h: History<V>)
    requires Run(g, ws) && x < |ws| && i in ws[x].nodes && j in ws[x].nodes && i != j
    ensures Safe(h) && Sim(h, ws[x].nodes[i], App(g)) && Sim(h, ws[x].nodes[j], App(g))
    ensures ws[x].nodes[i].config.id == i && ws[x].nodes[j].config.id == j
  {
    hide Run, WorldWitnessed, Safe, Accounted, Sim, PromisesKept, Founded, Grows;
    var w := ws[x];
    var h0 := PrefixHistory(g, ws, x);
    assert EachAccounted(g, h0, w.network, w.nodes, w.disk);
    var h1 := LeaderLog(g, h0, w.network, i, w.nodes[i], w.disk[i]);
    KeptStable(g, h0, h1, i, w.network);
    IncludesItself(w.network);
    AccountedStable(g, h0, h1, i, w.network, w.network, j, w.nodes[j], w.disk[j]);
    h := LeaderLog(g, h1, w.network, j, w.nodes[j], w.disk[j]);
    SimStable(h1, h, j, w.nodes[i], App(g));
  }

  lemma LogMatching<V(!new), S(!new)>(g: Setting<V, S>, ws: seq<World<V, S>>, x: nat, i: Id, j: Id)
    requires Run(g, ws) && x < |ws| && i in ws[x].nodes && j in ws[x].nodes
    ensures Matching(ws[x].nodes[i].state, ws[x].nodes[j].state)
  {
    hide Run, Safe, Sim, Durable, Fixed, Matching;
    var n, m := ws[x].nodes[i], ws[x].nodes[j];
    if i == j {
      MatchingSelf(n.state);
    } else {
      var h := BothStand(g, ws, x, i, j);
      SimDurable(h, n, App(g));
      SimDurable(h, m, App(g));
      MatchingLogs(h, n, m, App(g));
    }
  }

  // ---- The persistence gate.

  /** In every reachable world a node with nothing to save is exactly what its disk holds. */
  lemma CleanIsDurable<V(!new), S(!new)>(g: Setting<V, S>, ws: seq<World<V, S>>, x: nat, i: Id)
    requires Run(g, ws) && x < |ws| && i in ws[x].nodes
    ensures i in ws[x].disk && (!ws[x].nodes[i].dirty ==> ws[x].disk[i] == ws[x].nodes[i].state)
  {
    hide Run, WorldWitnessed, Safe, PromisesKept, Founded, Sim;
    var h := PrefixHistory(g, ws, x);
    assert EachAccounted(g, h, ws[x].network, ws[x].nodes, ws[x].disk);
    assert Accounted(g, h, ws[x].network, i, ws[x].nodes[i], ws[x].disk[i]);
  }

  /** Saving the incremental transaction is saving the whole checkpoint. */
  lemma SaveIsCheckpoint<V(!new), S(!new)>(g: Setting<V, S>, ws: seq<World<V, S>>, x: nat, i: Id)
    requires Run(g, ws) && x < |ws| && i in ws[x].nodes && i in ws[x].disk && ws[x].nodes[i].dirty
    ensures Applied(ws[x].disk[i], Pending(ws[x].nodes[i])) == ws[x].nodes[i].state
  {
    hide Run, WorldWitnessed, Safe, PromisesKept, Founded, Accounted, Applied, Pending;
    var h := PrefixHistory(g, ws, x);
    assert EachAccounted(g, h, ws[x].network, ws[x].nodes, ws[x].disk);
    var h1 := SaveKeeps(g, h, ws[x].network, i, ws[x].nodes[i], ws[x].disk[i]);
  }

  /** A crash at any point of a run can be recovered from, with any log that holds the disk's entries. */
  lemma CrashRecovers<V(!new), S(!new)>(g: Setting<V, S>, ws: seq<World<V, S>>, x: nat, i: Id, config: Config, cap: nat)
    requires Run(g, ws) && x < |ws| && i in ws[x].nodes && i in ws[x].disk
    requires Configures(g.engine, config, g.members, i, cap) && |ws[x].disk[i].entries| <= cap
    ensures Restarted(g.engine, config, cap, ws[x].disk[i]).Ok?
    ensures Restarted(g.engine, config, cap, ws[x].disk[i]).value.state == ws[x].disk[i]
  {
    hide Run, WorldWitnessed, Safe, PromisesKept, Accounted, Restarted;
    var h := PrefixHistory(g, ws, x);
    assert EachAccounted(g, h, ws[x].network, ws[x].nodes, ws[x].disk);
    CrashKeeps(g, h, ws[x].network, i, ws[x].nodes[i], ws[x].disk[i], config, cap);
  }
}
