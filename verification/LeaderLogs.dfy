/**
 * Leader completeness for whole runs. What a leader holds is settled by its election,
 * except in a cluster of one, where nobody votes: there it follows from what a disk
 * can become.
 */
module LeaderLogs {
  import opened Types
  import opened Checkpoints
  import opened NodeModel
  import opened RaftHistory
  import opened RaftGrowth
  import opened RaftSafety
  import opened FixedVoters
  import opened FixedSteps
  import opened LocalHistory
  import opened NodeHistory
  import opened DynamicElections
  import opened Restarts
  import opened Worlds
  import opened WorldSafety
  import opened RunSafety

  // ---- What is durable only moves forward.

  lemma SavedAdvances<V(!new), S(!new)>(
    g: Setting<V, S>, h: History<V>, network: seq<Envelope<V, S>>, i: Id, n: Node<V, S>, d: Checkpoint<V, S>)
    requires Accounted(g, h, network, i, n, d) && Safe(h)
    ensures WellFormed(d) && WellFormed(n.state) && Advances(d, n.state)
    ensures n.dirty ==> Applied(d, Pending(n)) == n.state
  {
    hide Safe, Sim, Operate, WellFormed, Applied, Pending, Justified, Delta, Advances;
    if n.dirty {
      var p, op :| Unsaved(g, h, network, i, n, d, p, op);
      SaveWrites(g, h, i, p, d, op);
      GoesAdvances(d, n);
    } else {
      SimDurable(h, n, App(g));
      DurableWellFormed(h, i, d, App(g));
      AdvancesRefl(d);
    }
  }

  lemma GoesAdvances<V, S>(d: Checkpoint<V, S>, n: Node<V, S>)
    requires Goes(d, n)
    ensures WellFormed(d) && WellFormed(n.state) && Advances(d, n.state)
  {
  }

  lemma StepAdvances<V(!new), S(!new)>(g: Setting<V, S>, h: History<V>, w: World<V, S>, w1: World<V, S>, i: Id)
    requires Inv(g, h, w) && Next(g, w, w1) && i in w.disk
    ensures i in w1.disk && i in w.nodes && WellFormed(w.disk[i]) && Advances(w.disk[i], w1.disk[i])
  {
    hide Safe, Accounted, PromisesKept, Operate, NextMessage, Restarted, Justified, Applied, Pending, WellFormed,
         Advances,
         Founded;
    assert Accounted(g, h, w.network, i, w.nodes[i], w.disk[i]);
    SavedAdvances(g, h, w.network, i, w.nodes[i], w.disk[i]);
    AdvancesRefl(w.disk[i]);
    var a :| Performs(g, w, w1, a);
  }

  /** From any moment of a run to any later one, every disk only moves forward. */
  lemma {:induction false} DiskAdvances<V(!new), S(!new)>(
    g: Setting<V, S>, ws: seq<World<V, S>>, x: nat, y: nat, i: Id)
    requires Run(g, ws) && x <= y < |ws| && i in ws[x].disk
    ensures i in ws[y].disk && Advances(ws[x].disk[i], ws[y].disk[i])
    decreases y - x
  {
    hide Inv, WorldWitnessed, Next, Starts, Advances, WellFormed;
    if x == y {
      AdvancesRefl(ws[x].disk[i]);
    } else {
      DiskAdvances(g, ws, x, y - 1, i);
      var h := PrefixHistory(g, ws, y - 1);
      assert Next(g, ws[y - 1], ws[y - 1 + 1]);
      StepAdvances(g, h, ws[y - 1], ws[y], i);
      AdvancesTrans(ws[x].disk[i], ws[y - 1].disk[i], ws[y].disk[i]);
    }
  }

  // ---- A cluster of one.

  lemma CampaignTerm<V, S>(n: Node<V, S>, term: U64)
    requires Sized(n) && Timed(n)
    ensures Campaign(n, term).state.hard.term == term
  {
    hide Barrier, ElectionQuorum;
    var c := ResetElection(SelfVote(
      n.(prevoting := None,
         state := n.state.(hard := n.state.hard.(term := term, votedFor := Some(n.config.id))),
         dirty := true,
         role := Candidate,
         leader := None)));
    var last := Last(c.state).index;
    BarrierTerm(MatchedSelf(
      c.(quorumElapsed := 0,
         active := Filled<bool>(|c.peers|, false),
         role := Leader,
         leader := Some(c.config.id),
         elapsed := 0,
         next := Filled<U64>(|c.peers|, SaturatingInc(last)),
         matched := Filled<U64>(|c.peers|, 0)),
      last));
  }

  /** Without messages the term moves by one campaign at most, and only a leader commits. */
  ghost predicate Alone<V, S>(n: Node<V, S>, r: Node<V, S>) {
    && (r.state.hard.term as int == n.state.hard.term || r.state.hard.term as int == n.state.hard.term + 1)
    && (n.role != Leader && r.state.hard.term == n.state.hard.term ==>
          r.role != Leader && r.state.hard.commit == n.state.hard.commit)
  }

  lemma TimersAlone<V, S>(n: Node<V, S>)
    requires Sized(n) && Timed(n)
    ensures Alone(n, TickTimers(n).node)
  {
    hide Campaign, Barrier, ElectionQuorum;
    if n.role == Leader {
      BarrierTerm(n.(elapsed := 0));
    } else if n.state.hard.term < MAX_U64 {
      var term := n.state.hard.term + 1;
      CampaignTerm(n, term);
      CampaignTerm(ResetElection(SelfVote(n.(role := Follower, prevoting := Some(term)))), term);
    }
  }

  lemma TickAlone<V, S>(n: Node<V, S>)
    requires Sized(n) && Timed(n)
    ensures Alone(n, Tick(n).node)
  {
    hide TickTimers, ActiveQuorum;
    if Available(n) {
      var t := Ticked(n);
      TimersAlone(t);
      var q := t.(quorumElapsed := SaturatingInc(t.quorumElapsed));
      TimersAlone(q);
      TimersAlone(q.(quorumElapsed := 0, active := Filled<bool>(|q.peers|, false)));
    }
  }

  lemma ProposeAlone<V, S>(n: Node<V, S>, values: seq<V>)
    requires Sized(n) && Timed(n)
    ensures Alone(n, ProposeMany(n, values).node)
  {
    hide Refreshed, AdvanceCommit;
    if ProposalError(n, |values|).None? {
      var first := LogId(Last(n.state).index + 1, n.state.hard.term);
      var x := n.(state := n.state.(entries := n.state.entries + Batch(values, first)),
                  dirty := true, logFrom := Some(first.index));
      RefreshedFrame(x);
      CommitTerm(MatchedSelf(Refreshed(x), first.index + |values| - 1), 0);
    }
  }

  lemma CompactAlone<V, S>(n: Node<V, S>, index: U64, value: S)
    requires Sized(n) && Timed(n) && WellFormed(n.state)
    ensures Alone(n, Compact(n, index, value).node)
  {
    hide Barrier;
    if Available(n) && index <= n.state.hard.commit && IdAt(n.state, index).Some? {
      HeldIsWithin(n.state, index);
      hide IdAt, WellFormed;
      BarrierTerm(n.(state := Installed(n.state, Snapshot(IdAt(n.state, index).value, value)),
                     dirty := true, snapshotChanged := true));
    }
  }

  /** In a cluster of one nothing is ever sent. */
  lemma NobodyWrites<V, S>(g: Setting<V, S>, h: History<V>, network: seq<Envelope<V, S>>, i: Id, e: Envelope<V, S>)
    requires PromisesKept(g, h, network) && h.voters == {i}
    ensures e !in network
  {
    hide Committed;
  }

  lemma OperateAlone<V, S>(
    g: Setting<V, S>, h: History<V>, network: seq<Envelope<V, S>>, i: Id, n: Node<V, S>, op: Operation<V, S>)
    requires Sized(n) && Timed(n) && Justified(g, network, n, op) && PromisesKept(g, h, network) && h.voters == {i}
    requires WellFormed(n.state)
    ensures Alone(n, Operate(n, op).node)
  {
    hide WellFormed, Tick, Step, ProposeMany, Compact, Exact, PlainSnapshot, PlainValues, Alone, PromisesKept;
    match op
    case OpTick => TickAlone(n);
    case OpStep(e) => NobodyWrites(g, h, network, i, e);
    case OpPropose(values) => ProposeAlone(n, values);
    case OpCompact(index, value) => CompactAlone(n, index, value);
  }

  /** As long as term t is on the disk, so is this commit index; the node itself may have gone further. */
  ghost predicate Frozen<V, S>(w: World<V, S>, i: Id, t: U64, commit: U64) {
    && i in w.nodes && i in w.disk
    && (w.disk[i].hard.term > t || (w.disk[i].hard.term == t && w.disk[i].hard.commit == commit))
    && var n := w.nodes[i];
       n.state.hard.term > t || (n.state.hard.term == t && n.state.hard.commit == commit && n.role != Leader)
  }

  lemma FrozenNode<V(!new), S(!new)>(
    g: Setting<V, S>, h: History<V>, network: seq<Envelope<V, S>>, i: Id, n: Node<V, S>, d: Checkpoint<V, S>,
    op: Operation<V, S>)
    requires Accounted(g, h, network, i, n, d) && PromisesKept(g, h, network) && Justified(g, network, n, op)
    requires Sized(n) && Timed(n) && h.voters == {i} && Safe(h)
    ensures Alone(n, Operate(n, op).node)
  {
    hide Accounted, PromisesKept, Justified, Operate, Alone, WellFormed, Safe, Advances;
    SavedAdvances(g, h, network, i, n, d);
    OperateAlone(g, h, network, i, n, op);
  }

  lemma FrozenStep<V(!new), S(!new)>(
    g: Setting<V, S>, h: History<V>, w: World<V, S>, w1: World<V, S>, i: Id, t: U64, commit: U64)
    requires Inv(g, h, w) && Next(g, w, w1) && h.voters == {i} && Frozen(w, i, t, commit)
    ensures Frozen(w1, i, t, commit)
  {
    hide Safe, Accounted, PromisesKept, Operate, NextMessage, Restarted, Justified, Applied, Pending, WellFormed,
         Advances,
         Founded;
    var n, d := w.nodes[i], w.disk[i];
    assert Accounted(g, h, w.network, i, n, d);
    SavedAdvances(g, h, w.network, i, n, d);
    var a :| Performs(g, w, w1, a);
    assert a.node == i;
    match a {
      case Act(_, op) => FrozenNode(g, h, w.network, i, n, d, op);
      case Send(_) => TakenAlike(n);
      case Save(_) =>
      case Crash(_, config, cap) =>
        RestartedFits(g.engine, config, cap, d);
        CrashKeeps(g, h, w.network, i, n, d, config, cap);
    }
  }

  lemma TakenAlike<V, S>(n: Node<V, S>)
    requires Sized(n)
    ensures NextMessage(n).0.state == n.state && NextMessage(n).0.role == n.role
  {
    hide Rendered;
  }

  lemma {:induction false} StaysFrozen<V(!new), S(!new)>(
    g: Setting<V, S>, ws: seq<World<V, S>>, x: nat, y: nat, i: Id, t: U64, commit: U64)
    requires Run(g, ws) && x <= y < |ws| && Ids(g.members) == {i} && Frozen(ws[x], i, t, commit)
    ensures Frozen(ws[y], i, t, commit)
    decreases y - x
  {
    hide Safe, WorldWitnessed, Next, Starts, Frozen, EachAccounted, PromisesKept, Founded;
    if x < y {
      StaysFrozen(g, ws, x, y - 1, i, t, commit);
      var h := PrefixHistory(g, ws, y - 1);
      assert Next(g, ws[y - 1], ws[y - 1 + 1]);
      FrozenStep(g, h, ws[y - 1], ws[y], i, t, commit);
    }
  }

  lemma SavedWellFormed<V(!new), S(!new)>(
    g: Setting<V, S>, h: History<V>, network: seq<Envelope<V, S>>, i: Id, n: Node<V, S>, d: Checkpoint<V, S>)
    requires Accounted(g, h, network, i, n, d) && Safe(h)
    ensures WellFormed(d)
  {
    hide Accounted, WellFormed, Safe, Advances;
    SavedAdvances(g, h, network, i, n, d);
  }

  /** A leader that has not saved its election is one campaign past its disk. */
  lemma OneCampaign<V(!new), S(!new)>(
    g: Setting<V, S>, h: History<V>, network: seq<Envelope<V, S>>, i: Id, n: Node<V, S>, d: Checkpoint<V, S>)
    requires Accounted(g, h, network, i, n, d) && PromisesKept(g, h, network) && h.voters == {i}
    requires d.hard.term < n.state.hard.term
    requires Safe(h)
    ensures n.state.hard.term == d.hard.term + 1
  {
    hide Sim, Operate, PromisesKept, Justified, WellFormed, Safe;
    SavedWellFormed(g, h, network, i, n, d);
    var p, op :| Unsaved(g, h, network, i, n, d, p, op);
    OperateAlone(g, h, network, i, p, op);
  }

  /** What an earlier state had committed, when nothing was committed in between. */
  lemma AdvancesHold<V, S>(d: Checkpoint<V, S>, s: Checkpoint<V, S>, e: Checkpoint<V, S>)
    requires Advances(d, s) && Advances(d, e) && WellFormed(s) && e.hard.commit == d.hard.commit
    ensures HoldsCommitted(s, e)
  {
    hide Contiguous;
    forall k: U64 | Base(e).index < k <= e.hard.commit && Base(s).index < k ensures Get(s, k) == Get(e, k) {
      assert Get(s, k) == Get(d, k);
    }
  }

  lemma HeldAlone<V(!new), S(!new)>(g: Setting<V, S>, ws: seq<World<V, S>>, y: nat, j: Id, x: nat, i: Id)
    requires Run(g, ws) && x <= y < |ws| && j in ws[y].nodes && i in ws[x].nodes && |g.members| == 1
    requires ws[x].nodes[i].role == Leader && !ws[y].nodes[j].dirty
    requires ws[y].nodes[j].state.hard.term < ws[x].nodes[i].state.hard.term
    ensures HoldsCommitted(ws[x].nodes[i].state, ws[y].nodes[j].state)
  {
    hide Run, Next, Starts, WorldWitnessed, Safe, PromisesKept, Accounted, Advances, WellFormed, HoldsCommitted;
    var h := PrefixHistory(g, ws, x);
    var h1 := PrefixHistory(g, ws, y);
    OneVoter(g, i);
    OneVoter(g, j);
    var n, d, e := ws[x].nodes[i], ws[x].disk[i], ws[y].nodes[i].state;
    assert Accounted(g, h, ws[x].network, i, n, d);
    SavedAdvances(g, h, ws[x].network, i, n, d);
    DiskAdvances(g, ws, x, y, i);
    CleanIsDurable(g, ws, y, i);
    assert d.hard.term <= e.hard.term && d.hard.term <= n.state.hard.term by { AdvancesTerms(d, e); }
    OneCampaign(g, h, ws[x].network, i, n, d);
    StaysFrozen(g, ws, x, y, i, d.hard.term, d.hard.commit);
    AdvancesHold(d, n.state, e);
  }

  lemma AdvancesTerms<V, S>(d: Checkpoint<V, S>, s: Checkpoint<V, S>)
    requires Advances(d, s)
    ensures d.hard.term <= s.hard.term && d.hard.commit <= s.hard.commit
  {
  }

  lemma OneVoter<V, S>(g: Setting<V, S>, i: Id)
    requires |g.members| == 1 && i in Ids(g.members)
    ensures Ids(g.members) == {i}
  {
  }

  /**
   * Leader completeness (section 5.4): a leader holds everything any node ever exposes
   * as committed in an earlier term, even after the leader's election, and everything
   * exposed by then in its own term.
   */
  lemma LeaderCompleteness<V(!new), S(!new)>(
    g: Setting<V, S>, ws: seq<World<V, S>>, y: nat, j: Id, x: nat, i: Id)
    requires Run(g, ws) && y < |ws| && x < |ws| && j in ws[y].nodes && i in ws[x].nodes
    requires ws[x].nodes[i].role == Leader && !ws[y].nodes[j].dirty
    requires
      var earlier, term := ws[y].nodes[j].state.hard.term, ws[x].nodes[i].state.hard.term;
      earlier < term || (earlier == term && y <= x)
    ensures HoldsCommitted(ws[x].nodes[i].state, ws[y].nodes[j].state)
  {
    hide Run, HoldsCommitted;
    if y <= x {
      HeldSince(g, ws, y, j, x, i);
    } else if |g.members| > 1 {
      HeldBefore(g, ws, y, j, x, i);
    } else {
      assert |g.members| == 1 by { RunFounded(g, ws); }
      HeldAlone(g, ws, y, j, x, i);
    }
  }

  lemma RunFounded<V(!new), S(!new)>(g: Setting<V, S>, ws: seq<World<V, S>>)
    requires Run(g, ws)
    ensures g.members != []
  {
    hide Next;
  }
}
