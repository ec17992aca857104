/** Log repair where it happens: between any leader and follower of a running cluster. */
module RepairRuns {
  import opened Types
  import opened Checkpoints
  import opened NodeModel
  import opened LocalHistory
  import opened RaftHistory
  import opened RaftGrowth
  import opened RaftSafety
  import opened FixedVoters
  import opened FixedSteps
  import opened FixedReplication
  import opened Restarts
  import opened Worlds
  import opened RunSafety
  import opened LogRepair

  /** Two checkpoints of logs that agree up to n show the same identities up to n. */
  lemma SameIdentities<V, S>(
    a: Log<V>, b: Log<V>, n: nat, s: Checkpoint<V, S>, t: Checkpoint<V, S>, app: Application<V, S>, k: U64)
    requires Retains(a, s, app) && Retains(b, t, app) && Numbered(a) && Numbered(b) && Agree(a, b, n)
    requires k <= n && Base(s).index <= k && Base(t).index <= k
    ensures IdAt(s, k) == IdAt(t, k)
  {
    IdAtLog(a, s, app, k);
    IdAtLog(b, t, app, k);
  }

  /** What a voter acknowledged to its leader, or nothing if it never heard of the term. */
  lemma AcknowledgedAgrees<V>(h: History<V>, t: nat, j: Id, lead: Log<V>, n: nat)
    requires AcksMatch(h) && AcksOk(h) && j in h.term && j in h.log && h.term[j] <= t && n <= Ack(h, t, j)
    requires t in h.reigns && h.reigns[t].log == lead
    ensures Agree(lead, h.log[j], n)
  {
    if n > 0 {
      AckMatches(h, t, j, n);
    }
  }

  lemma CommittedAgrees<V>(h: History<V>, log: Log<V>, commit: nat, bound: nat, t: nat)
    requires ReignsSafe(h) && commit <= |log| && Committed(h, log[..commit], bound) && bound <= t && t in h.reigns
    ensures Agree(h.reigns[t].log, log, commit)
  {
    hide Committed;
    CommittedInReign(h, log[..commit], bound, t);
    assert forall k | 0 <= k < commit :: log[..commit][k] == log[k];
  }

  lemma PairRepairable<V, S>(
    h: History<V>, n: Node<V, S>, f: Node<V, S>, app: Application<V, S>, matched: U64)
    requires Durable(h, n.config.id, n.state, app) && Durable(h, f.config.id, f.state, app) && Leads(h, n)
    requires f.state.hard.term <= n.state.hard.term && matched <= Ack(h, n.state.hard.term, f.config.id)
    requires Safe(h)
    ensures Repairable(n.state, f.state, matched)
  {
    var t := n.state.hard.term;
    var a, b := h.log[n.config.id], h.log[f.config.id];
    var commit := f.state.hard.commit;
    AcknowledgedAgrees(h, t, f.config.id, a, matched);
    CommittedAgrees(h, b, commit, f.state.hard.term, t);
    hide Committed, Shape, AcksKept, AcksMatch, BallotsSafe, ReignsSafe;
    DurableWellFormed(h, n.config.id, n.state, app);
    DurableWellFormed(h, f.config.id, f.state, app);
    hide WellFormed;
    SafeLogs(h);
    DurableLog(h, n.config.id, n.state, app);
    DurableLog(h, f.config.id, f.state, app);
    NumberedLog(a, t);
    NumberedLog(b, f.state.hard.term);
    hide LogsOk, Safe, Plain, Numbered, Retains, IdAt, Agree;
    LogsRepairable(a, b, n.state, f.state, app, matched);
  }

  lemma LogsRepairable<V, S>(
    a: Log<V>, b: Log<V>, s: Checkpoint<V, S>, t: Checkpoint<V, S>, app: Application<V, S>, matched: U64)
    requires Retains(a, s, app) && Retains(b, t, app) && Numbered(a) && Numbered(b)
    requires WellFormed(s) && WellFormed(t) && Agree(a, b, t.hard.commit) && Agree(a, b, matched)
    ensures Repairable(s, t, matched)
  {
    IdAtLog(a, s, app, 0);
    hide WellFormed, IdAt, Retains, Numbered;
    forall k: U64 | Base(s).index <= k <= t.hard.commit && Base(t).index <= k ensures IdAt(s, k) == IdAt(t, k) {
      SameIdentities(a, b, t.hard.commit, s, t, app, k);
    }
    if Base(s).index <= matched && Base(t).index <= matched {
      SameIdentities(a, b, matched, s, t, app, matched);
    }
  }

  /**
   * In every reachable world, whatever a leader has recorded as matched really is in the
   * follower's log, and the follower's committed prefix is in the leader's: what log
   * repair between the two rests on.
   */
  lemma ReachableIsRepairable<V(!new), S(!new)>(
    g: Setting<V, S>, ws: seq<World<V, S>>, x: nat, i: Id, j: Id, p: nat)
    requires Run(g, ws) && x < |ws| && i in ws[x].nodes && j in ws[x].nodes && i != j
    requires ws[x].nodes[i].role == Leader && ws[x].nodes[j].state.hard.term <= ws[x].nodes[i].state.hard.term
    requires p < |ws[x].nodes[i].peers| && ws[x].nodes[i].peers[p] == Some(j)
    ensures p < |ws[x].nodes[i].matched|
    ensures Repairable(ws[x].nodes[i].state, ws[x].nodes[j].state, ws[x].nodes[i].matched[p])
  {
    hide Run, Safe, Durable, Leads, Repairable;
    var h := BothStand(g, ws, x, i, j);
    var n, f := ws[x].nodes[i], ws[x].nodes[j];
    SimDurable(h, n, App(g));
    SimDurable(h, f, App(g));
    FixedPlaced(n, h.voters);
    hide Fixed;
    PairRepairable(h, n, f, App(g), n.matched[p]);
  }
}
