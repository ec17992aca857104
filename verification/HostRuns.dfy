/**
 * The life of one node and its disk in either engine, under any inputs at all: whatever
 * messages arrive, in whatever order, from whomever. What its disk ever holds, what it
 * sends, and how it becomes leader.
 */
module HostRuns {
  import opened Types
  import opened Checkpoints
  import opened Memberships
  import opened NodeModel
  import opened LocalHistory
  import opened NodeHistory
  import opened SlotTables
  import opened DynamicNodes
  import opened DynamicElections
  import opened DynamicOperations
  import opened SentMessages

  datatype Host<!V, !S> = Host(node: Node<V, S>, disk: Checkpoint<V, S>)

  datatype Event<+V, +S> =
    | Ask(op: Operation<V, S>)
    | Take
    | Save
    | Crash(config: Config, cap: nat)

  /** What a node is for good: its identity, engine and genesis membership. */
  datatype Birth<!V, !S> = Birth(id: Id, hooks: Option<Hooks<V, S>>, genesis: Membership)

  ghost predicate Conceived<V(!new), S(!new)>(b: Birth<V, S>) {
    b.hooks.Some? ==> HooksFit(b.hooks.value, |b.genesis.slots|)
  }

  ghost predicate BornAs<V, S>(b: Birth<V, S>, n: Node<V, S>) {
    n.config.id == b.id && n.hooks == b.hooks && n.bootstrap == b.genesis
  }

  /** A node built from what the disk holds, with whatever timers and capacity it is given. */
  ghost predicate Rebuilt<V, S>(b: Birth<V, S>, n: Node<V, S>, d: Checkpoint<V, S>, config: Config, cap: nat) {
    && Configured(config) && config.id == b.id && |d.entries| <= cap
    && n == Built(config, cap, d, b.genesis, b.hooks)
  }

  ghost predicate Begins<V, S>(b: Birth<V, S>, x: Host<V, S>) {
    x.disk == Empty() && Rebuilt(b, x.node, x.disk, x.node.config, x.node.cap)
  }

  ghost predicate Happens<V, S>(b: Birth<V, S>, x: Host<V, S>, y: Host<V, S>, e: Event<V, S>) {
    var n := x.node;
    && Sized(n) && Timed(n)
    && match e
       case Ask(op) => Attaches(n, op) && y == x.(node := Operate(n, op).node)
       case Take => y == x.(node := NextMessage(n).0)
       case Save => n.dirty && y == Host(Persisted(n), Applied(x.disk, WriteOf(n.state, n.logFrom, n.snapshotChanged)))
       case Crash(config, cap) => y.disk == x.disk && Rebuilt(b, y.node, x.disk, config, cap)
  }

  /** The real votes the events so far have brought. */
  ghost function Gathered<V, S>(hs: seq<Host<V, S>>, es: seq<Event<V, S>>): Grants
    requires |hs| == |es| + 1
    decreases |es|
  {
    if es == [] then {}
    else
      var k := |es| - 1;
      Gathered(hs[..k + 1], es[..k]) + (if es[k].Ask? then Brought(hs[k].node, es[k].op) else {})
  }

  ghost predicate Life<V(!new), S(!new)>(b: Birth<V, S>, hs: seq<Host<V, S>>, es: seq<Event<V, S>>) {
    && Conceived(b) && |hs| == |es| + 1 && Begins(b, hs[0])
    && forall k | 0 <= k < |es| :: Happens(b, hs[k], hs[k + 1], es[k])
  }

  ghost predicate Well<V(!new), S(!new)>(b: Birth<V, S>, x: Host<V, S>, grants: Grants) {
    BornAs(b, x.node) && Goes(x.disk, x.node) && Sound(x.node, grants)
  }

  // ---- Starting.

  lemma PeersDistinct(m: Membership)
    ensures DistinctPeers(Peers(m))
  {
  }

  lemma BuiltWell<V(!new), S(!new)>(b: Birth<V, S>, n: Node<V, S>, d: Checkpoint<V, S>, config: Config, cap: nat)
    requires Conceived(b) && Rebuilt(b, n, d, config, cap) && WellFormed(d)
    ensures Well(b, Host(n, d), {})
  {
    hide WellFormed, Proper, Refreshed, Seating, Fits;
    var m := b.genesis;
    var peers := Peers(m);
    var k := |peers|;
    var bare: Node<V, S> := Node(
      config, cap, b.hooks, m, d, Follower, None, PositionOf(peers, config.id), m, peers,
      Filled<bool>(k, false), Filled<U64>(k, 1), Filled<U64>(k, 0), Filled<bool>(k, false),
          Filled<Option<Outbound>>(k, None), None, None,
      false, None, false, 0, 0, config.seed, None, MAX_U64, 0);
    PeersDistinct(m);
    BareFits(b, bare);
    RefreshedTidy(bare, {});
    RefreshedFrame(bare);
    var r := Refreshed(bare);
    ResetTidy(r, {});
    hide Tidy, Sound, DistinctPeers;
    TidySound(ResetElection(r), {});
    CleanGoes(n);
  }

  lemma BareFits<V(!new), S(!new)>(b: Birth<V, S>, n: Node<V, S>)
    requires Conceived(b) && n.hooks == b.hooks && n.bootstrap == b.genesis && |n.peers| == |b.genesis.slots|
    ensures Fits(n)
  {
  }

  lemma ResetTidy<V(!new), S(!new)>(n: Node<V, S>, grants: Grants)
    requires Sized(n) && Timed(n) && Tidy(n, grants)
    ensures Tidy(ResetElection(n), grants)
  {
    hide Seating, VotesReal, Bounded;
    TidyFlags(n, ResetElection(n), grants);
  }

  // ---- Every event keeps the host well.

  lemma AskWell<V(!new), S(!new)>(b: Birth<V, S>, x: Host<V, S>, grants: Grants, op: Operation<V, S>)
    requires Well(b, x, grants) && Attaches(x.node, op)
    ensures Sized(x.node) && Timed(x.node)
    ensures Well(b, x.(node := Operate(x.node, op).node), grants + Brought(x.node, op))
    ensures Earned(x.node, Operate(x.node, op).node, grants + Brought(x.node, op))
  {
    hide Delta, Advances, Contiguous, Sound, Operate, Brought, Attaches, Earned;
    var n := x.node;
    if n.dirty {
      BusyOperate(n, op);
      GrantsGrow(n, grants, grants + Brought(n, op));
    } else {
      SoundPlaced(n, grants);
      OperateGoes(n, op);
      OperateSound(n, grants, op);
    }
  }

  lemma BusyOperate<V(!new), S(!new)>(n: Node<V, S>, op: Operation<V, S>)
    requires Sized(n) && Timed(n) && n.dirty
    ensures Operate(n, op).node == n && Earned(n, n, {})
    ensures forall grants: Grants :: Earned(n, n, grants)
  {
    assert !Available(n);
  }

  lemma SoundPlaced<V(!new), S(!new)>(n: Node<V, S>, grants: Grants)
    requires Sound(n, grants)
    ensures Placed(n)
  {
    hide Placed, Seating;
    SeatingPlaced(n);
  }

  lemma SaveWell<V(!new), S(!new)>(b: Birth<V, S>, x: Host<V, S>, grants: Grants)
    requires Well(b, x, grants)
    ensures
      var n := x.node;
      var d := Applied(x.disk, WriteOf(n.state, n.logFrom, n.snapshotChanged));
      d == n.state && Well(b, Host(Persisted(n), d), grants)
  {
    hide Delta, Advances, WellFormed, Applied, WriteOf, Sound;
    var n := x.node;
    DeltaApplies(x.disk, n.state, n.logFrom, n.snapshotChanged);
    PersistedSound(n, grants);
    CleanGoes(Persisted(n));
  }

  lemma PersistedSound<V(!new), S(!new)>(n: Node<V, S>, grants: Grants)
    requires Sound(n, grants)
    ensures Sound(Persisted(n), grants)
  {
    SeatingFlags(n, Persisted(n));
    hide Seating;
  }

  lemma GoesParts<V, S>(d: Checkpoint<V, S>, n: Node<V, S>)
    requires Goes(d, n)
    ensures WellFormed(d) && WellFormed(n.state) && Advances(d, n.state) && |n.state.entries| <= n.cap
    ensures ProbeSound(n)
  {
  }

  lemma HappensWell<V(!new), S(!new)>(
    b: Birth<V, S>, x: Host<V, S>, y: Host<V, S>, e: Event<V, S>, grants: Grants)
    requires Conceived(b) && Well(b, x, grants) && Happens(b, x, y, e)
    ensures Well(b, y, grants + (if e.Ask? then Brought(x.node, e.op) else {}))
    ensures Earned(x.node, y.node, grants + (if e.Ask? then Brought(x.node, e.op) else {}))
    ensures Advances(x.disk, y.disk)
  {
    hide Goes, Sound, Operate, NextMessage, Applied, WriteOf, Brought, Attaches, WellFormed, Earned, Rebuilt, Advances;
    GoesParts(x.disk, x.node);
    AdvancesRefl(x.disk);
    match e {
      case Ask(op) => AskWell(b, x, grants, op);
      case Take =>
        TakeSound(x.node, grants);
        TakeGoes(x.disk, x.node);
        NextRole(x.node, y.node, grants);
        assert grants + {} == grants;
      case Save =>
        SaveWell(b, x, grants);
        NextRole(x.node, y.node, grants);
        assert grants + {} == grants;
      case Crash(config, cap) =>
        BuiltWell(b, y.node, x.disk, config, cap);
        GrantsGrow(y.node, {}, grants);
        BuiltFollows(b, y.node, x.disk, config, cap);
        NextRole(x.node, y.node, grants);
        assert grants + {} == grants;
    }
  }

  lemma NextRole<V, S>(n: Node<V, S>, m: Node<V, S>, grants: Grants)
    requires (Sized(n) && m == NextMessage(n).0) || m == Persisted(n) || m.role == Follower
    ensures Earned(n, m, grants)
  {
    hide Rendered, Quorum;
  }

  lemma BuiltFollows<V, S>(b: Birth<V, S>, n: Node<V, S>, d: Checkpoint<V, S>, config: Config, cap: nat)
    requires Rebuilt(b, n, d, config, cap)
    ensures n.role == Follower
  {
    hide Refreshed, Proper;
    var peers := Peers(b.genesis);
    var k := |peers|;
    RefreshedFrame(Node(
      config, cap, b.hooks, b.genesis, d, Follower, None, PositionOf(peers, config.id), b.genesis, peers,
      Filled<bool>(k, false), Filled<U64>(k, 1), Filled<U64>(k, 0), Filled<bool>(k, false),
          Filled<Option<Outbound>>(k, None), None, None,
      false, None, false, 0, 0, config.seed, None, MAX_U64, 0));
  }

  lemma EmptyWellFormed<V, S>()
    ensures WellFormed(Empty<V, S>())
  {
  }

  lemma {:induction false} LifeWell<V(!new), S(!new)>(b: Birth<V, S>, hs: seq<Host<V, S>>, es: seq<Event<V, S>>)
    requires Life(b, hs, es)
    ensures Well(b, hs[|es|], Gathered(hs, es))
    decreases |es|
  {
    hide Happens, Well, Rebuilt, Conceived;
    var k := |es| - 1;
    if es == [] {
      EmptyWellFormed<V, S>();
      BuiltWell(b, hs[0].node, hs[0].disk, hs[0].node.config, hs[0].node.cap);
    } else {
      PrefixLife(b, hs, es, k);
      LifeWell(b, hs[..k + 1], es[..k]);
      HappensWell(b, hs[k], hs[k + 1], es[k], Gathered(hs[..k + 1], es[..k]));
    }
  }

  lemma PrefixLife<V(!new), S(!new)>(b: Birth<V, S>, hs: seq<Host<V, S>>, es: seq<Event<V, S>>, k: nat)
    requires Life(b, hs, es) && k <= |es|
    ensures Life(b, hs[..k + 1], es[..k])
  {
    hide Begins, Happens, Conceived;
  }

  // ---- What holds through a whole life.

  /** The well-formed state at any moment, and the grants gathered by then. */
  lemma WellAt<V(!new), S(!new)>(b: Birth<V, S>, hs: seq<Host<V, S>>, es: seq<Event<V, S>>, x: nat)
    requires Life(b, hs, es) && x <= |es|
    ensures Well(b, hs[x], Gathered(hs[..x + 1], es[..x]))
  {
    hide Well, Happens, Begins, Conceived;
    PrefixLife(b, hs, es, x);
    LifeWell(b, hs[..x + 1], es[..x]);
  }

  /**
   * Local history: from any moment to any later one, across crashes, what is durable
   * only moves forward. Term, commit and base never decrease, a vote never changes
   * within its term, and a committed entry is unchanged until a newer snapshot covers it.
   */
  lemma {:induction false} DiskAdvances<V(!new), S(!new)>(
    b: Birth<V, S>, hs: seq<Host<V, S>>, es: seq<Event<V, S>>, x: nat, y: nat)
    requires Life(b, hs, es) && x <= y <= |es|
    ensures Advances(hs[x].disk, hs[y].disk)
    decreases y - x
  {
    hide Goes, Sound, Happens, Advances, WellFormed, Begins, Conceived;
    if x == y {
      AdvancesRefl(hs[x].disk);
    } else {
      DiskAdvances(b, hs, es, x, y - 1);
      WellAt(b, hs, es, y - 1);
      assert Happens(b, hs[y - 1], hs[y - 1 + 1], es[y - 1]);
      HappensWell(b, hs[y - 1], hs[y], es[y - 1], Gathered(hs[..y], es[..y - 1]));
      GoesParts(hs[y - 1].disk, hs[y - 1].node);
      AdvancesTrans(hs[x].disk, hs[y - 1].disk, hs[y].disk);
    }
  }

  /** At every moment the node's checkpoint, saved or not, is one that State::restore accepts as it is. */
  lemma AlwaysRestorable<V(!new), S(!new)>(b: Birth<V, S>, hs: seq<Host<V, S>>, es: seq<Event<V, S>>, x: nat)
    requires Life(b, hs, es) && x <= |es|
    ensures
      var s := hs[x].node.state;
      Restored(s.hard, s.snapshot, s.entries, hs[x].node.cap) == Ok(s) && Advances(hs[x].disk, s)
    ensures var d := hs[x].disk; Restored(d.hard, d.snapshot, d.entries, |d.entries|) == Ok(d)
  {
    hide Goes, Sound, Happens, Begins, Conceived, Advances, WellFormed, Restored;
    WellAt(b, hs, es, x);
    GoesParts(hs[x].disk, hs[x].node);
    RestoreExactly(hs[x].node.state, hs[x].node.cap);
    RestoreExactly(hs[x].disk, |hs[x].disk.entries|);
  }

  /** Delta persistence is checkpoint persistence, and saying it twice changes nothing more. */
  lemma DeltaIsCheckpoint<V(!new), S(!new)>(b: Birth<V, S>, hs: seq<Host<V, S>>, es: seq<Event<V, S>>, x: nat)
    requires Life(b, hs, es) && x <= |es|
    ensures
      var n := hs[x].node;
      var w := WriteOf(n.state, n.logFrom, n.snapshotChanged);
      && Applied(hs[x].disk, w) == n.state
      && Applied(Applied(hs[x].disk, w), w) == n.state
      && (w.entries != [] ==> w.truncateFrom == Some(w.entries[0].id.index))
      && (!n.dirty ==> w == Write(hs[x].disk.hard, None, None, []))
  {
    hide Sound, Happens, Begins, Conceived, Applied, Contiguous, Kept;
    WellAt(b, hs, es, x);
    var n := hs[x].node;
    DeltaApplies(hs[x].disk, n.state, n.logFrom, n.snapshotChanged);
    AgainDelta(n.state, n.logFrom, n.snapshotChanged);
    hide Delta, Advances;
    WriteStarts(n.state, n.logFrom, n.snapshotChanged);
    assert n.logFrom.None? ==> WriteOf(n.state, n.logFrom, n.snapshotChanged).entries == [];
  }

  lemma AgainDelta<V, S>(s: Checkpoint<V, S>, from: Option<U64>, changed: bool)
    requires WellFormed(s) && (changed ==> s.snapshot.Some?)
    ensures Applied(s, WriteOf(s, from, changed)) == s
  {
    hide Applied, WellFormed;
    DeltaApplies(s, s, from, changed);
  }

  lemma WriteStarts<V, S>(s: Checkpoint<V, S>, from: Option<U64>, changed: bool)
    requires WellFormed(s) && (from.Some? ==> Base(s).index < from.value)
    ensures var w := WriteOf(s, from, changed);
            w.entries != [] ==> w.truncateFrom == Some(w.entries[0].id.index)
  {
  }

  /**
   * Pre-vote soundness: a node that becomes leader was really granted that very term by
   * a quorum of its membership, counting itself; grants of a probe are never among them.
   */
  lemma LeadershipIsEarned<V(!new), S(!new)>(b: Birth<V, S>, hs: seq<Host<V, S>>, es: seq<Event<V, S>>, x: nat)
    requires Life(b, hs, es) && x < |es|
    requires hs[x].node.role != Leader && hs[x + 1].node.role == Leader
    ensures Quorum(hs[x].node.membership,
                   Granted(b.id, hs[x + 1].node.state.hard.term, Gathered(hs[..x + 2], es[..x + 1])))
  {
    hide Happens, Goes, Sound, Begins, Conceived, Quorum, Brought, Advances;
    WellAt(b, hs, es, x);
    assert Happens(b, hs[x], hs[x + 1], es[x]);
    HappensWell(b, hs[x], hs[x + 1], es[x], Gathered(hs[..x + 1], es[..x]));
    assert hs[..x + 2][..x + 1] == hs[..x + 1] && es[..x + 1][..x] == es[..x];
  }

  /** A pending probe always asks about the next term, as a follower with a slot of its own. */
  lemma ProbesAskNext<V(!new), S(!new)>(b: Birth<V, S>, hs: seq<Host<V, S>>, es: seq<Event<V, S>>, x: nat)
    requires Life(b, hs, es) && x <= |es|
    ensures
      var n := hs[x].node;
      n.prevoting.Some? ==>
        && n.prevoting.value == n.state.hard.term + 1 && n.role == Follower
        && n.local < |n.peers| && n.peers[n.local] == Some(b.id) && IsVoter(n.membership, b.id)
  {
    hide Life, VotesReal, Bounded, Outgoing, InForce, DistinctPeers, AllSeated, Fits, Continues, IsVoter;
    WellAt(b, hs, es, x);
  }

  /** The cached membership is always the one at the end of the log, and every member has exactly one slot. */
  lemma CacheIsCoherent<V(!new), S(!new)>(b: Birth<V, S>, hs: seq<Host<V, S>>, es: seq<Event<V, S>>, x: nat)
    requires Life(b, hs, es) && x <= |es|
    ensures
      var n := hs[x].node;
      && n.membership == MembershipAt(n, Last(n.state).index).1
      && DistinctPeers(n.peers)
      && (forall id | Contains(n.membership, id) :: Some(id) in n.peers)
      && n.local == PositionOf(n.peers, b.id)
      && (n.role == Leader && !IsVoter(n.membership, b.id) ==>
            MembershipAt(n, Last(n.state).index).0 > n.state.hard.commit)
  {
    hide Life, VotesReal, Bounded, Outgoing, DistinctPeers, Fits, Goes, IsVoter, MembershipAt;
    WellAt(b, hs, es, x);
  }

  /** A leader's positions stay in its log, so no subtraction underflows and every clamp has its bounds in order. */
  lemma PositionsStayInside<V(!new), S(!new)>(b: Birth<V, S>, hs: seq<Host<V, S>>, es: seq<Event<V, S>>, x: nat, p: nat)
    requires Life(b, hs, es) && x <= |es| && hs[x].node.role == Leader && p < |hs[x].node.peers|
    ensures
      var n := hs[x].node;
      && |n.next| == |n.matched| == |n.peers|
      && 1 <= n.next[p] <= SaturatingInc(Last(n.state).index) && n.matched[p] <= Last(n.state).index
      && SaturatingInc(n.matched[p]) <= SaturatingInc(Last(n.state).index)
  {
    hide Life, Outgoing, VotesReal, InForce, DistinctPeers, AllSeated, Continues, IsVoter;
    WellAt(b, hs, es, x);
  }

  /** Whatever is handed out passes the receiver's check, and nothing clean stays stuck. */
  lemma MessagesAreValid<V(!new), S(!new)>(b: Birth<V, S>, hs: seq<Host<V, S>>, es: seq<Event<V, S>>, x: nat)
    requires Life(b, hs, es) && x <= |es|
    ensures Sized(hs[x].node)
    ensures
      var n := hs[x].node;
      && (!n.dirty && !Available(n) ==> NextMessage(n).1.Some?)
      && (NextMessage(n).1.Some? ==>
            !n.dirty && NextMessage(n).1.value.from == b.id && ValidMessage(NextMessage(n).1.value.message))
  {
    hide Happens, Begins, Conceived, Sound, Delta, Advances, Contiguous, NextMessage, ValidMessage;
    WellAt(b, hs, es, x);
    NextMessageValid(hs[x].node, Gathered(hs[..x + 1], es[..x]));
  }
}
