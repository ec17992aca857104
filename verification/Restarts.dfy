/**
 * Starting a node whose voters never change from its durable checkpoint, in either
 * engine (Node::new and Cluster::new), and standing again.
 */
module Restarts {
  import opened Types
  import opened Checkpoints
  import opened Memberships
  import opened NodeModel
  import opened RaftHistory
  import opened RaftGrowth
  import opened RaftSafety
  import opened FixedVoters
  import opened FixedSteps
  import opened FixedReplication
  import opened LocalHistory
  import opened NodeHistory

  predicate NoRepeats(members: seq<Id>) {
    forall p, q | 0 <= p < q < |members| :: members[p] != members[q]
  }

  function AllVoters(members: seq<Id>): (m: Membership)
    requires members != [] && NoRepeats(members)
  {
    var r := Roster(seq(|members|, k requires 0 <= k < |members| => Some(Member(members[k], true, false, false))));
    assert Seats(r.slots, 0, Voters);
    r
  }

  /** Node::new: the checks, in the source's order, then the constructor both engines share. */
  function NewNode<V, S>(config: Config, cap: nat, state: Checkpoint<V, S>): Result<Node<V, S>, Error> {
    if || config.members == [] || cap == 0
       || config.id !in config.members
       || config.heartbeatTicks == 0
       || config.electionTicks <= config.heartbeatTicks
       || config.electionTicks > MAX_U64 / 2
       || !NoRepeats(config.members)
    then Err(Error.Config)
    else if state.hard.votedFor.Some? && state.hard.votedFor.value !in config.members then Err(State)
    else Ok(Built(config, cap, state, AllVoters(config.members), None))
  }

  /** Cluster::new: room for the protocol's reserve, sound timers, then the same constructor. */
  function NewClusterNode<V, S>(
    config: Config, cap: nat, state: Checkpoint<V, S>, genesis: Membership, hooks: Hooks<V, S>)
    : Result<Node<V, S>, Error>
  {
    if || cap < 4
       || config.heartbeatTicks == 0
       || config.electionTicks <= config.heartbeatTicks
       || config.electionTicks > MAX_U64 / 2
    then Err(Error.Config)
    else Ok(Built(config, cap, state, genesis, Some(hooks)))
  }

  /** Which engine a cluster runs, and from which membership. */
  datatype Engine<!V, !S> = Engine(hooks: Option<Hooks<V, S>>, genesis: Membership)

  function Started<V, S>(g: Engine<V, S>, config: Config, cap: nat, state: Checkpoint<V, S>): Result<Node<V, S>,
      Error> {
    if g.hooks.None? then NewNode(config, cap, state)
    else NewClusterNode(config, cap, state, g.genesis, g.hooks.value)
  }

  /** Reading the journal back and starting over. */
  function Restarted<V, S>(g: Engine<V, S>, config: Config, cap: nat, disk: Checkpoint<V, S>): Result<Node<V, S>,
      Error> {
    match Restored(disk.hard, disk.snapshot, disk.entries, cap)
    case Err(e) => Err(e)
    case Ok(state) => Started(g, config, cap, state)
  }

  /** The first membership has exactly these voters and nobody else. */
  ghost predicate Founds<V, S>(g: Engine<V, S>, members: seq<Id>) {
    && members != [] && NoRepeats(members)
    && if g.hooks.None? then g.genesis == AllVoters(members)
       else SetOf(g.genesis, Voters) == Ids(members) == Everyone(g.genesis) && !IsJoint(g.genesis)
  }

  /** A configuration of this cluster, and enough slots for the log. */
  ghost predicate Configures<V, S>(g: Engine<V, S>, config: Config, members: seq<Id>, i: Id, cap: nat) {
    && Configured(config) && config.id == i && cap > 0
    && if g.hooks.None? then config.members == members else cap >= 4
  }

  ghost function Ids(members: seq<Id>): set<Id> {
    set k | 0 <= k < |members| :: members[k]
  }

  lemma VotersAre(members: seq<Id>)
    requires members != [] && NoRepeats(members)
    ensures SetOf(AllVoters(members), Voters) == Ids(members)
    ensures SetOf(AllVoters(members), OldVoters) == {}
    ensures Ids(members) != {} && forall i :: i in Ids(members) <==> i in members
  {
    var r := AllVoters(members);
    assert members[0] in Ids(members);
    forall i | i in Ids(members) ensures i in SetOf(r, Voters) {
      var k :| 0 <= k < |members| && members[k] == i;
      assert Seats(r.slots, k, Voters);
    }
  }

  lemma FoundsSets<V, S>(g: Engine<V, S>, members: seq<Id>)
    requires Founds(g, members)
    ensures SetOf(g.genesis, Voters) == Ids(members) == Everyone(g.genesis) && SetOf(g.genesis, OldVoters) == {}
    ensures Ids(members) != {} && forall i :: i in Ids(members) <==> i in members
  {
    JointIsNonempty(g.genesis);
    assert members[0] in Ids(members);
    if g.hooks.None? {
      VotersAre(members);
      assert Everyone(g.genesis) <= Ids(members);
      assert SetOf(g.genesis, Voters) <= Everyone(g.genesis);
    }
  }

  /** The node before its first refresh. */
  ghost function Bare<V, S>(g: Engine<V, S>, config: Config, cap: nat, state: Checkpoint<V, S>): Node<V, S> {
    var peers := Peers(g.genesis);
    var n := |peers|;
    Node(config, cap, g.hooks, g.genesis, state, Follower, None, PositionOf(peers, config.id), g.genesis, peers,
         Filled<bool>(n, false), Filled<U64>(n, 1), Filled<U64>(n, 0), Filled<bool>(n, false),
             Filled<Option<Outbound>>(n, None), None, None,
         false, None, false, 0, 0, config.seed, None, MAX_U64, 0)
  }

  lemma BareFixed<V, S>(g: Engine<V, S>, members: seq<Id>, config: Config, cap: nat, state: Checkpoint<V, S>)
    requires Founds(g, members) && Configured(config) && config.id in Ids(members) && cap > 0
    ensures Fixed(Bare(g, config, cap, state), Ids(members))
  {
    var n := Bare(g, config, cap, state);
    FoundsSets(g, members);
    hide Founds;
    var k :| 0 <= k < |g.genesis.slots| && Seats(g.genesis.slots, k, Voters)
        && g.genesis.slots[k].value.id == config.id;
    assert n.peers[k] == Some(config.id);
    forall p | 0 <= p < |n.peers| && n.peers[p].Some? ensures n.peers[p].value in Ids(members) {
      assert g.genesis.slots[p].value.id in Everyone(g.genesis);
    }
  }

  /** A started node is the bare one with a fresh election deadline. */
  lemma StartedBare<V, S>(g: Engine<V, S>, members: seq<Id>, config: Config, i: Id, cap: nat, state: Checkpoint<V, S>)
    requires Founds(g, members) && Configures(g, config, members, i, cap) && i in Ids(members)
    requires state.hard.votedFor.Some? ==> state.hard.votedFor.value in members
    requires PlainState(g.hooks, g.genesis, state)
    ensures Started(g, config, cap, state) == Ok(ResetElection(Bare(g, config, cap, state)))
  {
    hide Fixed, Refreshed, ResetElection, PlainState;
    FoundsSets(g, members);
    BareFixed(g, members, config, cap, state);
    FixedRefreshed(Bare(g, config, cap, state), Ids(members));
  }

  // ---- What a checkpoint in the history is on its own.

  lemma RetainsWellFormed<V, S>(log: Log<V>, s: Checkpoint<V, S>, app: Application<V, S>)
    requires Plain(log, s.hard.term) && Retains(log, s, app)
    requires s.hard.term == 0 ==> s.hard.votedFor.None?
    ensures WellFormed(s)
  {
    RetainedContiguous(log, s, app);
    LastIndex(s);
    hide Contiguous;
  }

  lemma NoVoteAtZero<V, S>(h: History<V>, i: Id, s: Checkpoint<V, S>, app: Application<V, S>)
    requires BallotsOk(h) && PlatformsOk(h) && Durable(h, i, s, app)
    ensures s.hard.term == 0 ==> s.hard.votedFor.None?
    ensures s.hard.votedFor.Some? ==> s.hard.votedFor.value in h.voters
  {
    hide Retains, Committed;
  }

  lemma SafeBallots<V>(h: History<V>)
    requires Safe(h)
    ensures BallotsOk(h) && PlatformsOk(h)
  {
  }

  lemma DurableLog<V, S>(h: History<V>, i: Id, s: Checkpoint<V, S>, app: Application<V, S>)
    requires Durable(h, i, s, app) && LogsOk(h)
    ensures Retains(h.log[i], s, app) && Plain(h.log[i], s.hard.term)
  {
    hide WellRooted, Retains, Committed;
    LogPlain(h, i);
  }

  lemma DurableWellFormed<V, S>(h: History<V>, i: Id, s: Checkpoint<V, S>, app: Application<V, S>)
    requires Durable(h, i, s, app)
    requires Safe(h)
    ensures i in h.log && WellFormed(s)
    ensures s.hard.votedFor.Some? ==> s.hard.votedFor.value in h.voters
  {
    hide Safe, Shape, LogsOk, WellRooted, Retains, Committed, WellFormed, BallotsOk, PlatformsOk;
    SafeLogs(h);
    SafeBallots(h);
    NoVoteAtZero(h, i, s, app);
    DurableLog(h, i, s, app);
    RetainsWellFormed(h.log[i], s, app);
  }

  /** Recovery from a durable checkpoint never fails, and the node stands where it stood. */
  lemma RestartSim<V, S>(
    h: History<V>, i: Id, disk: Checkpoint<V, S>, app: Application<V, S>, g: Engine<V, S>, config: Config,
    members: seq<Id>, cap: nat)
    requires Durable(h, i, disk, app) && |disk.entries| <= cap && PlainState(g.hooks, g.genesis, disk)
    requires Founds(g, members) && Configures(g, config, members, i, cap) && Ids(members) == h.voters
    requires Safe(h)
    ensures
      var r := Restarted(g, config, cap, disk);
      && r.Ok? && r.value.state == disk && r.value.config == config && r.value.cap == cap
      && r.value.hooks == g.hooks && r.value.bootstrap == g.genesis && r.value.role == Follower
      && Sim(h, r.value, app) && Steady(r.value) && Clean(r.value)
  {
    hide Safe, Durable, Fixed, ResetElection, Restored, Started, WellFormed, Sim, Sized, PlainState;
    DurableVoterSet(h, i, disk, app);
    FoundsSets(g, members);
    DurableWellFormed(h, i, disk, app);
    RestoreExactly(disk, cap);
    StartedBare(g, members, config, i, cap, disk);
    BareFixed(g, members, config, cap, disk);
    BareSim(h, i, disk, app, g, config, cap);
  }

  lemma DurableVoterSet<V, S>(h: History<V>, i: Id, s: Checkpoint<V, S>, app: Application<V, S>)
    requires Durable(h, i, s, app)
    ensures i in h.voters
  {
  }

  lemma BareSim<V, S>(
    h: History<V>, i: Id, disk: Checkpoint<V, S>, app: Application<V, S>, g: Engine<V, S>, config: Config, cap: nat)
    requires Durable(h, i, disk, app) && |disk.entries| <= cap && Configured(config) && config.id == i
    requires Fixed(Bare(g, config, cap, disk), h.voters) && PlainState(g.hooks, g.genesis, disk)
    ensures
      var r := ResetElection(Bare(g, config, cap, disk));
      && r.state == disk && r.config == config && r.cap == cap && r.hooks == g.hooks && r.bootstrap == g.genesis
      && r.role == Follower
      && Sim(h, r, app) && Steady(r) && Clean(r)
  {
    hide Durable, Fixed, Stands, Leads, VotesHeld, AcksHeld, Queued;
    var b := Bare(g, config, cap, disk);
    assert Core(h, b, app);
    CoreFlags(h, b, ResetElection(b), app);
  }
}
