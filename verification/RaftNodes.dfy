/**
 * One node as the source keeps it: an object whose methods update its fields
 * (jarl/src/node.rs). Every method is proved to do to the object exactly what the
 * function of NodeModel.dfy does to the value.
 */
module RaftNodes {
  import opened Types
  import opened Checkpoints
  import opened LogStates
  import opened Memberships
  import opened MembershipTables
  import opened QuorumIndexes
  import opened NodeModel
  import opened NodeHistory
  import opened SlotTables
  import opened LocalHistory
  import opened DynamicNodes
  import opened DynamicElections
  import opened DynamicOperations
  import opened SentMessages
  import opened CommitRules
  import opened Queues
  import opened LeaderActs
  import opened HandedOut
  import opened NodeActs

  class RaftNode<V(!new), S(!new)> {
    const config: Config
    const hooks: Option<Hooks<V, S>>
    const bootstrap: Membership
    const state: LogState<V, S>
    var role: Role
    var leader: Option<Id>
    var local: nat
    var membership: Membership
    var peers: seq<Option<Id>>
    var votes: seq<bool>
    var next: seq<U64>
    var matched: seq<U64>
    var active: seq<bool>
    var outbox: seq<Option<Outbound>>
    var extraReply: Option<(Id, Outbound)>
    var requestFrom: Option<Id>
    var dirty: bool
    var logFrom: Option<U64>
    var snapshotChanged: bool
    var elapsed: U64
    var electionDeadline: U64
    var random: U64
    var prevoting: Option<U64>
    var leaderAge: U64
    var quorumElapsed: U64

    /** The fields as one value. */
    ghost function View(): Node<V, S>
      requires state.Valid()
      reads this, state, state.slots
    {
      Node(config, state.slots.Length, hooks, bootstrap, state.Contents(), role, leader, local, membership, peers,
           votes, next, matched, active, outbox, extraReply, requestFrom, dirty, logFrom, snapshotChanged,
           elapsed, electionDeadline, random, prevoting, leaderAge, quorumElapsed)
    }

    /** The parallel arrays have N slots, no two of them for the same peer. */
    ghost predicate Valid()
      reads this, state, state.slots
    {
      state.Valid() && Sized(View()) && Timed(View()) && DistinctPeers(peers)
      && |bootstrap.slots| == |peers| && (hooks.Some? ==> HooksFit(hooks.value, |peers|))
    }

    /** The constructor both engines share; the checks on timing and capacity are the caller's. */
    constructor (config: Config, state: LogState<V, S>, membership: Membership, hooks: Option<Hooks<V, S>>)
      requires state.Valid() && Configured(config)
      requires hooks.Some? ==> HooksFit(hooks.value, |membership.slots|)
      ensures Valid() && this.config == config && this.state == state && this.hooks == hooks
      ensures state.Valid() && View() == Built(config, state.slots.Length, state.Contents(), membership, hooks)
      ensures Starts(View(), state.Contents())
    {
      var ids := Peers(membership);
      this.config, this.state, this.hooks, this.bootstrap := config, state, hooks, membership;
      this.membership, this.peers := membership, ids;
      role, leader, local := Follower, None, PositionOf(ids, config.id);
      votes, next, matched := Filled<bool>(|ids|, false), Filled<U64>(|ids|, 1), Filled<U64>(|ids|, 0);
      active, outbox := Filled<bool>(|ids|, false), Filled<Option<Outbound>>(|ids|, None);
      extraReply, requestFrom, dirty, logFrom, snapshotChanged := None, None, false, None, false;
      elapsed, electionDeadline, random := 0, 0, config.seed;
      prevoting, leaderAge, quorumElapsed := None, MAX_U64, 0;
      new;
      RefreshMembership();
      ResetElection();
      Started(membership);
    }

    lemma Started(membership: Membership)
      requires Valid() && Configured(config) && (hooks.Some? ==> HooksFit(hooks.value, |membership.slots|))
      requires View() == Built(config, state.slots.Length, state.Contents(), membership, hooks)
      ensures Starts(View(), state.Contents())
    {
      hide LogState.Contents, LogState.Valid, HooksFit, Starts, Proper, Built;
      BuiltStarts(config, state.slots.Length, state.Contents(), membership, hooks);
    }

    // ---- Sending.

    method Send(peer: nat, out: Outbound)
      requires Valid()
      modifies this`outbox, this`extraReply
      ensures Valid() && View() == Sent(old(View()), peer, out)
    {
      if peer >= |peers| {
        if requestFrom.Some? {
          extraReply := Some((requestFrom.value, out));
        }
      } else {
        outbox := outbox[peer := Some(out)];
      }
    }

    method Broadcast()
      requires Valid()
      modifies this`outbox, this`extraReply
      ensures Valid() && View() == NodeModel.Broadcast(old(View()))
    {
      hide LogState.Contents, LogState.Valid, HooksFit, DistinctPeers, Proper;
      ghost var was := View();
      for peer := 0 to |peers|
        invariant Valid() && View() == was.(outbox := outbox)
        invariant forall p | 0 <= p < |peers| ::
          outbox[p] == if p < peer then NodeModel.Broadcast(was).outbox[p] else was.outbox[p]
      {
        if peer != local && peers[peer].Some? && Contains(membership, peers[peer].value) {
          Send(peer, SendReplicate);
        }
      }
      assert outbox == NodeModel.Broadcast(was).outbox;
    }

    // ---- Timers and roles.

    method ResetElection()
      requires Valid()
      modifies this`random, this`electionDeadline, this`elapsed
      ensures Valid() && View() == NodeModel.ResetElection(old(View()))
      ensures config.electionTicks <= electionDeadline < 2 * config.electionTicks
    {
      hide LogState.Contents, LogState.Valid, HooksFit, DistinctPeers, Proper;
      random := (random + 0x9e37_79b9_7f4a_7c15) % (MAX_U64 + 1);
      electionDeadline := config.electionTicks + config.jitter(random) % config.electionTicks;
      elapsed := 0;
    }

    method Follow(to: Option<Id>)
      requires Valid()
      modifies this`role, this`prevoting, this`leaderAge, this`leader,
               this`random, this`electionDeadline, this`elapsed
      ensures Valid() && View() == Followed(old(View()), to)
    {
      hide LogState.Contents, LogState.Valid, HooksFit, DistinctPeers, Proper, NodeModel.ResetElection;
      Yield(to);
      ResetElection();
    }

    method Yield(to: Option<Id>)
      modifies this`role, this`prevoting, this`leaderAge, this`leader
      ensures role == Follower && prevoting == None && leader == to
      ensures leaderAge == if to.Some? then 0 else old(leaderAge)
    {
      role := Follower;
      prevoting := None;
      if to.Some? {
        leaderAge := 0;
      }
      leader := to;
    }

    // ---- The membership in force.

    method RecordAt(index: U64) returns (found: (U64, Membership))
      requires Valid()
      ensures found == MembershipAt(View(), index)
    {
      if hooks.None? {
        return (0, bootstrap);
      }
      found :=
        if state.snapshot.Some?
        then (state.snapshot.value.last.index, hooks.value.snapshot(state.snapshot.value.value))
        else (0, bootstrap);
      ghost var entries := state.Contents().entries;
      var i := 0;
      while i < state.len && state.slots[i].value.id.index <= index
        invariant i <= state.len
        invariant LastRecord(entries[i..], index, hooks.value, found) == MembershipAt(View(), index)
      {
        var e := state.slots[i].value;
        assert entries[i..][0] == e && entries[i..][1..] == entries[i + 1..];
        if e.value.Some? {
          var m := hooks.value.record(e.value.value);
          if m.Some? {
            found := (e.id.index, m.value);
          }
        }
        i := i + 1;
      }
      if i < state.len {
        assert entries[i..][0] == state.slots[i].value;
      }
    }

    /** A member without a slot gets the first one nobody needs; there always is one. */
    method SeatMember(k: nat)
      requires Valid() && |membership.slots| == |peers| && k < |membership.slots| && SeatedUpTo(View(), k)
      modifies this`peers, this`votes, this`active, this`next, this`matched, this`outbox
      ensures Valid() && SeatedUpTo(View(), k + 1)
      ensures SeatAll(View(), k + 1) == SeatAll(old(View()), k)
    {
      hide LogState.Contents, LogState.Valid, HooksFit, Proper;
      if membership.slots[k].Some? {
        var id := membership.slots[k].value.id;
        SeatedSeats(View(), k);
        hide DistinctPeers;
        if Some(id) !in peers {
          var slot := FreeSlot(peers, membership);
          assert slot < |peers| by {
            assert Contains(membership, id);
            FreeSlotExists(peers, membership, id);
          }
          ghost var seated := Seated(View(), id);
          Seat(slot, id);
          assert View() == seated;
        }
      }
    }

    method SeatMembers()
      requires Valid() && |membership.slots| == |peers|
      modifies this`peers, this`votes, this`active, this`next, this`matched, this`outbox
      ensures Valid() && View() == SeatAll(old(View()), 0)
    {
      hide LogState.Contents, LogState.Valid, HooksFit, Proper, DistinctPeers;
      ghost var start := View();
      for k := 0 to |membership.slots|
        invariant Valid() && |peers| == |start.peers|
        invariant SeatAll(View(), k) == SeatAll(start, 0) && SeatedUpTo(View(), k)
      {
        SeatMember(k);
      }
    }

    /** A removed leader steps down once its removal is committed. */
    method StepDown()
      requires Valid()
      modifies this`role, this`prevoting, this`leaderAge, this`leader,
               this`random, this`electionDeadline, this`elapsed
      ensures Valid()
      ensures
        var n := old(View());
        View() == if n.role == Leader && !IsVoter(n.membership, n.config.id)
                     && MembershipAt(n, Last(n.state).index).0 <= n.state.hard.commit
                  then Followed(n, None) else n
    {
      hide LogState.Contents, LogState.Valid, HooksFit, Proper, DistinctPeers;
      if role == Leader && !IsVoter(membership, config.id) {
        var at := RecordAt(state.LastId().index);
        assert View().state.hard == state.hard by { HardOf(); }
        if at.0 <= state.hard.commit {
          Follow(None);
        }
      }
    }

    lemma HardOf()
      requires state.Valid()
      ensures state.Contents().hard == state.hard && state.Contents().snapshot == state.snapshot
      ensures |state.Contents().entries| == state.len <= state.slots.Length
    {
    }

    method RefreshMembership()
      requires Valid()
      modifies this`membership, this`peers, this`votes, this`active, this`next, this`matched, this`outbox,
               this`local, this`role, this`prevoting, this`leaderAge, this`leader,
               this`random, this`electionDeadline, this`elapsed
      ensures Valid() && View() == Refreshed(old(View()))
    {
      hide LogState.Contents, LogState.Valid, HooksFit, Proper, DistinctPeers, SeatAll, MembershipAt;
      ghost var was := View();
      var at := RecordAt(state.LastId().index);
      ViewFits();
      MembershipFits(was, Last(was.state).index);
      membership := at.1;
      ghost var start := View();
      SeatMembers();
      ghost var seated := View();
      local := PositionOf(peers, config.id);
      ghost var placed := View();
      SeatAllFrame(start, 0);
      SameRecords(was, placed);
      StepDown();
    }

    lemma ProposalAsSaid(values: seq<V>)
      requires Valid()
      ensures ProposeActs(View(), values, NodeModel.ProposeMany(View(), values).node,
          NodeModel.ProposeMany(View(), values).error)
    {
      hide LogState.Contents, LogState.Valid, HooksFit, Proper, DistinctPeers, ProposeActs, NodeModel.ProposeMany;
      ViewFits();
      ProposeDoes(View(), values);
    }

    lemma ViewFits()
      requires Valid()
      ensures Fits(View())
    {
    }

    /** Give a slot to a new peer. */
    method Seat(slot: nat, id: Id)
      requires slot < |peers| == |votes| == |active| == |next| == |matched| == |outbox|
      modifies this`peers, this`votes, this`active, this`next, this`matched, this`outbox
      ensures peers == old(peers)[slot := Some(id)] && votes == old(votes)[slot := false]
      ensures active == old(active)[slot := false] && next == old(next)[slot := 1]
      ensures matched == old(matched)[slot := 0] && outbox == old(outbox)[slot := None]
    {
      peers := peers[slot := Some(id)];
      votes := votes[slot := false];
      active := active[slot := false];
      next := next[slot := 1];
      matched := matched[slot := 0];
      outbox := outbox[slot := None];
    }

    // ---- Commitment and barriers.

    method CommitTo(index: U64)
      requires Valid()
      modifies this, state`hard
      ensures Valid() && View() == NodeModel.CommitTo(old(View()), index)
    {
      hide LogState.Contents, LogState.Valid, HooksFit, Proper, DistinctPeers, Refreshed;
      HardOf();
      if index > state.hard.commit {
        state.SetHard(state.hard.(commit := index));
        dirty := true;
        RefreshMembership();
      }
    }

    method AdvanceCommit() returns (advanced: bool)
      requires Valid()
      modifies this, state`hard
      ensures advanced == MayCommit(old(View()))
      ensures Valid() && View() == NodeModel.AdvanceCommit(old(View()))
      ensures CommitRule(old(View()), old(View()).state.hard.commit, View().state.hard.commit)
      ensures advanced <==> View().state.hard.commit > old(View()).state.hard.commit
    {
      hide CommitRule;
      RulesOf(View());
      hide LogState.Contents, LogState.Valid, HooksFit, Proper, DistinctPeers, NodeModel.CommitTo, QuorumIndex;
      HardOf();
      SomeVoter(membership);
      var index := QuorumPosition(membership, PositionAt(peers, matched));
      if index > state.hard.commit {
        var id := state.EntryId(index);
        if id.Some? && id.value.term == state.hard.term {
          CommitTo(index);
          return true;
        }
      }
      return false;
    }

    method MatchSelf(index: U64)
      requires Valid()
      modifies this`matched
      ensures Valid() && View() == MatchedSelf(old(View()), index)
    {
      hide LogState.Contents, LogState.Valid, HooksFit, Proper, DistinctPeers;
      if local < |peers| {
        matched := matched[local := index];
      }
    }

    method Barrier()
      requires Valid()
      modifies this, state, state.slots
      ensures Valid() && View() == NodeModel.Barrier(old(View()))
    {
      hide CommitRule, MayCommit, LogState.Contents, LogState.Valid, HooksFit, Proper, DistinctPeers,
           NodeModel.AdvanceCommit,
           MatchedSelf, Pushed;
      HardOf();
      var last := state.LastId();
      if last.term == state.hard.term || state.IsFull() || last.index == MAX_U64 {
        return;
      }
      var id := LogId(last.index + 1, state.hard.term);
      var error := state.Push(Entry(id, None));
      if error.None? {
        StartFrom(id.index);
        MatchSelf(id.index);
        var advanced := AdvanceCommit();
      }
    }

    // ---- Elections.

    method Enthrone()
      requires Valid()
      modifies this`quorumElapsed, this`active, this`role, this`leader, this`elapsed, this`next, this`matched
      ensures Valid() && View() == Enthroned(old(View()))
    {
      hide LogState.Contents, LogState.Valid, HooksFit, Proper, DistinctPeers, MatchedSelf;
      var last := state.LastId().index;
      TakeLead(last);
      MatchSelf(last);
    }

    method TakeLead(last: U64)
      modifies this`quorumElapsed, this`active, this`role, this`leader, this`elapsed, this`next, this`matched
      ensures quorumElapsed == 0 && elapsed == 0 && role == Leader && leader == Some(config.id)
      ensures active == Filled<bool>(|peers|, false)
      ensures next == Filled<U64>(|peers|, SaturatingInc(last)) && matched == Filled<U64>(|peers|, 0)
    {
      quorumElapsed := 0;
      active := Filled<bool>(|peers|, false);
      role := Leader;
      leader := Some(config.id);
      elapsed := 0;
      next := Filled<U64>(|peers|, SaturatingInc(last));
      matched := Filled<U64>(|peers|, 0);
    }

    method BecomeLeader()
      requires Valid()
      modifies this, state, state.slots
      ensures Valid() && View() == NodeModel.BecomeLeader(old(View()))
    {
      hide LogState.Contents, LogState.Valid, HooksFit, Proper, DistinctPeers, NodeModel.Barrier, NodeModel.Broadcast,
           Enthroned;
      EnthronedFrame(View());
      Enthrone();
      Barrier();
      Broadcast();
    }

    method VoteForSelf()
      requires Valid()
      modifies this`votes
      ensures Valid() && View() == SelfVote(old(View()))
    {
      hide LogState.Contents, LogState.Valid, HooksFit, Proper, DistinctPeers;
      votes := Filled<bool>(|peers|, false);
      if local < |peers| {
        votes := votes[local := true];
      }
    }

    method SendToVoters(out: Outbound)
      requires Valid()
      modifies this`outbox, this`extraReply
      ensures Valid() && View() == SentToAll(old(View()), VotersOf(old(View()).membership), out)
    {
      hide LogState.Contents, LogState.Valid, HooksFit, Proper, DistinctPeers;
      ghost var was := View();
      ghost var goal := SentToAll(was, VotersOf(was.membership), out);
      for peer := 0 to |peers|
        invariant Valid() && View() == was.(outbox := outbox)
        invariant forall p | 0 <= p < |peers| :: outbox[p] == if p < peer then goal.outbox[p] else was.outbox[p]
      {
        if peer != local && peers[peer].Some? && IsVoter(membership, peers[peer].value) {
          Send(peer, out);
        }
      }
      assert outbox == goal.outbox;
    }

    method Stand(term: U64)
      requires Valid()
      modifies this, state`hard
      ensures Valid() && View() == Standing(old(View()), term)
    {
      hide LogState.Contents, LogState.Valid, HooksFit, Proper, DistinctPeers, SelfVote, NodeModel.ResetElection;
      HardOf();
      prevoting := None;
      state.SetHard(state.hard.(term := term, votedFor := Some(config.id)));
      dirty := true;
      role := Candidate;
      leader := None;
      VoteForSelf();
      ResetElection();
    }

    method Campaign(term: U64)
      requires Valid()
      modifies this, state, state.slots
      ensures Valid() && View() == NodeModel.Campaign(old(View()), term)
    {
      hide LogState.Contents, LogState.Valid, HooksFit, Proper, DistinctPeers, Standing, SentToAll,
           NodeModel.BecomeLeader, Quorum;
      CampaignStands(View(), term);
      Stand(term);
      if Quorum(membership, FlagAt(peers, votes)) {
        BecomeLeader();
      } else {
        SendToVoters(SendVote);
      }
    }

    method StartProbe(term: U64)
      requires Valid()
      modifies this`role, this`prevoting, this`votes, this`random, this`electionDeadline, this`elapsed
      ensures Valid()
      ensures View() == NodeModel.ResetElection(SelfVote(old(View()).(role := Follower, prevoting := Some(term))))
    {
      hide LogState.Contents, LogState.Valid, HooksFit, Proper, DistinctPeers, SelfVote, NodeModel.ResetElection;
      SoundOut(term);
      VoteForSelf();
      ResetElection();
    }

    method SoundOut(term: U64)
      modifies this`role, this`prevoting
      ensures role == Follower && prevoting == Some(term)
    {
      role := Follower;
      prevoting := Some(term);
    }

    method Probe(term: U64)
      requires Valid()
      modifies this, state, state.slots
      ensures Valid() && View() == NodeModel.Probe(old(View()), term)
    {
      hide LogState.Contents, LogState.Valid, HooksFit, Proper, DistinctPeers, SelfVote, NodeModel.ResetElection,
           SentToAll, NodeModel.Campaign, Quorum;
      StartProbe(term);
      if Quorum(membership, FlagAt(peers, votes)) {
        Campaign(term);
      } else {
        SendToVoters(SendPreVote(term));
      }
    }

    // ---- Replication, follower side.

    method Append(previous: LogId, entry: Option<Entry<V>>, commit: U64)
      returns (index: U64, rejection: Option<Rejection>)
      requires Valid()
      modifies this, state, state.slots
      ensures Valid()
      ensures Reply(View(), index, rejection) == Appended(old(View()), previous, entry, commit)
    {
      hide LogState.Contents, LogState.Valid, HooksFit, Proper, DistinctPeers, NodeModel.CommitTo, Refreshed, Truncated;
      HardOf();
      if state.EntryId(previous.index) != Some(previous) {
        var retry :=
          if previous.index < state.BaseId().index then SaturatingInc(state.BaseId().index)
          else Max(Min(previous.index, SaturatingInc(state.LastId().index)), 1);
        return previous.index, Some(Conflict(retry));
      }
      if entry.None? {
        CommitTo(Min(commit, previous.index));
        return previous.index, None;
      }
      var e := entry.value;
      if state.EntryId(e.id.index) != Some(e.id) {
        if e.id.index <= state.hard.commit {
          return previous.index, Some(Conflict(e.id.index));
        }
        if state.IsFull() && e.id.index > state.LastId().index {
          CommitTo(Min(commit, previous.index));
          return previous.index, Some(NoRoom);
        }
        var error := Replace(e);
        if error.Some? {
          return previous.index, Some(NoRoom);
        }
      }
      CommitTo(Min(commit, e.id.index));
      return e.id.index, None;
    }

    /** Put an entry in the place of everything from its index on. */
    method Replace(e: Entry<V>) returns (error: Option<Error>)
      requires Valid()
      modifies this, state, state.slots
      ensures Valid()
      ensures error.Some? <==> |Truncated(old(View()).state, e.id.index).entries| >= state.slots.Length
      ensures error.Some? ==> View() == old(View()).(state := Truncated(old(View()).state, e.id.index))
      ensures error.None? ==> View() == Replaced(old(View()), e)
    {
      hide LogState.Contents, LogState.Valid, HooksFit, Proper, DistinctPeers, Refreshed, Truncated;
      state.Truncate(e.id.index);
      error := state.Push(e);
      if error.None? {
        RefreshMembership();
        ghost var p := View();
        MarkFrom(e.id.index);
        assert View() == p.(dirty := true, logFrom := logFrom);
      }
    }

    /** The pending transaction starts no later than `from`. */
    method MarkFrom(from: U64)
      modifies this`dirty, this`logFrom
      ensures dirty
      ensures logFrom == Some(if old(logFrom).None? then from else Min(old(logFrom).value, from))
    {
      dirty := true;
      logFrom := Some(if logFrom.None? then from else Min(logFrom.value, from));
    }

    method AppendMany(first: LogId, entries: seq<Option<Entry<V>>>, commit: U64)
      returns (index: U64, rejection: Option<Rejection>)
      requires Valid()
      modifies this, state, state.slots
      ensures Valid()
      ensures Reply(View(), index, rejection) ==
              BatchFrom(old(View()), first, entries, commit, false, (first.index, None))
    {
      hide LogState.Contents, LogState.Valid, HooksFit, Proper, DistinctPeers, Appended;
      var previous := first;
      var accepted := false;
      index, rejection := first.index, None;
      var i := 0;
      while i < |entries|
        invariant i <= |entries| && Valid()
        invariant BatchFrom(View(), previous, entries[i..], commit, accepted, (index, rejection)) ==
                  BatchFrom(old(View()), first, entries, commit, false, (first.index, None))
      {
        ghost var rest := entries[i..];
        assert rest[0] == entries[i] && rest[1..] == entries[i + 1..];
        if entries[i].Some? {
          var at, refused := Append(previous, entries[i], commit);
          if refused.Some? {
            if !accepted {
              index, rejection := at, refused;
            }
            return;
          }
          previous := entries[i].value.id;
          accepted := true;
          index, rejection := at, None;
        }
        i := i + 1;
      }
    }

    method InstallSnapshot(snapshot: Snapshot<S>) returns (index: U64, rejection: Option<Rejection>)
      requires Valid()
      modifies this, state, state.slots
      ensures Valid()
      ensures Reply(View(), index, rejection) == InstalledBy(old(View()), snapshot)
    {
      hide LogState.Contents, LogState.Valid, HooksFit, Proper, DistinctPeers, Refreshed, Installed;
      HardOf();
      var at := state.EntryId(snapshot.last.index);
      if snapshot.last.index <= state.hard.commit && at.Some? && at.value != snapshot.last {
        return snapshot.last.index, Some(Conflict(SaturatingInc(state.BaseId().index)));
      }
      if snapshot.last.index > state.BaseId().index
         && (snapshot.last.index > state.hard.commit || at == Some(snapshot.last))
      {
        if at != Some(snapshot.last) {
          logFrom := CheckedInc(snapshot.last.index);
        }
        state.Install(snapshot);
        RefreshMembership();
        MarkSnapshot();
      }
      return snapshot.last.index, None;
    }

    method MarkSnapshot()
      modifies this`dirty, this`snapshotChanged
      ensures dirty && snapshotChanged
    {
      snapshotChanged := true;
      dirty := true;
    }

    // ---- Replication, leader side.

    method Replicated(peer: nat, index: U64, rejection: Option<Rejection>)
      requires Valid() && peer < |peers|
      modifies this, state`hard
      ensures Valid() && View() == ReplicatedBy(old(View()), peer, index, rejection)
    {
      hide LogState.Contents, LogState.Valid, HooksFit, Proper, DistinctPeers, NodeModel.AdvanceCommit,
           NodeModel.Broadcast, MayCommit, Sent;
      active := active[peer := true];
      if index > state.LastId().index {
        return;
      }
      if rejection.None? {
        if index > matched[peer] {
          Acknowledge(peer, index);
        }
      } else if rejection.value.Conflict? {
        if index >= matched[peer] && index + 1 == next[peer] {
          next := next[peer := Clamp(rejection.value.next, SaturatingInc(matched[peer]),
                                     SaturatingInc(state.LastId().index))];
          Send(peer, SendReplicate);
        }
      }
    }

    method Acknowledge(peer: nat, index: U64)
      requires Valid() && peer < |peers|
      modifies this, state`hard
      ensures Valid()
      ensures
        var n := old(View());
        var m := n.(matched := n.matched[peer := index], next := n.next[peer := Max(n.next[peer],
            SaturatingInc(index))]);
        View() == if MayCommit(m) then NodeModel.Broadcast(NodeModel.AdvanceCommit(m))
                  else if index < Last(n.state).index then Sent(m, peer, SendReplicate)
                  else m
    {
      hide CommitRule, LogState.Contents, LogState.Valid, HooksFit, Proper, DistinctPeers, NodeModel.AdvanceCommit,
           NodeModel.Broadcast, MayCommit, Sent;
      matched := matched[peer := index];
      next := next[peer := Max(next[peer], SaturatingInc(index))];
      ghost var m := View();
      var advanced := AdvanceCommit();
      StaysIf(m);
      if advanced {
        Broadcast();
      } else if index < state.LastId().index {
        Send(peer, SendReplicate);
      }
    }

    // ---- step.

    predicate IsAvailable()
      reads this
    {
      !dirty && extraReply.None? && forall p | 0 <= p < |outbox| :: outbox[p].None?
    }

    method Observe(term: U64)
      requires Valid()
      modifies this, state`hard
      ensures Valid() && View() == Observed(old(View()), term)
    {
      hide LogState.Contents, LogState.Valid, HooksFit, Proper, DistinctPeers, Followed;
      HardOf();
      if term > state.hard.term {
        state.SetHard(state.hard.(term := term, votedFor := None));
        dirty := true;
        Follow(None);
      }
    }

    method AnswerVote(peer: nat, from: Id, last: LogId)
      requires Valid()
      modifies this, state`hard
      ensures Valid() && View() == VoteAnswer(old(View()), peer, from, last)
    {
      hide LogState.Contents, LogState.Valid, HooksFit, Proper, DistinctPeers, Sent, NodeModel.ResetElection;
      HardOf();
      var ours := state.LastId();
      var granted :=
        && (state.hard.votedFor.None? || state.hard.votedFor == Some(from))
        && AtLeastAsUpToDate(last, ours);
      if granted {
        if state.hard.votedFor != Some(from) {
          state.SetHard(state.hard.(votedFor := Some(from)));
          dirty := true;
        }
        ResetElection();
      }
      Send(peer, SendVoted(granted));
    }

    method CountVote(peer: nat, granted: bool)
      requires Valid()
      modifies this, state, state.slots
      ensures Valid() && View() == VoteCounted(old(View()), peer, granted)
    {
      hide LogState.Contents, LogState.Valid, HooksFit, Proper, DistinctPeers, NodeModel.BecomeLeader, Quorum;
      if role == Candidate && granted && peer < |peers| {
        votes := votes[peer := true];
        if Quorum(membership, FlagAt(peers, votes)) {
          BecomeLeader();
        }
      }
    }

    method CountProbe(peer: nat, campaign: U64, granted: bool)
      requires Valid()
      modifies this, state, state.slots
      ensures Valid() && View() == Polled(old(View()), peer, campaign, granted)
    {
      hide LogState.Contents, LogState.Valid, HooksFit, Proper, DistinctPeers, NodeModel.Campaign, Quorum;
      if prevoting == Some(campaign) && granted && peer < |peers| {
        votes := votes[peer := true];
        if Quorum(membership, FlagAt(peers, votes)) {
          Campaign(campaign);
        }
      }
    }

    method AnswerProbe(peer: nat, term: U64, last: LogId)
      requires Valid()
      modifies this`outbox, this`extraReply
      ensures Valid() && View() == PreVoteAnswer(old(View()), peer, term, last)
    {
      hide LogState.Contents, LogState.Valid, HooksFit, Proper, DistinctPeers, Sent;
      HardOf();
      var ours := state.LastId();
      var granted :=
        && term > state.hard.term && role != Leader
        && leaderAge >= config.electionTicks
        && AtLeastAsUpToDate(last, ours);
      Send(peer, SendPreVoted(term, granted));
    }

    method AnswerStale(peer: nat, m: Message<V, S>)
      requires Valid()
      modifies this`outbox, this`extraReply
      ensures Valid() && View() == StaleAnswer(old(View()), peer, m)
    {
      hide LogState.Contents, LogState.Valid, HooksFit, Proper, DistinctPeers, Sent;
      match m {
        case Vote(_, _) => Send(peer, SendVoted(false));
        case Append(_, previous, _, _) => Send(peer, SendReplicated(previous.index, Some(Conflict(1))));
        case AppendBatch(_, previous, _, _) => Send(peer, SendReplicated(previous.index, Some(Conflict(1))));
        case Install(_, snapshot) => Send(peer, SendReplicated(snapshot.last.index, Some(Conflict(1))));
        case _ =>
      }
    }

    method HearEntry(peer: nat, from: Id, previous: LogId, entry: Option<Entry<V>>, commit: U64)
      requires Valid()
      modifies this, state, state.slots
      ensures Valid()
      ensures View() == Answered(Appended(Followed(old(View()), Some(from)), previous, entry, commit), peer)
    {
      hide LogState.Contents, LogState.Valid, HooksFit, Proper, DistinctPeers, Followed, Appended, BatchFrom,
           InstalledBy,
           Sent;
      Follow(Some(from));
      var index, rejection := Append(previous, entry, commit);
      Send(peer, SendReplicated(index, rejection));
    }

    method HearBatch(peer: nat, from: Id, previous: LogId, entries: seq<Option<Entry<V>>>, commit: U64)
      requires Valid()
      modifies this, state, state.slots
      ensures Valid()
      ensures
        var n := Followed(old(View()), Some(from));
        View() == Answered(BatchFrom(n, previous, entries, commit, false, (previous.index, None)), peer)
    {
      hide LogState.Contents, LogState.Valid, HooksFit, Proper, DistinctPeers, Followed, Appended, BatchFrom,
           InstalledBy,
           Sent;
      Follow(Some(from));
      var index, rejection := AppendMany(previous, entries, commit);
      Send(peer, SendReplicated(index, rejection));
    }

    method HearSnapshot(peer: nat, from: Id, snapshot: Snapshot<S>)
      requires Valid()
      modifies this, state, state.slots
      ensures Valid()
      ensures View() == Answered(InstalledBy(Followed(old(View()), Some(from)), snapshot), peer)
    {
      hide LogState.Contents, LogState.Valid, HooksFit, Proper, DistinctPeers, Followed, Appended, BatchFrom,
           InstalledBy,
           Sent;
      Follow(Some(from));
      var index, rejection := InstallSnapshot(snapshot);
      Send(peer, SendReplicated(index, rejection));
    }

    method StepCurrent(peer: nat, from: Id, m: Message<V, S>)
      requires Valid()
      modifies this, state, state.slots
      ensures Valid() && View() == Current(old(View()), peer, from, m)
    {
      hide LogState.Contents, LogState.Valid, HooksFit, Proper, DistinctPeers, Answered, VoteAnswer, VoteCounted,
           Followed,
           Appended, BatchFrom, InstalledBy, ReplicatedBy;
      match m {
        case Vote(_, last) => AnswerVote(peer, from, last);
        case Voted(_, granted) => CountVote(peer, granted);
        case Append(_, previous, entry, commit) => HearEntry(peer, from, previous, entry, commit);
        case AppendBatch(_, previous, entries, commit) => HearBatch(peer, from, previous, entries, commit);
        case Install(_, snapshot) => HearSnapshot(peer, from, snapshot);
        case Replicated(_, index, rejection) =>
          if role == Leader && peer < |peers| {
            Replicated(peer, index, rejection);
          }
        case _ =>
      }
    }

    method Receive(peer: nat, from: Id, m: Message<V, S>)
      requires Valid()
      modifies this, state, state.slots
      ensures Valid() && View() == Received(old(View()), peer, from, m)
    {
      hide LogState.Contents, LogState.Valid, HooksFit, Proper, DistinctPeers, PreVoteAnswer, Observed, Polled,
           StaleAnswer, Current;
      if m.PreVote? {
        AnswerProbe(peer, m.term, m.last);
        return;
      }
      if hooks.Some? && m.Vote? && (role == Leader || leaderAge < config.electionTicks) {
        return;
      }
      Observe(m.term);
      HardOf();
      if m.PreVoted? {
        CountProbe(peer, m.campaign, m.granted);
      } else if m.term < state.hard.term {
        AnswerStale(peer, m);
      } else {
        StepCurrent(peer, from, m);
      }
    }

    /** Process one authenticated message. */
    method Step(e: Envelope<V, S>) returns (error: Option<Error>)
      requires Valid()
      modifies this, state, state.slots
      ensures Valid() && Outcome(View(), error) == NodeModel.Step(old(View()), e)
      ensures old(Orderly(View())) ==> Advances(old(View()).state, View().state)
      ensures old(WellKept(View())) ==> StepActs(old(View()), e, View(), error)
    {
      hide Orderly, Advances, WellKept, StepActs;
      Onward(View(), OpStep(e));
      StepAsSaid(View(), e);
      hide LogState.Contents, LogState.Valid, HooksFit, Proper, DistinctPeers, Received, ValidMessage;
      if !IsAvailable() {
        return Some(Busy);
      }
      var peer := PositionOf(peers, e.from);
      if peer == |peers| && !(hooks.Some? && AnswersStrangers(e.message)) {
        return Some(Error.Message);
      }
      if e.from == config.id || e.to != config.id || !ValidMessage(e.message) {
        return Some(Error.Message);
      }
      requestFrom := Some(e.from);
      Receive(peer, e.from, e.message);
      return None;
    }

    // ---- tick.

    method RunTimers() returns (error: Option<Error>)
      requires Valid()
      modifies this, state, state.slots
      ensures Valid() && Outcome(View(), error) == TickTimers(old(View()))
    {
      hide LogState.Contents, LogState.Valid, HooksFit, Proper, DistinctPeers, NodeModel.Barrier, NodeModel.Broadcast,
           NodeModel.Probe, NodeModel.Campaign;
      HardOf();
      if role == Leader {
        if elapsed >= config.heartbeatTicks {
          elapsed := 0;
          Barrier();
          Broadcast();
        }
      } else if IsVoter(membership, config.id) && elapsed >= electionDeadline {
        if state.hard.term == MAX_U64 {
          return Some(Exhausted);
        }
        if hooks.Some? {
          Probe(state.hard.term + 1);
        } else {
          Campaign(state.hard.term + 1);
        }
      }
      return None;
    }

    method Age()
      requires Valid()
      modifies this`elapsed, this`leaderAge
      ensures Valid() && View() == Ticked(old(View()))
    {
      hide LogState.Contents, LogState.Valid, HooksFit, Proper, DistinctPeers;
      elapsed := SaturatingInc(elapsed);
      leaderAge := SaturatingInc(leaderAge);
    }

    /** Advance one unit of local time. */
    method Tick() returns (error: Option<Error>)
      requires Valid()
      modifies this, state, state.slots
      ensures Valid() && Outcome(View(), error) == NodeModel.Tick(old(View()))
      ensures old(Orderly(View())) ==> Advances(old(View()).state, View().state)
      ensures old(WellKept(View())) ==> TickActs(old(View()), View(), error)
    {
      hide Orderly, Advances, WellKept, TickActs;
      Onward(View(), OpTick);
      TickAsSaid(View());
      hide LogState.Contents, LogState.Valid, HooksFit, Proper, DistinctPeers, TickTimers, Followed, Quorum,
           ActiveQuorum, Filled;
      if !IsAvailable() {
        return Some(Busy);
      }
      Age();
      if hooks.Some? && role == Leader {
        var lost := CheckQuorum();
        if lost {
          return None;
        }
      }
      error := RunTimers();
    }

    /** A leader that hears from no quorum for an election timeout stops leading. */
    method CheckQuorum() returns (lost: bool)
      requires Valid()
      modifies this
      ensures Valid()
      ensures
        var t := old(View());
        var q := t.(quorumElapsed := SaturatingInc(t.quorumElapsed));
        var reset := q.(quorumElapsed := 0, active := Filled<bool>(|q.peers|, false));
        && lost == (q.quorumElapsed >= q.config.electionTicks && !ActiveQuorum(q))
        && View() == if q.quorumElapsed < q.config.electionTicks then q
                     else if lost then Followed(reset, None) else reset
    {
      hide LogState.Contents, LogState.Valid, HooksFit, Proper, DistinctPeers, Followed, Quorum, Filled;
      lost := false;
      quorumElapsed := SaturatingInc(quorumElapsed);
      if quorumElapsed >= config.electionTicks {
        var quorum := Quorum(membership, SelfOr(config.id, FlagAt(peers, active)));
        quorumElapsed := 0;
        active := Filled<bool>(|peers|, false);
        if !quorum {
          Follow(None);
          lost := true;
        }
      }
    }

    // ---- Proposals and compaction.

    /** Push one value after another; the room was checked before. */
    method PushAll(values: seq<V>, first: LogId)
      requires Valid() && first.index == state.LastId().index + 1 && first.index + |values| <= MAX_U64 + 1
      requires state.len + |values| <= state.slots.Length
      modifies state`len, state.slots
      ensures Valid()
      ensures View() == old(View()).(
                state := old(View()).state.(entries := old(View()).state.entries + Batch(values, first)))
    {
      hide LogState.Contents, LogState.Valid, HooksFit, Proper, DistinctPeers;
      ghost var was := state.Contents();
      ghost var es := Batch(values, first);
      HardOf();
      assert was.entries + es[..0] == was.entries;
      for offset := 0 to |values|
        invariant Valid() && state.Contents() == was.(entries := was.entries + es[..offset])
        invariant state.len == |was.entries| + offset
      {
        HardOf();
        var e := Entry(LogId(first.index + offset, first.term), Some(values[offset]));
        assert was.entries + es[..offset + 1] == was.entries + es[..offset] + [e];
        var error := state.Push(e);
        assert error.None?;
        HardOf();
      }
      assert es[..|values|] == es;
    }

    /**
     * A batch whose values stop coming part-way, because cloning one of them panics: the
     * rollback guard is dropped unfinished, and the node is what it was.
     */
    method PushInterrupted(values: seq<V>, reached: nat)
      requires Valid() && reached < |values| && state.len + |values| <= state.slots.Length
      requires state.LastId().index + |values| <= MAX_U64
      modifies state`len, state.slots
      ensures Valid() && View() == old(View())
    {
      hide LogState.Contents, LogState.Valid, HooksFit, Proper, DistinctPeers;
      HardOf();
      ghost var was := state.Contents();
      var first := LogId(state.LastId().index + 1, state.hard.term);
      PushAll(values[..reached], first);
      BatchUndone(was, Batch(values[..reached], first), first.index);
      state.Truncate(first.index);
      assert state.Contents() == was;
    }

    /** Why a batch of this size would not be admitted; nothing changes. */
    method Refusal(count: nat) returns (error: Option<Error>)
      requires Valid()
      ensures error == ProposalError(View(), count)
    {
      hide LogState.Contents, LogState.Valid, HooksFit, Proper, DistinctPeers;
      HardOf();
      if !IsAvailable() {
        return Some(Busy);
      }
      if role != Leader {
        return Some(NotLeader(leader));
      }
      if count == 0 {
        return Some(Error.Config);
      }
      if count > state.slots.Length - state.len {
        return Some(Full);
      }
      if state.LastId().index + count > MAX_U64 {
        return Some(Exhausted);
      }
      return None;
    }

    /** Push the batch, then commit what that allows and tell everybody. */
    method Admit(values: seq<V>, first: LogId)
      requires Valid() && first.index == state.LastId().index + 1 && 0 < |values|
      requires first.index + |values| <= MAX_U64 + 1 && state.len + |values| <= state.slots.Length
      modifies this, state, state.slots
      ensures Valid()
      ensures
        var n := old(View());
        var p := Refreshed(n.(state := n.state.(entries := n.state.entries + Batch(values, first)),
                              dirty := true, logFrom := Some(first.index)));
        View() == NodeModel.Broadcast(NodeModel.AdvanceCommit(MatchedSelf(p, first.index + |values| - 1)))
    {
      hide CommitRule, LogState.Contents, LogState.Valid, HooksFit, Proper, DistinctPeers,
           Refreshed, NodeModel.AdvanceCommit, NodeModel.Broadcast, MatchedSelf, Batch;
      PushAll(values, first);
      StartFrom(first.index);
      RefreshMembership();
      MatchSelf(first.index + |values| - 1);
      var advanced := AdvanceCommit();
      Broadcast();
    }

    /** Admit a nonempty batch as one durable transaction. */
    method ProposeMany(values: seq<V>) returns (range: Result<(LogId, LogId), Error>)
      requires Valid()
      modifies this, state, state.slots
      ensures Valid()
      ensures Outcome(View(), if range.Ok? then None else Some(range.error)) == NodeModel.ProposeMany(old(View()),
          values)
      ensures
        var n := old(View());
        range.Ok? ==> range.value == (LogId(Last(n.state).index + 1, n.state.hard.term),
                                      LogId(Last(n.state).index + |values|, n.state.hard.term))
      ensures ProposeActs(old(View()), values, View(), if range.Ok? then None else Some(range.error))
    {
      hide ProposeActs, LogState.Contents, LogState.Valid, HooksFit, Proper, DistinctPeers,
           Refreshed, NodeModel.AdvanceCommit, NodeModel.Broadcast, MatchedSelf, Batch, Available;
      ProposalAsSaid(values);
      HardOf();
      var error := Refusal(|values|);
      if error.Some? {
        return Err(error.value);
      }
      var first := LogId(state.LastId().index + 1, state.hard.term);
      var last := LogId(state.LastId().index + |values|, state.hard.term);
      Admit(values, first);
      return Ok((first, last));
    }

    /** Propose a batch of commands. */
    method ProposeBatch(values: seq<V>) returns (range: Result<(LogId, LogId), Error>)
      requires Valid()
      modifies this, state, state.slots
      ensures Valid()
      ensures Outcome(View(), if range.Ok? then None else Some(range.error)) == NodeModel.ProposeMany(old(View()),
          values)
      ensures old(Orderly(View())) ==> Advances(old(View()).state, View().state)
    {
      hide LogState.Contents, LogState.Valid, HooksFit, Proper, DistinctPeers, Orderly, Advances, NodeModel.ProposeMany;
      Onward(View(), OpPropose(values));
      range := ProposeMany(values);
    }

    method StartFrom(from: U64)
      modifies this`dirty, this`logFrom
      ensures dirty && logFrom == Some(from)
    {
      dirty := true;
      logFrom := Some(from);
    }

    /** Replace a committed prefix by the application state at its end. */
    method Compact(index: U64, value: S) returns (error: Option<Error>)
      requires Valid()
      modifies this, state, state.slots
      ensures Valid() && Outcome(View(), error) == NodeModel.Compact(old(View()), index, value)
      ensures old(Orderly(View())) ==> Advances(old(View()).state, View().state)
      ensures old(WellKept(View())) && old(Attaches(View(), OpCompact(index, value))) ==>
                CompactActs(old(View()), index, value, View(), error)
    {
      hide Orderly, Advances, WellKept, CompactActs, Attaches;
      Onward(View(), OpCompact(index, value));
      CompactAsSaid(View(), index, value);
      hide LogState.Contents, LogState.Valid, HooksFit, Proper, DistinctPeers, NodeModel.Barrier, NodeModel.Broadcast,
           Installed,
           Available;
      HardOf();
      if !IsAvailable() {
        return Some(Busy);
      }
      if index <= state.BaseId().index || index > state.hard.commit {
        return Some(NotCommitted);
      }
      var last := state.EntryId(index);
      if last.None? {
        return Some(NotCommitted);
      }
      Fold(Snapshot(last.value, value));
      return None;
    }

    /** Put the snapshot in the place of its prefix; a leader goes on. */
    method Fold(snapshot: Snapshot<S>)
      requires Valid()
      modifies this, state, state.slots
      ensures Valid()
      ensures
        var n := old(View());
        var c := n.(state := Installed(n.state, snapshot), dirty := true, snapshotChanged := true);
        View() == if n.role == Leader then NodeModel.Broadcast(NodeModel.Barrier(c)) else c
    {
      hide LogState.Contents, LogState.Valid, HooksFit, Proper, DistinctPeers, NodeModel.Barrier, NodeModel.Broadcast,
           Installed;
      state.Install(snapshot);
      dirty := true;
      snapshotChanged := true;
      if role == Leader {
        Barrier();
        Broadcast();
      }
    }

    // ---- Output.

    method BatchOf(first: U64) returns (entries: seq<Option<Entry<V>>>)
      requires Valid()
      ensures entries == BatchAt(View(), first)
    {
      hide LogState.Contents, LogState.Valid, HooksFit, Proper, DistinctPeers, Get;
      entries := [];
      for offset := 0 to MAX_APPEND_ENTRIES
        invariant |entries| == offset
        invariant forall k | 0 <= k < offset ::
          entries[k] == if first + k > MAX_U64 then None else Get(View().state, first + k)
      {
        entries := entries + [if first + offset > MAX_U64 then None else state.GetEntry(first + offset)];
      }
    }

    /** The message an outbox entry stands for, read from the state as it is now. */
    method Render(peer: nat, out: Outbound) returns (m: Option<Message<V, S>>)
      requires Valid()
      ensures m == Rendered(View(), peer, out)
    {
      hide LogState.Contents, LogState.Valid, HooksFit, Proper, DistinctPeers, Get, IdAt, BatchAt;
      HardOf();
      var term := state.hard.term;
      match out {
        case SendPreVote(campaign) => return Some(PreVote(campaign, state.LastId()));
        case SendPreVoted(campaign, granted) => return Some(PreVoted(term, campaign, granted));
        case SendVote => return Some(Vote(term, state.LastId()));
        case SendVoted(granted) => return Some(Voted(term, granted));
        case SendReplicated(index, rejection) => return Some(Message.Replicated(term, index, rejection));
        case SendReplicate =>
      }
      if peer >= |peers| {
        return None;
      }
      if next[peer] <= state.BaseId().index {
        if state.snapshot.None? {
          return None;
        }
        return Some(Install(term, state.snapshot.value));
      }
      if next[peer] == 0 {
        return None;
      }
      var previous := state.EntryId(next[peer] - 1);
      if previous.None? {
        return None;
      }
      if hooks.Some? && next[peer] < MAX_U64 && state.GetEntry(next[peer] + 1).Some? {
        var entries := BatchOf(next[peer]);
        return Some(AppendBatch(term, previous.value, entries, state.hard.commit));
      }
      return Some(Message.Append(term, previous.value, state.GetEntry(next[peer]), state.hard.commit));
    }

    /** Take one outgoing message; none while anything waits to be saved. */
    method TakeMessage() returns (e: Option<Envelope<V, S>>)
      requires Valid()
      modifies this`outbox, this`extraReply
      ensures Valid() && (View(), e) == NextMessage(old(View()))
      ensures e.Some? && old(InQueueOrder(View())) ==> e.value.from == config.id && ValidMessage(e.value.message)
      ensures e.None? && old(InQueueOrder(View())) ==> old(dirty) || old(Available(View()))
      ensures !old(dirty) && old(InQueueOrder(View())) ==> Leaves(old(View()), View(), e)
    {
      hide InQueueOrder, ValidMessage, Available, Leaves;
      HandsOut(View());
      hide LogState.Contents, LogState.Valid, HooksFit, Proper, DistinctPeers, Rendered;
      if dirty {
        return None;
      }
      var peer := FirstOccupied(outbox);
      var to: Id;
      var out: Outbound;
      if peer < |peers| {
        if peers[peer].None? {
          return None;
        }
        to, out := peers[peer].value, outbox[peer].value;
        outbox := outbox[peer := None];
      } else {
        if extraReply.None? {
          return None;
        }
        to, out := extraReply.value.0, extraReply.value.1;
        extraReply := None;
      }
      var m := Render(peer, out);
      return if m.None? then None else Some(Envelope(config.id, to, m.value));
    }

    // ---- Saving (jarl/src/ready.rs).

    /** The transaction waiting to be saved, if any. */
    method Ready() returns (w: Option<Write<V, S>>)
      requires Valid()
      ensures w == if dirty then Some(WriteOf(View().state, logFrom, snapshotChanged)) else None
    {
      if !dirty {
        return None;
      }
      var write := state.WriteFrom(logFrom, snapshotChanged);
      return Some(write);
    }

    /** Acknowledge that the transaction is durable. */
    method Persist()
      requires Valid()
      modifies this`dirty, this`logFrom, this`snapshotChanged
      ensures Valid() && View() == Persisted(old(View()))
    {
      hide LogState.Contents, LogState.Valid, HooksFit, Proper, DistinctPeers;
      dirty := false;
      logFrom := None;
      snapshotChanged := false;
    }
  }

  /** A node as it stands between operations, with everything saved. */
  ghost predicate Orderly<V, S>(n: Node<V, S>) {
    Steady(n) && WellFormed(n.state) && Clean(n) && Placed(n)
  }

  /** Term, base and commit never decrease, a vote stays in its term, and committed entries stay. */
  lemma Onward<V, S>(n: Node<V, S>, op: Operation<V, S>)
    requires Sized(n) && Timed(n)
    ensures Orderly(n) ==> Advances(n.state, Operate(n, op).node.state)
  {
    hide WellFormed, Advances, Delta, Operate;
    if Orderly(n) {
      OperateGoes(n, op);
    }
  }

  /** A node whose queue is as its operations leave it. */
  ghost predicate InQueueOrder<V(!new), S(!new)>(n: Node<V, S>) {
    WellFormed(n.state) && exists grants: Grants :: Sound(n, grants)
  }

  lemma HandsOut<V(!new), S(!new)>(n: Node<V, S>)
    requires Sized(n)
    ensures InQueueOrder(n) && !n.dirty ==> Leaves(n, NextMessage(n).0, NextMessage(n).1)
    ensures InQueueOrder(n) && !n.dirty && !Available(n) ==> NextMessage(n).1.Some?
    ensures InQueueOrder(n) && NextMessage(n).1.Some? ==>
              NextMessage(n).1.value.from == n.config.id && ValidMessage(NextMessage(n).1.value.message)
  {
    hide WellFormed, Sound, NextMessage, ValidMessage, Available, Leaves;
    if InQueueOrder(n) {
      var grants: Grants :| Sound(n, grants);
      NextMessageValid(n, grants);
      if !n.dirty {
        HeadLeaves(n, grants);
      }
    }
  }

  // ---- Operations, said without the functions that compute them.

  lemma RulesOf<V(!new), S(!new)>(n: Node<V, S>)
    requires Sized(n) && Timed(n) && DistinctPeers(n.peers)
    ensures
      var r := NodeModel.AdvanceCommit(n);
      && CommitRule(n, n.state.hard.commit, r.state.hard.commit)
      && (MayCommit(n) <==> r.state.hard.commit > n.state.hard.commit)
  {
    hide CommitRule;
    AdvanceRule(n);
    AdvanceLog(n);
  }

  lemma StepAsSaid<V(!new), S(!new)>(n: Node<V, S>, e: Envelope<V, S>)
    requires Sized(n) && Timed(n)
    ensures WellKept(n) ==> StepActs(n, e, NodeModel.Step(n, e).node, NodeModel.Step(n, e).error)
  {
    hide WellKept, StepActs, NodeModel.Step;
    if WellKept(n) {
      StepDoes(n, e);
    }
  }

  lemma TickAsSaid<V(!new), S(!new)>(n: Node<V, S>)
    requires Sized(n) && Timed(n)
    ensures WellKept(n) ==> TickActs(n, NodeModel.Tick(n).node, NodeModel.Tick(n).error)
  {
    hide WellKept, TickActs, NodeModel.Tick;
    if WellKept(n) {
      TickDoes(n);
    }
  }

  lemma CompactAsSaid<V(!new), S(!new)>(n: Node<V, S>, index: U64, value: S)
    requires Sized(n) && Timed(n)
    ensures WellKept(n) && Attaches(n, OpCompact(index, value)) ==>
              CompactActs(n, index, value, NodeModel.Compact(n, index, value).node,
                  NodeModel.Compact(n, index, value).error)
  {
    hide WellKept, CompactActs, NodeModel.Compact, Attaches;
    if WellKept(n) && Attaches(n, OpCompact(index, value)) {
      CompactDoes(n, index, value);
    }
  }

  /** Truncating from just past the last entry takes off whatever was pushed since. */
  lemma {:induction false} BatchUndone<V, S>(s: Checkpoint<V, S>, es: seq<Entry<V>>, from: U64)
    requires Last(s).index < from && forall k | 0 <= k < |es| :: es[k].id.index >= from
    ensures Truncated(s.(entries := s.entries + es), from) == s
    decreases |es|
  {
    if es == [] {
      assert s.entries + es == s.entries;
    } else {
      var less := es[..|es| - 1];
      assert (s.entries + es)[..|s.entries + es| - 1] == s.entries + less;
      BatchUndone(s, less, from);
    }
  }

  lemma StaysIf<V, S>(m: Node<V, S>)
    requires Sized(m) && Timed(m)
    ensures !MayCommit(m) ==> NodeModel.AdvanceCommit(m) == m
  {
  }

  lemma SomeVoter(m: Membership)
    ensures HasVoter(m.slots)
  {
  }

  lemma CampaignStands<V, S>(n: Node<V, S>, term: U64)
    requires Sized(n) && Timed(n)
    ensures
      var c := Standing(n, term);
      NodeModel.Campaign(n, term) ==
      if ElectionQuorum(c) then NodeModel.BecomeLeader(c) else SentToAll(c, VotersOf(c.membership), SendVote)
  {
  }

  lemma SameRecords<V, S>(n: Node<V, S>, m: Node<V, S>)
    requires m.hooks == n.hooks && m.bootstrap == n.bootstrap && m.state == n.state
    ensures MembershipAt(m, Last(m.state).index) == MembershipAt(n, Last(n.state).index)
  {
  }
}
