/** tick, step, propose and compact of a node whose voters never change, as history steps. */
module FixedOperations {
  import opened Types
  import opened Checkpoints
  import opened Memberships
  import opened NodeModel
  import opened RaftHistory
  import opened RaftGrowth
  import opened RaftSafety
  import opened FixedVoters
  import opened FixedSteps
  import opened FixedReplication
  import opened NodeHistory

  // ---- step.

  lemma AvailableQuiet<V, S>(n: Node<V, S>)
    requires Available(n)
    ensures Quiet(n)
  {
  }

  lemma AnsweredSim<V, S>(
    h: History<V>, h1: History<V>, n: Node<V, S>, r: Reply<V, S>, app: Application<V, S>, peer: nat)
    requires Settles(h, h1, n, r, app) && peer < |n.peers| && n.peers[peer].Some? && peer != n.local
    ensures Sized(r.node)
    ensures Safe(h1) && Grows(h, h1, n.config.id) && Sim(h1, Answered(r, peer), app)
  {
    hide Safe, Grows, Durable, Fixed, Stands, Leads, VotesHeld, AcksHeld, Proper;
    CoreSized(h1, r.node, app);
    SentSim(h1, r.node, app, peer, SendReplicated(r.index, r.rejection));
  }

  lemma FollowCore<V, S>(h: History<V>, n: Node<V, S>, app: Application<V, S>, leader: Id)
    requires Core(h, n, app)
    ensures Timed(n)
    ensures Core(h, Followed(n, Some(leader)), app) && SameSeat(n, Followed(n, Some(leader)))
    ensures Followed(n, Some(leader)).role == Follower
  {
    hide Durable, Fixed, Stands, Leads, VotesHeld, AcksHeld, Proper;
    CoreSized(h, n, app);
    CoreFlags(h, n, Followed(n, Some(leader)), app);
  }

  lemma StaleSim<V, S>(h: History<V>, n: Node<V, S>, app: Application<V, S>, peer: nat, m: Message<V, S>)
    requires Core(h, n, app) && Quiet(n) && peer < |n.peers| && n.peers[peer].Some? && peer != n.local
    ensures Sized(n) && Sim(h, StaleAnswer(n, peer, m), app)
  {
    hide Durable, Fixed, Stands, Leads, VotesHeld, AcksHeld, Proper, Sim;
    CoreSized(h, n, app);
    match m
    case Vote(_, _) => SentSim(h, n, app, peer, SendVoted(false));
    case Append(_, previous, _, _) => SentSim(h, n, app, peer, SendReplicated(previous.index, Some(Conflict(1))));
    case AppendBatch(_, previous, _, _) => SentSim(h, n, app, peer, SendReplicated(previous.index, Some(Conflict(1))));
    case Install(_, snapshot) => SentSim(h, n, app, peer, SendReplicated(snapshot.last.index, Some(Conflict(1))));
    case _ => QuietSim(h, n, app);
  }

  /** A node with a message that keeps its promises, from the peer in a slot. */
  ghost predicate Delivers<V, S>(h: History<V>, n: Node<V, S>, e: Envelope<V, S>, peer: nat, app: Application<V, S>) {
    && Core(h, n, app) && Quiet(n) && ProbeSound(n)
    && Promises(h, e, app) && PlainMessage(n.hooks, n.bootstrap, e.message)
    && e.to == n.config.id && e.from != n.config.id
    && peer < |n.peers| && n.peers[peer] == Some(e.from) && peer != n.local
  }

  lemma CurrentAppend<V, S>(h: History<V>, n: Node<V, S>, e: Envelope<V, S>, peer: nat, app: Application<V, S>)
    returns (h1: History<V>)
    requires Delivers(h, n, e, peer, app) && e.message.Append? && e.message.term == n.state.hard.term
    requires Safe(h)
    ensures Sized(n) && Timed(n)
    ensures Safe(h1) && Grows(h, h1, n.config.id) && Sim(h1, Current(n, peer, e.from, e.message), app)
  {
    hide Safe, Grows, Core, Committed, Sim, Appended, Proper;
    CoreSized(h, n, app);
    FollowCore(h, n, app, e.from);
    var f := Followed(n, Some(e.from));
    h1 := AppendSettles(h, f, app, e.message.previous, e.message.entry, e.message.commit);
    AnsweredSim(h, h1, f, Appended(f, e.message.previous, e.message.entry, e.message.commit), app, peer);
  }

  lemma CurrentBatch<V, S>(h: History<V>, n: Node<V, S>, e: Envelope<V, S>, peer: nat, app: Application<V, S>)
    returns (h1: History<V>)
    requires Delivers(h, n, e, peer, app) && e.message.AppendBatch? && e.message.term == n.state.hard.term
    requires Safe(h)
    ensures Sized(n) && Timed(n)
    ensures Safe(h1) && Grows(h, h1, n.config.id) && Sim(h1, Current(n, peer, e.from, e.message), app)
  {
    hide Safe, Grows, Core, Committed, Sim, BatchFrom, Proper;
    CoreSized(h, n, app);
    FollowCore(h, n, app, e.from);
    var f := Followed(n, Some(e.from));
    var m := e.message;
    h1 := BatchSettles(h, f, app, m.previous, m.entries, m.commit, false, (m.previous.index, None));
    AnsweredSim(h, h1, f, BatchFrom(f, m.previous, m.entries, m.commit, false, (m.previous.index, None)), app, peer);
  }

  lemma CurrentInstall<V, S>(h: History<V>, n: Node<V, S>, e: Envelope<V, S>, peer: nat, app: Application<V, S>)
    returns (h1: History<V>)
    requires Delivers(h, n, e, peer, app) && e.message.Install? && e.message.term == n.state.hard.term
    requires Safe(h)
    ensures Sized(n) && Timed(n)
    ensures Safe(h1) && Grows(h, h1, n.config.id) && Sim(h1, Current(n, peer, e.from, e.message), app)
  {
    hide Safe, Grows, Core, Committed, Sim, InstalledBy, Proper;
    CoreSized(h, n, app);
    FollowCore(h, n, app, e.from);
    var f := Followed(n, Some(e.from));
    h1 := InstallSettles(h, f, app, e.message.snapshot);
    AnsweredSim(h, h1, f, InstalledBy(f, e.message.snapshot), app, peer);
  }

  lemma CurrentSim<V, S>(h: History<V>, n: Node<V, S>, e: Envelope<V, S>, peer: nat, app: Application<V, S>)
    returns (h1: History<V>)
    requires Delivers(h, n, e, peer, app) && e.message.term == n.state.hard.term
    requires Safe(h)
    ensures Sized(n) && Timed(n)
    ensures Safe(h1) && Grows(h, h1, n.config.id) && Sim(h1, Current(n, peer, e.from, e.message), app)
  {
    hide BatchFrom, Appended, InstalledBy;
    hide Safe, Grows, Core, Committed, Sim, Proper, VoteAnswer, VoteCounted, ReplicatedBy, LogsOk, ReignsOk, AcksOk,
         Domains, Shape;
    CoreSized(h, n, app);
    match e.message {
      case Vote(_, last) => h1 := VoteAnswerSim(h, n, app, peer, e.from, last);
      case Voted(_, granted) => h1 := VoteCountedSim(h, n, app, peer, e.from, granted);
      case Append(_, _, _, _) => h1 := CurrentAppend(h, n, e, peer, app);
      case AppendBatch(_, _, _, _) => h1 := CurrentBatch(h, n, e, peer, app);
      case Install(_, _) => h1 := CurrentInstall(h, n, e, peer, app);
      case Replicated(_, index, rejection) =>
        h1 := h;
        GrowsRefl(h, n.config.id);
        SafeLogs(h);
        if n.role == Leader {
          ReplicatedSim(h, n, app, peer, index, rejection);
        } else {
          QuietSim(h, n, app);
        }
      case _ =>
        h1 := h;
        GrowsRefl(h, n.config.id);
        QuietSim(h, n, app);
    }
  }

  lemma ObservedFrame<V, S>(n: Node<V, S>, t: U64)
    requires Timed(n)
    ensures Observed(n, t).config == n.config && Observed(n, t).peers == n.peers && Observed(n, t).local == n.local
    ensures Observed(n, t).outbox == n.outbox && Observed(n, t).extraReply == n.extraReply
    ensures Observed(n, t).hooks == n.hooks && Observed(n, t).bootstrap == n.bootstrap
    ensures ProbeSound(n) ==> ProbeSound(Observed(n, t))
    ensures Observed(n, t).state.hard.term == Max(n.state.hard.term, t)
    ensures t <= n.state.hard.term ==> Observed(n, t) == n
  {
  }

  /** A granted probe counts for nothing in the history until it becomes a campaign. */
  lemma PolledSim<V, S>(
    h: History<V>, n: Node<V, S>, app: Application<V, S>, peer: nat, campaign: U64, granted: bool)
    returns (h1: History<V>)
    requires Core(h, n, app) && Quiet(n) && ProbeSound(n) && peer < |n.peers|
    requires Safe(h)
    ensures Sized(n) && Timed(n)
    ensures Safe(h1) && Grows(h, h1, n.config.id) && Sim(h1, Polled(n, peer, campaign, granted), app)
  {
    hide Safe, Grows, Core, Sim, Proper, Campaign, ElectionQuorum;
    CoreSized(h, n, app);
    h1 := h;
    GrowsRefl(h, n.config.id);
    if n.prevoting == Some(campaign) && granted {
      var v := n.(votes := n.votes[peer := true]);
      CoreFlags(h, n, v, app);
      if ElectionQuorum(v) {
        h1 := CampaignSim(h, v, app, campaign);
      } else {
        QuietSim(h, v, app);
      }
    } else {
      QuietSim(h, n, app);
    }
  }

  lemma SettledSim<V, S>(h: History<V>, n: Node<V, S>, e: Envelope<V, S>, peer: nat, app: Application<V, S>)
    returns (h1: History<V>)
    requires Delivers(h, n, e, peer, app) && e.message.term <= n.state.hard.term
    requires Safe(h)
    ensures Sized(n) && Timed(n)
    ensures Safe(h1) && Grows(h, h1, n.config.id) && Sim(h1, Settled(n, peer, e.from, e.message), app)
  {
    hide Safe, Grows, Core, Committed, Sim, Proper, Current, StaleAnswer, Polled;
    CoreSized(h, n, app);
    if e.message.PreVoted? {
      h1 := PolledSim(h, n, app, peer, e.message.campaign, e.message.granted);
    } else if e.message.term < n.state.hard.term {
      h1 := h;
      GrowsRefl(h, n.config.id);
      StaleSim(h, n, app, peer, e.message);
    } else {
      h1 := CurrentSim(h, n, e, peer, app);
    }
  }

  /** A vote request a recently heard leader suppresses is dropped unseen. */
  predicate Suppressed<V, S>(n: Node<V, S>, m: Message<V, S>) {
    n.hooks.Some? && m.Vote? && (n.role == Leader || n.leaderAge < n.config.electionTicks)
  }

  lemma ReceivedSettled<V, S>(n: Node<V, S>, e: Envelope<V, S>, peer: nat)
    requires Sized(n) && Timed(n) && !e.message.PreVote? && !Suppressed(n, e.message)
    ensures Received(n, peer, e.from, e.message) ==
            Settled(Observed(n, e.message.term), peer, e.from, e.message)
  {
  }

  /** Answering a probe promises nothing. */
  lemma ProbeAnswerSim<V, S>(
    h: History<V>, n: Node<V, S>, app: Application<V, S>, peer: nat, term: U64, last: LogId)
    requires Core(h, n, app) && Quiet(n) && peer < |n.peers| && n.peers[peer].Some? && peer != n.local
    ensures Sized(n) && Sim(h, PreVoteAnswer(n, peer, term, last), app)
  {
    hide Durable, Fixed, Stands, Leads, VotesHeld, AcksHeld, Proper, Sim, Sent;
    CoreSized(h, n, app);
    var granted :=
      && term > n.state.hard.term && n.role != Leader
      && n.leaderAge >= n.config.electionTicks
      && AtLeastAsUpToDate(last, Last(n.state));
    SentSim(h, n, app, peer, SendPreVoted(term, granted));
  }

  lemma DeliveredSim<V, S>(h: History<V>, n: Node<V, S>, e: Envelope<V, S>, peer: nat, app: Application<V, S>)
    returns (h1: History<V>)
    requires Delivers(h, n, e, peer, app)
    requires Safe(h)
    ensures Sized(n) && Timed(n)
    ensures Safe(h1) && Grows(h, h1, n.config.id) && Sim(h1, Received(n, peer, e.from, e.message), app)
  {
    hide Safe, Grows, Sim, Proper, Settled, Core, Observed, Promises, PreVoteAnswer, PlainMessage;
    CoreSized(h, n, app);
    h1 := h;
    GrowsRefl(h, n.config.id);
    if e.message.PreVote? {
      ProbeAnswerSim(h, n, app, peer, e.message.term, e.message.last);
    } else if Suppressed(n, e.message) {
      QuietSim(h, n, app);
    } else {
      h1 := ReceivedSim(h, n, e, peer, app);
    }
  }

  lemma ReceivedSim<V, S>(h: History<V>, n: Node<V, S>, e: Envelope<V, S>, peer: nat, app: Application<V, S>)
    returns (h1: History<V>)
    requires Delivers(h, n, e, peer, app) && !e.message.PreVote? && !Suppressed(n, e.message)
    requires Safe(h)
    ensures Sized(n) && Timed(n)
    ensures Safe(h1) && Grows(h, h1, n.config.id) && Sim(h1, Received(n, peer, e.from, e.message), app)
  {
    hide Safe, Grows, Committed, Sim, Proper, Settled, Durable, Stands, Leads, VotesHeld, AcksHeld, Received, Observed,
         Fixed, PlainMessage, ProbeSound, Promises, Still;
    CoreSized(h, n, app);
    var t := e.message.term;
    var ho := h;
    GrowsRefl(h, n.config.id);
    ObservedFrame(n, t);
    if t > n.state.hard.term {
      ho := ObserveCore(h, n, app, t);
    }
    PromisesStable(h, ho, n.config.id, e, app);
    ReceivedSettled(n, e, peer);
    h1 := SettledSim(ho, Observed(n, t), e, peer, app);
    GrowsTrans(h, ho, h1, n.config.id);
  }

  lemma StepSim<V, S>(h: History<V>, n: Node<V, S>, e: Envelope<V, S>, app: Application<V, S>) returns (h1: History<V>)
    requires Sim(h, n, app) && ProbeSound(n) && Promises(h, e, app) && PlainMessage(n.hooks, n.bootstrap, e.message)
    requires Safe(h)
    ensures Sized(n) && Timed(n)
    ensures Safe(h1) && Grows(h, h1, n.config.id) && Sim(h1, Step(n, e).node, app)
  {
    hide Safe, Grows, Sim, Proper, Durable, Fixed, Stands, Leads, VotesHeld, AcksHeld, Received, Promises, ValidMessage,
         PlainMessage, Still;
    SimCore(h, n, app);
    CoreSized(h, n, app);
    h1 := h;
    GrowsRefl(h, n.config.id);
    if Available(n) && Accepts(n, e) {
      AvailableQuiet(n);
      var peer := PositionOf(n.peers, e.from);
      FixedKnows(n, h.voters, e.from) by { PromisedSender(h, e, app); }
      FixedSelf(n, h.voters);
      var r := n.(requestFrom := Some(e.from));
      CoreFlags(h, n, r, app);
      h1 := DeliveredSim(h, r, e, peer, app);
    }
  }

  /** Every voter has a slot. */
  lemma FixedKnows<V, S>(n: Node<V, S>, voters: set<Id>, id: Id)
    requires Fixed(n, voters) && id in voters
    ensures PositionOf(n.peers, id) < |n.peers|
  {
    var k :| 0 <= k < |n.membership.slots| && Seats(n.membership.slots, k, Voters)
        && n.membership.slots[k].value.id == id;
    assert n.peers[k] == Some(id);
    PositionKnown(n.peers, id);
  }

  lemma PromisedSender<V, S>(h: History<V>, e: Envelope<V, S>, app: Application<V, S>)
    requires Promises(h, e, app)
    ensures e.from in h.voters && e.to in h.voters
  {
    hide Committed;
  }

  lemma SimCore<V, S>(h: History<V>, n: Node<V, S>, app: Application<V, S>)
    requires Sim(h, n, app)
    ensures Core(h, n, app)
  {
  }

  // ---- tick.

  /** What ticking does once the quorum check has passed. */
  lemma TimersSim<V, S>(h: History<V>, t: Node<V, S>, app: Application<V, S>) returns (h1: History<V>)
    requires Core(h, t, app) && Quiet(t)
    requires Safe(h)
    ensures Sized(t) && Timed(t)
    ensures Safe(h1) && Grows(h, h1, t.config.id) && Sim(h1, TickTimers(t).node, app)
  {
    hide Safe, Grows, Sim, Proper, Durable, Fixed, Stands, Leads, VotesHeld, AcksHeld, Campaign, Probe, Barrier,
         Broadcast;
    CoreSized(h, t, app);
    h1 := h;
    GrowsRefl(h, t.config.id);
    if t.role == Leader {
      if t.elapsed >= t.config.heartbeatTicks {
        CoreFlags(h, t, t.(elapsed := 0), app);
        h1 := BarrierCore(h, t.(elapsed := 0), app);
        BroadcastSim(h1, Barrier(t.(elapsed := 0)), app);
      } else {
        QuietSim(h, t, app);
      }
    } else if IsVoter(t.membership, t.config.id) && t.elapsed >= t.electionDeadline && t.state.hard.term < MAX_U64 {
      if t.hooks.Some? {
        h1 := ProbeSim(h, t, app, t.state.hard.term + 1);
      } else {
        h1 := CampaignSim(h, t, app, t.state.hard.term + 1);
      }
    } else {
      QuietSim(h, t, app);
    }
  }

  /** Asking around before a campaign leaves the history alone. */
  lemma ProbeSim<V, S>(h: History<V>, n: Node<V, S>, app: Application<V, S>, term: U64) returns (h1: History<V>)
    requires Core(h, n, app) && Quiet(n) && term == n.state.hard.term + 1
    requires Safe(h)
    ensures Sized(n) && Timed(n)
    ensures Safe(h1) && Grows(h, h1, n.config.id) && Sim(h1, Probe(n, term), app)
  {
    hide Safe, Grows, Sim, Proper, Durable, Fixed, Stands, Leads, VotesHeld, AcksHeld, Campaign, ElectionQuorum;
    CoreSized(h, n, app);
    h1 := h;
    GrowsRefl(h, n.config.id);
    var p := ResetElection(SelfVote(n.(role := Follower, prevoting := Some(term))));
    CoreFlags(h, n, p, app);
    if ElectionQuorum(p) {
      h1 := CampaignSim(h, p, app, term);
    } else {
      SentToAllSim(h, p, app, VotersOf(p.membership), SendPreVote(term));
    }
  }

  /** The node a tick hands to the timers, or the follower the quorum check makes of it. */
  lemma TickSim<V, S>(h: History<V>, n: Node<V, S>, app: Application<V, S>) returns (h1: History<V>)
    requires Sim(h, n, app)
    requires Safe(h)
    ensures Sized(n) && Timed(n)
    ensures Safe(h1) && Grows(h, h1, n.config.id) && Sim(h1, Tick(n).node, app)
  {
    hide Safe, Grows, Sim, Proper, Durable, Fixed, Stands, Leads, VotesHeld, AcksHeld, TickTimers, ActiveQuorum, Still;
    SimCore(h, n, app);
    CoreSized(h, n, app);
    h1 := h;
    GrowsRefl(h, n.config.id);
    if Available(n) {
      AvailableQuiet(n);
      var t := Ticked(n);
      CoreFlags(h, n, t, app);
      if t.hooks.Some? && t.role == Leader {
        var q := t.(quorumElapsed := SaturatingInc(t.quorumElapsed));
        CoreFlags(h, t, q, app);
        if q.quorumElapsed >= q.config.electionTicks {
          var reset := q.(quorumElapsed := 0, active := Filled<bool>(|q.peers|, false));
          CoreFlags(h, q, reset, app);
          if ActiveQuorum(q) {
            h1 := TimersSim(h, reset, app);
          } else {
            CoreFlags(h, reset, Followed(reset, None), app);
            QuietSim(h, Followed(reset, None), app);
          }
        } else {
          h1 := TimersSim(h, q, app);
        }
      } else {
        h1 := TimersSim(h, t, app);
      }
    }
  }

  // ---- Proposals.

  /** Appending a batch extends the reign entry by entry. */
  lemma {:induction false} ExtendBatch<V, S>(h: History<V>, n: Node<V, S>, app: Application<V, S>, es: seq<Entry<V>>)
    returns (h1: History<V>)
    requires Core(h, n, app) && n.role == Leader && |n.state.entries| + |es| <= n.cap
    requires n.config.id in h.log
    requires forall k | 0 <= k < |es| ::
      es[k].id.index == |h.log[n.config.id]| + 1 + k && es[k].id.term == n.state.hard.term && PlainEntry(n.hooks, es[k])
    requires Safe(h)
    ensures Safe(h1) && Grows(h, h1, n.config.id)
    ensures Core(h1, n.(state := n.state.(entries := n.state.entries + es)), app)
    ensures es != [] ==> es[|es| - 1].id.index as int <= Ack(h1, n.state.hard.term, n.config.id)
    decreases |es|
  {
    hide Safe, Grows, Proper, Durable, Fixed, Stands, Leads, VotesHeld, AcksHeld;
    if es == [] {
      h1 := h;
      GrowsRefl(h, n.config.id);
      assert n.state.entries + es == n.state.entries;
    } else {
      var p := n.(state := Pushed(n.state, es[0]));
      var he := Extended(h, n, app, es[0]);
      assert n.state.entries + es == p.state.entries + es[1..];
      h1 := ExtendBatch(he, p, app, es[1..]);
      GrowsTrans(h, he, h1, n.config.id);
      AckStable(he, h1, n.config.id, n.state.hard.term, n.config.id);
    }
  }

  /** After the batch: record the leader's own position, commit if possible, and send. */
  lemma ProposedSim<V, S>(h: History<V>, p: Node<V, S>, app: Application<V, S>, last: U64)
    requires Core(h, p, app) && Quiet(p) && p.role == Leader && last <= Ack(h, p.state.hard.term, p.config.id)
    requires LogsOk(h)
    ensures Sized(p) && Timed(p) && Sized(MatchedSelf(p, last)) && Timed(MatchedSelf(p, last))
    ensures Refreshed(p) == p
    ensures Sim(h, Broadcast(AdvanceCommit(MatchedSelf(p, last))), app)
  {
    hide Sim, Proper, Durable, Stands, Leads, VotesHeld, AcksHeld, AdvanceCommit, Broadcast, Refreshed, LogsOk;
    CoreSized(h, p, app);
    FixedRefreshed(p, h.voters);
    hide Fixed;
    MatchedCore(h, p, app, last);
    var m := MatchedSelf(p, last);
    AdvanceCore(h, m, app);
    BroadcastSim(h, AdvanceCommit(m), app);
  }

  /** The node right after its batch was pushed. */
  ghost function Loaded<V, S>(n: Node<V, S>, es: seq<Entry<V>>, from: U64): Node<V, S> {
    n.(state := n.state.(entries := n.state.entries + es), dirty := true, logFrom := Some(from))
  }

  lemma LoadedCore<V, S>(h: History<V>, n: Node<V, S>, app: Application<V, S>, es: seq<Entry<V>>, from: U64)
    returns (h1: History<V>)
    requires Core(h, n, app) && n.role == Leader && |n.state.entries| + |es| <= n.cap && es != []
    requires forall k | 0 <= k < |es| ::
      es[k].id.index == Last(n.state).index + 1 + k && es[k].id.term == n.state.hard.term && PlainEntry(n.hooks, es[k])
    requires Safe(h)
    ensures Safe(h1) && Grows(h, h1, n.config.id) && Core(h1, Loaded(n, es, from), app)
    ensures es[|es| - 1].id.index as int <= Ack(h1, n.state.hard.term, n.config.id)
  {
    hide Safe, Grows, Proper, Durable, Fixed, Stands, Leads, VotesHeld, AcksHeld, Shape, LogsOk, ReignsOk, AcksOk,
         Domains;
    CoreSized(h, n, app);
    SafeLogs(h);
    LastOfLog(h, n, app);
    CoreVoter(h, n, app);
    var d := n.(dirty := true, logFrom := Some(from));
    CoreFlags(h, n, d, app);
    h1 := ExtendBatch(h, d, app, es);
  }

  lemma ProposeSim<V, S>(h: History<V>, n: Node<V, S>, app: Application<V, S>, values: seq<V>)
    returns (h1: History<V>)
    requires Sim(h, n, app)
    requires n.hooks.Some? ==> forall k | 0 <= k < |values| :: n.hooks.value.record(values[k]).None?
    requires Safe(h)
    ensures Sized(n) && Timed(n)
    ensures Safe(h1) && Grows(h, h1, n.config.id) && Sim(h1, ProposeMany(n, values).node, app)
  {
    hide Safe, Grows, Sim, Proper, Durable, Fixed, Stands, Leads, VotesHeld, AcksHeld, AdvanceCommit, Broadcast,
         Shape, LogsOk, ReignsOk, AcksOk, Domains, Refreshed, MatchedSelf, Last;
    SimCore(h, n, app);
    CoreSized(h, n, app);
    h1 := h;
    GrowsRefl(h, n.config.id);
    if ProposalError(n, |values|).None? {
      AvailableQuiet(n);
      var first := LogId(Last(n.state).index + 1, n.state.hard.term);
      var es := Batch(values, first);
      h1 := LoadedCore(h, n, app, es, first.index);
      SafeLogs(h1);
      ProposedSim(h1, Loaded(n, es, first.index), app, first.index + |values| - 1);
    }
  }

  lemma CoreVoter<V, S>(h: History<V>, n: Node<V, S>, app: Application<V, S>)
    requires Core(h, n, app)
    ensures n.config.id in h.voters && n.config.id in h.log
  {
  }

  // ---- Compaction.

  lemma CompactSim<V, S>(h: History<V>, n: Node<V, S>, app: Application<V, S>, index: U64, value: S)
    returns (h1: History<V>)
    requires Sim(h, n, app)
    requires n.config.id in h.log
    requires Base(n.state).index < index <= n.state.hard.commit ==>
               index <= |h.log[n.config.id]| && value == app(h.log[n.config.id][..index])
    requires PlainSnapshot(n.hooks, n.bootstrap, value)
    requires Safe(h)
    ensures Sized(n) && Timed(n)
    ensures Safe(h1) && Grows(h, h1, n.config.id) && Sim(h1, Compact(n, index, value).node, app)
  {
    hide Safe, Grows, Sim, Proper, Stands, Leads, VotesHeld, AcksHeld, Broadcast, Barrier, Installed, Committed,
         Retains, Shape, LogsOk, ReignsOk, AcksOk, Domains, IdAt;
    SimCore(h, n, app);
    CoreSized(h, n, app);
    h1 := h;
    GrowsRefl(h, n.config.id);
    if Available(n) && Base(n.state).index < index <= n.state.hard.commit && IdAt(n.state, index).Some? {
      AvailableQuiet(n);
      var snapshot := Snapshot(IdAt(n.state, index).value, value);
      FoldLog(h, n, app, index, value);
      var c := n.(state := Installed(n.state, snapshot), dirty := true, snapshotChanged := true);
      InstalledTerm(n.state, snapshot);
      StillTook(n, snapshot);
      TookState(n, snapshot);
      CoreAlike(h, n, c, app);
      if c.role == Leader {
        h1 := BarrierCore(h, c, app);
        BroadcastSim(h1, Barrier(c), app);
      } else {
        QuietSim(h, c, app);
      }
    }
  }

  lemma InstalledTerm<V, S>(s: Checkpoint<V, S>, snapshot: Snapshot<S>)
    ensures Installed(s, snapshot).hard.term == s.hard.term
  {
  }

  lemma FoldLog<V, S>(h: History<V>, n: Node<V, S>, app: Application<V, S>, index: U64, value: S)
    requires Core(h, n, app) && Base(n.state).index < index <= n.state.hard.commit
    requires IdAt(n.state, index).Some?
    requires n.config.id in h.log && index <= |h.log[n.config.id]|
    requires value == app(h.log[n.config.id][..index])
    requires Safe(h)
    ensures Durable(h, n.config.id, Installed(n.state, Snapshot(IdAt(n.state, index).value, value)), app)
    ensures |Installed(n.state, Snapshot(IdAt(n.state, index).value, value)).entries| <= n.cap
  {
    hide Safe, Fixed, Stands, Leads, VotesHeld, AcksHeld, Shape, LogsOk, ReignsOk, AcksOk, Domains, Installed,
         Committed;
    var i := n.config.id;
    SafeLogs(h);
    LogNumbered(h, i);
    IdAtLog(h.log[i], n.state, app, index);
    var log := h.log[i];
    assert log[..n.state.hard.commit][..index] == log[..index];
    CommittedPrefix(h, log[..n.state.hard.commit], log[..index], n.state.hard.term);
    FoldDurable(h, i, n.state, app, Snapshot(IdAt(n.state, index).value, value));
  }

  // ---- Output.

  /** Taking a message from the outbox. */
  lemma TakeSim<V, S>(h: History<V>, n: Node<V, S>, app: Application<V, S>)
    requires Sim(h, n, app)
    ensures Sized(n) && Sim(h, NextMessage(n).0, app)
  {
    hide Durable, Fixed, Stands, Leads, VotesHeld, AcksHeld, Proper, Queued, Rendered;
    CoreSized(h, n, app);
    var m := NextMessage(n).0;
    CoreFlags(h, n, m, app);
    forall p | 0 <= p < |m.outbox| && p < |m.peers| && m.outbox[p].Some?
      ensures p != m.local && m.peers[p].Some? && Queued(h, m, m.peers[p].value, m.outbox[p].value)
    {
      assert n.outbox[p] == m.outbox[p];
      QueuedAlike(h, n, m, m.peers[p].value, m.outbox[p].value);
    }
  }

  /** A leader's snapshot is a committed prefix of its reign. */
  lemma SnapshotPromise<V, S>(h: History<V>, n: Node<V, S>, app: Application<V, S>, to: Id)
    requires Core(h, n, app) && Leads(h, n) && n.state.snapshot.Some? && to in h.voters && to != n.config.id
    ensures Promises(h, Envelope(n.config.id, to, Install(n.state.hard.term, n.state.snapshot.value)), app)
  {
    hide Stands, VotesHeld, AcksHeld, Proper, Committed, Fixed;
    var log := h.log[n.config.id];
    var k := Base(n.state).index;
    assert log[..n.state.hard.commit][..k] == log[..k];
    CommittedPrefix(h, log[..n.state.hard.commit], log[..k], n.state.hard.term);
  }

  /** What a batch reads from position `first` on. */
  lemma BatchReads<V, S>(log: Log<V>, n: Node<V, S>, app: Application<V, S>, first: U64, k: nat)
    requires Retains(log, n.state, app) && Numbered(log) && Base(n.state).index < first && k < |BatchAt(n, first)|
    ensures BatchAt(n, first)[k] == if first - 1 + k < |log| then Some(log[first - 1 + k]) else None
  {
    IdAtLog(log, n.state, app, first);
    if first + k <= MAX_U64 {
      IdAtLog(log, n.state, app, first + k);
    }
    hide Retains, Numbered, Get, IdAt;
  }

  /** A rendered batch is a run of the leader's own log. */
  lemma BatchPromise<V, S>(log: Log<V>, n: Node<V, S>, app: Application<V, S>, first: U64)
    requires Retains(log, n.state, app) && Numbered(log) && Base(n.state).index < first
    ensures RunOf(log, first - 1, BatchAt(n, first))
    ensures first <= |log| ==> BatchAt(n, first) != [] && BatchAt(n, first)[0].Some?
  {
    forall k | 0 <= k < |BatchAt(n, first)|
      ensures BatchAt(n, first)[k] == if first - 1 + k < |log| then Some(log[first - 1 + k]) else None
    {
      BatchReads(log, n, app, first, k);
    }
    hide Retains, Numbered, Get;
  }

  /** Nothing a still node says changes anybody's membership. */
  lemma RenderedPlain<V, S>(n: Node<V, S>, p: nat, out: Outbound)
    requires Sized(n) && Still(n)
    ensures Rendered(n, p, out).Some? ==> PlainMessage(n.hooks, n.bootstrap, Rendered(n, p, out).value)
  {
    forall k: U64 | Get(n.state, k).Some? ensures PlainEntry(n.hooks, Get(n.state, k).value) {
    }
    hide Get, IdAt;
  }

  /** A position just past a held entry is within the log, and what is read there is the log's. */
  lemma ReadsLog<V, S>(log: Log<V>, s: Checkpoint<V, S>, app: Application<V, S>, next: U64)
    requires Retains(log, s, app) && Numbered(log) && Base(s).index < next && IdAt(s, next - 1).Some?
    ensures next - 1 <= |log| && IdAt(s, next - 1).value == IdOf(log, next - 1)
    ensures IdAt(s, next - 1).value.index == next - 1
    ensures Get(s, next) == if next <= |log| then Some(log[next - 1]) else None
    ensures next < MAX_U64 && Get(s, next + 1).Some? ==> next < |log|
  {
    IdAtLog(log, s, app, next - 1);
    IdAtLog(log, s, app, next);
    if next < MAX_U64 {
      IdAtLog(log, s, app, next + 1);
    }
  }

  /** What any request of a leader rests on. */
  lemma LeaderSays<V, S>(h: History<V>, n: Node<V, S>, app: Application<V, S>)
    requires Core(h, n, app) && Leads(h, n)
    ensures n.config.id in h.voters && n.config.id in h.log && n.state.hard.term as nat in h.reigns
    ensures h.reigns[n.state.hard.term as nat] == Reign(n.config.id, h.log[n.config.id])
    ensures Retains(h.log[n.config.id], n.state, app)
    ensures n.state.hard.commit <= |h.log[n.config.id]|
    ensures Committed(h, h.log[n.config.id][..n.state.hard.commit], n.state.hard.term)
  {
    hide Committed, Fixed, Still;
  }

  /** A request for one entry is within the leader's log. */
  lemma AppendPromise<V, S>(h: History<V>, n: Node<V, S>, app: Application<V, S>, next: U64, to: Id)
    requires Core(h, n, app) && Leads(h, n) && Base(n.state).index < next
    requires to in h.voters && to != n.config.id && IdAt(n.state, next - 1).Some?
    requires LogsOk(h)
    ensures
      var t, previous, commit := n.state.hard.term, IdAt(n.state, next - 1).value, n.state.hard.commit;
      Promises(h, Envelope(n.config.id, to, Append(t, previous, Get(n.state, next), commit)), app)
  {
    LeaderSays(h, n, app);
    hide Core, Leads;
    var log := h.log[n.config.id];
    LogNumbered(h, n.config.id);
    ReadsLog(log, n.state, app, next);
    hide Proper, Committed, Retains, LogsOk, BatchAt, RunOf, Get, IdAt, Numbered;
  }

  lemma SaysBatch<V, S>(
    h: History<V>, i: Id, to: Id, app: Application<V, S>, t: U64, log: Log<V>, previous: LogId,
    entries: seq<Option<Entry<V>>>, commit: U64)
    requires i in h.voters && to in h.voters && i != to && t as nat in h.reigns && h.reigns[t as nat] == Reign(i, log)
    requires previous.index <= |log| && previous == IdOf(log, previous.index)
    requires entries != [] && entries[0].Some? && RunOf(log, previous.index, entries)
    requires commit <= |log| && Committed(h, log[..commit], t)
    ensures Promises(h, Envelope(i, to, AppendBatch(t, previous, entries, commit)), app)
  {
    hide Committed, RunOf;
  }

  /** So is a request for a batch. */
  lemma AppendBatchPromise<V, S>(h: History<V>, n: Node<V, S>, app: Application<V, S>, next: U64, to: Id)
    requires Core(h, n, app) && Leads(h, n) && Base(n.state).index < next
    requires to in h.voters && to != n.config.id && IdAt(n.state, next - 1).Some?
    requires next < MAX_U64 && Get(n.state, next + 1).Some?
    requires LogsOk(h)
    ensures
      var t, previous, commit := n.state.hard.term, IdAt(n.state, next - 1).value, n.state.hard.commit;
      Promises(h, Envelope(n.config.id, to, AppendBatch(t, previous, BatchAt(n, next), commit)), app)
  {
    LeaderSays(h, n, app);
    hide Core, Leads;
    var log := h.log[n.config.id];
    LogNumbered(h, n.config.id);
    ReadsLog(log, n.state, app, next);
    BatchPromise(log, n, app, next);
    hide Promises, Proper, Committed, Retains, LogsOk, BatchAt, RunOf, Get, IdAt, Numbered;
    SaysBatch(h, n.config.id, to, app, n.state.hard.term, log, IdAt(n.state, next - 1).value, BatchAt(n, next),
              n.state.hard.commit);
  }

  lemma ReplicatePromise<V, S>(h: History<V>, n: Node<V, S>, app: Application<V, S>, p: nat, to: Id)
    requires Core(h, n, app) && Leads(h, n) && n.role == Leader
    requires to in h.voters && to != n.config.id
    requires LogsOk(h)
    ensures Sized(n)
    ensures Rendered(n, p, SendReplicate).Some? ==>
              Promises(h, Envelope(n.config.id, to, Rendered(n, p, SendReplicate).value), app)
  {
    hide Core, Leads, Promises, Proper, LogsOk, IdAt, Get, BatchAt;
    CoreSized(h, n, app);
    if p < |n.peers| {
      if n.next[p] <= Base(n.state).index {
        if n.state.snapshot.Some? {
          SnapshotPromise(h, n, app, to);
        }
      } else if IdAt(n.state, n.next[p] - 1).Some? {
        AppendPromise(h, n, app, n.next[p], to);
        if n.next[p] < MAX_U64 && Get(n.state, n.next[p] + 1).Some? {
          AppendBatchPromise(h, n, app, n.next[p], to);
        }
      }
    }
  }

  lemma RenderedPromise<V, S>(h: History<V>, n: Node<V, S>, app: Application<V, S>, p: nat, to: Id, out: Outbound)
    requires Core(h, n, app) && Queued(h, n, to, out) && to in h.voters && to != n.config.id
    requires LogsOk(h)
    ensures Sized(n)
    ensures Rendered(n, p, out).Some? ==>
              Promises(h, Envelope(n.config.id, to, Rendered(n, p, out).value), app)
  {
    hide Durable, Fixed, VotesHeld, AcksHeld, Proper, LogsOk;
    CoreSized(h, n, app);
    CoreVoter(h, n, app);
    LastOfLog(h, n, app);
    if out.SendReplicate? {
      hide Leads;
      ReplicatePromise(h, n, app, p, to);
    }
  }

  /** Every message a clean node hands out keeps its promise to the history. */
  lemma NextPromise<V, S>(h: History<V>, n: Node<V, S>, app: Application<V, S>)
    requires Sim(h, n, app)
    requires Safe(h)
    ensures Sized(n)
    ensures NextMessage(n).1.Some? ==>
              && Promises(h, NextMessage(n).1.value, app)
              && PlainMessage(n.hooks, n.bootstrap, NextMessage(n).1.value.message)
  {
    hide PlainMessage, PlainState;
    hide Durable, Stands, Leads, VotesHeld, AcksHeld, Proper, Queued, Rendered, Promises, Safe, Shape, LogsOk,
         ReignsOk, AcksOk, Domains;
    CoreSized(h, n, app);
    SafeLogs(h);
    var p := FirstOccupied(n.outbox);
    if !n.dirty && p < |n.peers| {
      var to := n.peers[p].value;
      var taken := n.(outbox := n.outbox[p := None]);
      CoreFlags(h, n, taken, app);
      assert to != n.config.id by { FixedSelf(n, h.voters); }
      QueuedAlike(h, n, taken, to, n.outbox[p].value);
      RenderedPromise(h, taken, app, p, to, n.outbox[p].value);
      RenderedPlain(taken, p, n.outbox[p].value);
    }
  }
}
