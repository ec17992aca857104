/**
 * What a node does with a leader's request, as a whole: it follows, its log changes as
 * FollowerActs.dfy says, and the answer goes to whoever has the sender's slot. Requests of
 * an older term are turned down, and what cannot be accepted at all is an error.
 */
module FollowerSteps {
  import opened Types
  import opened Checkpoints
  import opened Memberships
  import opened NodeModel
  import opened LocalHistory
  import opened NodeHistory
  import opened SlotTables
  import opened DynamicNodes
  import opened DynamicElections
  import opened DynamicOperations
  import opened CommitRules
  import opened Queues
  import opened LeaderSteps
  import opened Ballots
  import opened Campaigns
  import opened FollowerActs

  /** The node's log as it is once a message of this term has been seen. */
  ghost function LogSeen<V, S>(n: Node<V, S>, term: U64): Checkpoint<V, S> {
    n.state.(hard := HardState(TermSeen(n, term), VoteSeen(n, term), n.state.hard.commit))
  }

  /** It follows the sender, whose request starts the election timer over. */
  ghost predicate Follows<V, S>(r: Node<V, S>, from: Id) {
    r.role == Follower && r.leader == Some(from) && r.prevoting.None? && r.leaderAge == 0 && StartsWaiting(r)
  }

  /** Exactly one answer waits: for the sender, or for whoever has been given the sender's slot meanwhile. */
  ghost predicate Replies<V, S>(n: Node<V, S>, r: Node<V, S>, from: Id, out: Outbound) {
    var p := PositionOf(n.peers, from);
    if p < |n.peers| && p < |r.peers| then r.peers[p].Some? && Tells(r, Only(r.peers[p].value), out)
    else Tells(r, Only(from), out)
  }

  lemma SeeingGoes<V(!new), S(!new)>(n: Node<V, S>, e: Envelope<V, S>)
    requires Rests(n) && Clean(n)
    ensures Sized(Seeing(n, e)) && Timed(Seeing(n, e)) && Goes(n.state, Seeing(n, e)) && Seeing(n, e).logFrom.None?
  {
    hide Continues, Observed, Seating, AtRest;
    CleanGoes(n);
    var m := n.(requestFrom := Some(e.from));
    GoesSame(n.state, n, m);
    ObservedGoes(n.state, m, e.message.term);
  }

  lemma SeeingSeats<V(!new), S(!new)>(n: Node<V, S>, e: Envelope<V, S>)
    requires Rests(n)
    ensures SameSeats(n, Seeing(n, e)) && Seating(Seeing(n, e)) && Seeing(n, e).prevoting in {None, n.prevoting}
    ensures Seeing(n, e).requestFrom == Some(e.from) && Seeing(n, e).state == LogSeen(n, e.message.term)
  {
    hide WellFormed;
    var m := n.(requestFrom := Some(e.from));
    ObservedParts(m, e.message.term);
    SeatingFlags(n, Seeing(n, e));
  }

  /** The sender's follower, before anything happens to its log. */
  lemma FollowingParts<V(!new), S(!new)>(n: Node<V, S>, e: Envelope<V, S>) returns (f: Node<V, S>)
    requires Rests(n) && Clean(n) && e.message.term >= n.state.hard.term
    ensures Sized(Seeing(n, e)) && Timed(Seeing(n, e)) && f == Followed(Seeing(n, e), Some(e.from))
    ensures DynamicOperations.Follows(n.state, f, {}) && Follows(f, e.from)
    ensures f.state == LogSeen(n, e.message.term) && f.state.hard.term == e.message.term && f.logFrom.None?
    ensures f.peers == n.peers && f.cap == n.cap && f.requestFrom == Some(e.from)
  {
    hide Goes, Seeing, Seating, Followed, WellFormed;
    SeeingGoes(n, e);
    SeeingSeats(n, e);
    var o := Seeing(n, e);
    FollowedGoes(n.state, o, Some(e.from));
    f := Followed(o, Some(e.from));
    FollowedOnly(o, e.from);
    SeatingFlags(o, f);
    SilentParts(n, f);
  }

  lemma FollowedOnly<V, S>(n: Node<V, S>, from: Id)
    requires Sized(n) && Timed(n)
    ensures
      var f := Followed(n, Some(from));
      && Follows(f, from) && SameSeats(n, f) && f.state == n.state && f.requestFrom == n.requestFrom && Timed(f)
      && f.logFrom == n.logFrom
  {
  }

  lemma AnsweredReplies<V(!new), S(!new)>(n: Node<V, S>, f: Node<V, S>, reply: Reply<V, S>, from: Id)
    requires Sized(reply.node) && Silent(reply.node) && Occupied(n, reply.node) && reply.node.requestFrom == Some(from)
    ensures
      var p := PositionOf(n.peers, from);
      Replies(n, Answered(reply, p), from, SendReplicated(reply.index, reply.rejection))
  {
    hide Silent, Tells, Sent;
    var p := PositionOf(n.peers, from);
    var out := SendReplicated(reply.index, reply.rejection);
    SentParts(reply.node, p, out);
    if p < |n.peers| {
      assert n.peers[p].Some?;
      SentTells(reply.node, p, reply.node.peers[p].value, out);
    } else {
      SentTells(reply.node, p, from, out);
    }
  }

  /** The node after it has answered is the one after the request but for its queue. */
  lemma AnsweredParts<V, S>(reply: Reply<V, S>, p: nat)
    requires Sized(reply.node)
    ensures var r := Answered(reply, p); r == reply.node.(outbox := r.outbox, extraReply := r.extraReply)
  {
  }

  lemma TidySilent<V(!new), S(!new)>(n: Node<V, S>, grants: Grants)
    requires Tidy(n, grants)
    ensures Silent(n)
  {
  }

  lemma TableFollows<V, S>(f: Node<V, S>, m: Node<V, S>, r: Node<V, S>, from: Id)
    requires Follows(f, from) && TableOnly(f, m) && r == m.(outbox := r.outbox, extraReply := r.extraReply)
    ensures Follows(r, from)
  {
  }

  /** A request with at most one entry. */
  lemma EntryHeard<V(!new), S(!new)>(n: Node<V, S>, e: Envelope<V, S>)
      returns (index: U64, rejection: Option<Rejection>)
    requires Rests(n) && Clean(n) && Delivered(n, e) && Answerable(n, e.from)
    requires e.message.Append? && e.message.term >= n.state.hard.term
    ensures Step(n, e).error.None? && Follows(Step(n, e).node, e.from)
    ensures TakesEntry(LogSeen(n, e.message.term), n.cap, e.message.previous, e.message.entry, e.message.commit,
                       Step(n, e).node.state, index, rejection)
    ensures Replies(n, Step(n, e).node, e.from, SendReplicated(index, rejection))
  {
    hide Tidy, Goes, Follows, Seeing, Followed, Appended, Step, TakesEntry, Replies, Listens, DynamicOperations.Follows;
    RestsListens(n);
    StepHears(n, e);
    var f := FollowingParts(n, e);
    var m := e.message;
    FollowsParts(n.state, f, {});
    AppendedTakes(f, m.previous, m.entry, m.commit);
    AppendedSound(n.state, f, {}, m.previous, m.entry, m.commit);
    var reply := Appended(f, m.previous, m.entry, m.commit);
    FollowsParts(n.state, reply.node, {});
    HeardSettles(n, e);
    Concludes(n, f, reply, e.from);
    index, rejection := reply.index, reply.rejection;
  }

  lemma FollowsParts<V(!new), S(!new)>(d: Checkpoint<V, S>, n: Node<V, S>, grants: Grants)
    requires DynamicOperations.Follows(d, n, grants)
    ensures Goes(d, n) && Silent(n) && n.role == Follower && n.prevoting.None? && Steady(n) && WellFormed(n.state)
  {
    TidySilent(n, grants);
    GoesSteady(d, n);
  }

  lemma Concludes<V(!new), S(!new)>(n: Node<V, S>, f: Node<V, S>, reply: Reply<V, S>, from: Id)
    requires Follows(f, from) && TableOnly(f, reply.node) && Silent(reply.node) && Occupied(f, reply.node)
    requires f.peers == n.peers && f.requestFrom == Some(from)
    ensures
      var r := Answered(reply, PositionOf(n.peers, from));
      && Follows(r, from) && r.state == reply.node.state
      && Replies(n, r, from, SendReplicated(reply.index, reply.rejection))
  {
    hide Silent, Replies, Follows, Answered;
    AnsweredReplies(n, f, reply, from);
    AnsweredParts(reply, PositionOf(n.peers, from));
    TableFollows(f, reply.node, Answered(reply, PositionOf(n.peers, from)), from);
  }

  /** What a current request comes down to. */
  lemma HeardSettles<V(!new), S(!new)>(n: Node<V, S>, e: Envelope<V, S>)
    requires Rests(n) && Answerable(n, e.from) && e.message.term >= n.state.hard.term
    requires e.message.Append? || e.message.AppendBatch? || e.message.Install?
    ensures Sized(Seeing(n, e)) && Timed(Seeing(n, e))
    ensures
      var o, p, m := Seeing(n, e), PositionOf(n.peers, e.from), e.message;
      var f := Followed(o, Some(e.from));
      Settled(o, p, e.from, m) ==
      match m
      case Append(_, previous, entry, commit) => Answered(Appended(f, previous, entry, commit), p)
      case AppendBatch(_, previous, entries, commit) =>
        Answered(BatchFrom(f, previous, entries, commit, false, (previous.index, None)), p)
      case Install(_, snapshot) => Answered(InstalledBy(f, snapshot), p)
      case _ => o
  {
    hide Seeing, Followed, Appended, BatchFrom, InstalledBy, Answered, Listens;
    RestsListens(n);
    SeeingParts(n, e);
  }

  /** A batch. */
  lemma BatchHeard<V(!new), S(!new)>(n: Node<V, S>, e: Envelope<V, S>)
      returns (index: U64, rejection: Option<Rejection>)
    requires Rests(n) && Clean(n) && Delivered(n, e) && Answerable(n, e.from)
    requires e.message.AppendBatch? && e.message.term >= n.state.hard.term
    ensures Step(n, e).error.None? && Follows(Step(n, e).node, e.from) && e.message.entries != []
    ensures TakesBatch(LogSeen(n, e.message.term), n.cap, e.message.previous, e.message.entries, e.message.commit,
                       Step(n, e).node.state, index, rejection)
    ensures Replies(n, Step(n, e).node, e.from, SendReplicated(index, rejection))
  {
    hide Tidy, Goes, Follows, Seeing, Followed, BatchFrom, Step, TakesBatch, Replies, Listens,
         DynamicOperations.Follows,
         ValidBatch;
    RestsListens(n);
    StepHears(n, e);
    var f := FollowingParts(n, e);
    var m := e.message;
    FollowsParts(n.state, f, {});
    BatchTakes(n.state, f, m.previous, m.entries, m.commit);
    BatchSound(n.state, f, {}, m.previous, m.entries, m.commit, false, (m.previous.index, None));
    var reply := BatchFrom(f, m.previous, m.entries, m.commit, false, (m.previous.index, None));
    FollowsParts(n.state, reply.node, {});
    HeardSettles(n, e);
    Concludes(n, f, reply, e.from);
    index, rejection := reply.index, reply.rejection;
  }

  /** A snapshot. */
  lemma SnapshotHeard<V(!new), S(!new)>(n: Node<V, S>, e: Envelope<V, S>)
      returns (index: U64, rejection: Option<Rejection>)
    requires Rests(n) && Clean(n) && Delivered(n, e) && Answerable(n, e.from)
    requires e.message.Install? && e.message.term >= n.state.hard.term
    ensures Step(n, e).error.None? && Follows(Step(n, e).node, e.from)
    ensures TakesSnapshot(LogSeen(n, e.message.term), e.message.snapshot, Step(n, e).node.state, index, rejection)
    ensures Replies(n, Step(n, e).node, e.from, SendReplicated(index, rejection))
  {
    hide Tidy, Goes, Follows, Seeing, Followed, InstalledBy, Step, TakesSnapshot, Replies, Listens,
         DynamicOperations.Follows;
    RestsListens(n);
    StepHears(n, e);
    var f := FollowingParts(n, e);
    FollowsParts(n.state, f, {});
    SnapshotTerm(e.message);
    InstalledTakes(f, e.message.snapshot);
    InstalledSound(n.state, f, {}, e.message.snapshot);
    var reply := InstalledBy(f, e.message.snapshot);
    FollowsParts(n.state, reply.node, {});
    HeardSettles(n, e);
    Concludes(n, f, reply, e.from);
    index, rejection := reply.index, reply.rejection;
  }

  lemma SnapshotTerm<V, S>(m: Message<V, S>)
    requires m.Install? && ValidMessage(m)
    ensures 0 < m.snapshot.last.term <= m.term
  {
  }

  // ---- What is turned down.

  /** The place a request of an older term was about. */
  ghost function AskedAt<V, S>(m: Message<V, S>): U64
    requires m.Append? || m.AppendBatch? || m.Install?
  {
    if m.Install? then m.snapshot.last.index else m.previous.index
  }

  /** Nothing changes, and the refusal shows the sender the newer term. */
  ghost predicate RefusesOld<V, S>(n: Node<V, S>, r: Node<V, S>, from: Id, m: Message<V, S>)
    requires m.Append? || m.AppendBatch? || m.Install?
  {
    && r == n.(requestFrom := Some(from), outbox := r.outbox, extraReply := r.extraReply)
    && Tells(r, Only(from), SendReplicated(AskedAt(m), Some(Conflict(1))))
  }

  /** A request of an older term is turned down. */
  lemma OldRequestRefused<V, S>(n: Node<V, S>, e: Envelope<V, S>)
    requires Listens(n) && Delivered(n, e) && Answerable(n, e.from) && e.message.term < n.state.hard.term
    requires e.message.Append? || e.message.AppendBatch? || e.message.Install?
    ensures Step(n, e).error.None? && RefusesOld(n, Step(n, e).node, e.from, e.message)
  {
    hide Step, Tells, Sent, Listens, ValidMessage;
    StepHears(n, e);
    SeesNothing(n, e);
    SeeingParts(n, e);
    var o, p := Seeing(n, e), PositionOf(n.peers, e.from);
    var out := SendReplicated(AskedAt(e.message), Some(Conflict(1)));
    SentTells(o, p, e.from, out);
    SentParts(o, p, out);
    assert Settled(o, p, e.from, e.message) == Sent(o, p, out);
  }

  /** An answer that is not for a leader of its term changes nothing, except that a newer term is taken over. */
  lemma AnswerIgnored<V, S>(n: Node<V, S>, e: Envelope<V, S>)
    requires Listens(n) && Delivered(n, e) && Some(e.from) in n.peers && e.message.Replicated?
    requires n.role != Leader || e.message.term != n.state.hard.term
    ensures Step(n, e).error.None? && OnlyNotes(n, Step(n, e).node, e.message.term)
  {
    hide Step, Listens, ValidMessage, OnlyNotes;
    StepHears(n, e);
    SeeingParts(n, e);
    NotesOnly(n, e);
  }

  /** The senders a message is accepted from: peers, and strangers where the membership may have changed. */
  ghost predicate Welcome<V, S>(n: Node<V, S>, e: Envelope<V, S>) {
    || Some(e.from) in n.peers
    || (n.hooks.Some? && match e.message
                         case PreVoted(_, _, _) => false
                         case Voted(_, _) => false
                         case Replicated(_, _, _) => false
                         case _ => true)
  }

  /**
   * A message is refused only if something waits to be saved or sent, or it is no message for this
   * node; then nothing changes.
   */
  lemma RefusedExactly<V, S>(n: Node<V, S>, e: Envelope<V, S>)
    requires Sized(n) && Timed(n)
    ensures
      var r := Step(n, e);
      && r.error == (if !AtRest(n) then Some(Busy)
                     else if !Welcome(n, e) || !Delivered(n, e) then Some(Error.Message) else None)
      && (r.error.Some? ==> r.node == n)
  {
    hide AtRest, Available, Received, ValidMessage;
    RestIsAvailable(n);
    if Some(e.from) in n.peers {
      SeatedPosition(n.peers, e.from);
    }
  }
}
