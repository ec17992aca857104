/**
 * What leaves a node, said without the functions that render it: one message at a time in
 * slot order, each saying what was queued, as the node stands when it leaves
 * (jarl/src/node.rs, next_message).
 */
module HandedOut {
  import opened Types
  import opened Checkpoints
  import opened NodeModel
  import opened LocalHistory
  import opened SlotTables
  import opened DynamicNodes
  import opened SentMessages
  import opened Queues

  // ---- The queue.

  /** What waits in the slots, in their order. */
  ghost function Line(peers: seq<Option<Id>>, outbox: seq<Option<Outbound>>): seq<(Id, Outbound)>
    requires |outbox| == |peers|
  {
    if peers == [] then []
    else
      (if peers[0].Some? && outbox[0].Some? then [(peers[0].value, outbox[0].value)] else [])
      + Line(peers[1..], outbox[1..])
  }

  /** Everything that waits; a reply to somebody without a slot comes last. */
  ghost function Queue<V, S>(n: Node<V, S>): seq<(Id, Outbound)>
    requires Sized(n)
  {
    Line(n.peers, n.outbox) + if n.extraReply.Some? then [n.extraReply.value] else []
  }

  /** Taking what is in the first occupied slot takes the head of the line. */
  lemma {:induction false} LineHead(peers: seq<Option<Id>>, outbox: seq<Option<Outbound>>)
    requires |outbox| == |peers| && forall p | 0 <= p < |peers| && outbox[p].Some? :: peers[p].Some?
    ensures
      var p := FirstOccupied(outbox);
      if p == |peers| then Line(peers, outbox) == []
      else Line(peers, outbox) == [(peers[p].value, outbox[p].value)] + Line(peers, outbox[p := None])
    decreases |peers|
  {
    if peers != [] {
      var p := FirstOccupied(outbox);
      if outbox[0].None? {
        LineHead(peers[1..], outbox[1..]);
        if p < |peers| {
          assert outbox[p := None][1..] == outbox[1..][p - 1 := None];
        }
      } else {
        assert outbox[0 := None][1..] == outbox[1..];
      }
    }
  }

  // ---- The messages.

  /** The entries a request brings along. */
  ghost function Brings<V, S>(m: Message<V, S>): seq<Option<Entry<V>>> {
    match m
    case Append(_, _, entry, _) => [entry]
    case AppendBatch(_, _, entries, _) => entries
    case _ => []
  }

  /**
   * The request for a peer that is next to be sent `next`: the snapshot if the log no
   * longer goes back that far; otherwise what precedes `next`, the leader's own commit
   * index, and the log from `next` on, sixteen places of it where batches are spoken and
   * more than one entry is left, and one otherwise.
   */
  ghost predicate Requests<V, S>(n: Node<V, S>, next: U64, m: Message<V, S>) {
    if next <= Base(n.state).index then
      n.state.snapshot.Some? && m == Install(n.state.hard.term, n.state.snapshot.value)
    else
      && (m.Append? || m.AppendBatch?)
      && m.term == n.state.hard.term && m.commit == n.state.hard.commit && IdAt(n.state, next - 1) == Some(m.previous)
      && (m.AppendBatch? <==> n.hooks.Some? && next < Last(n.state).index)
      && |Brings(m)| == (if m.AppendBatch? then MAX_APPEND_ENTRIES else 1)
      && forall k | 0 <= k < |Brings(m)| ::
           Brings(m)[k] == if next + k <= Last(n.state).index then Get(n.state, next + k) else None
  }

  /** The message says what was queued, in the node's term and with its log as they are now. */
  ghost predicate Says<V, S>(n: Node<V, S>, to: Id, out: Outbound, m: Message<V, S>) {
    var term, last := n.state.hard.term, Last(n.state);
    match out
    case SendPreVote(campaign) => m == PreVote(campaign, last)
    case SendPreVoted(campaign, granted) => m == PreVoted(term, campaign, granted)
    case SendVote => m == Vote(term, last)
    case SendVoted(granted) => m == Voted(term, granted)
    case SendReplicated(index, rejection) => m == Message<V, S>.Replicated(term, index, rejection)
    case SendReplicate =>
      exists p :: 0 <= p < |n.peers| && p < |n.next| && n.peers[p] == Some(to) && Requests(n, n.next[p], m)
  }

  /** Reading sixteen places from an index on. */
  lemma BatchReads<V, S>(n: Node<V, S>, first: U64)
    requires WellFormed(n.state) && Base(n.state).index < first
    ensures |BatchAt(n, first)| == MAX_APPEND_ENTRIES
    ensures forall k | 0 <= k < MAX_APPEND_ENTRIES ::
              BatchAt(n, first)[k] == if first + k <= Last(n.state).index then Get(n.state, first + k) else None
  {
    LastIndex(n.state);
    hide WellFormed, Contiguous, Last;
    forall k | 0 <= k < MAX_APPEND_ENTRIES
      ensures BatchAt(n, first)[k] == if first + k <= Last(n.state).index then Get(n.state, first + k) else None
    {
      if first + k <= MAX_U64 {
        assert BatchAt(n, first)[k] == Get(n.state, first + k);
      }
    }
  }

  lemma ReadsOne<V, S>(n: Node<V, S>, next: U64)
    requires WellFormed(n.state) && Base(n.state).index < next
    ensures next > Last(n.state).index ==> Get(n.state, next).None?
    ensures next < MAX_U64 ==> (Get(n.state, next + 1).Some? <==> next < Last(n.state).index)
  {
    GetContiguous(n.state, next);
    if next < MAX_U64 {
      GetContiguous(n.state, next + 1);
    }
  }

  lemma RendersRequest<V, S>(n: Node<V, S>, p: nat)
    requires Sized(n) && p < |n.peers| && Rendered(n, p, SendReplicate).Some?
    ensures n.next[p] <= Base(n.state).index ==> Requests(n, n.next[p], Rendered(n, p, SendReplicate).value)
    ensures
      var next := n.next[p];
      next > Base(n.state).index ==>
        && IdAt(n.state, next - 1).Some?
        && Rendered(n, p, SendReplicate).value ==
           if n.hooks.Some? && next < MAX_U64 && Get(n.state, next + 1).Some?
           then AppendBatch(n.state.hard.term, IdAt(n.state, next - 1).value, BatchAt(n, next), n.state.hard.commit)
           else Append(n.state.hard.term, IdAt(n.state, next - 1).value, Get(n.state, next), n.state.hard.commit)
  {
    hide BatchAt, Get, IdAt;
  }

  lemma ReplicateRequests<V, S>(n: Node<V, S>, p: nat)
    requires Sized(n) && WellFormed(n.state) && p < |n.peers| && Sendable(n, n.next[p], SendReplicate)
    ensures Rendered(n, p, SendReplicate).Some? && Requests(n, n.next[p], Rendered(n, p, SendReplicate).value)
  {
    hide WellFormed, Rendered, BatchAt, Get, IdAt, Last, Base, Sendable;
    ReplicateRenders(n, p);
    RendersRequest(n, p);
    if n.next[p] > Base(n.state).index {
      ReadsOne(n, n.next[p]);
      BatchReads(n, n.next[p]);
    }
  }

  lemma RendersSays<V, S>(n: Node<V, S>, p: nat, to: Id, out: Outbound)
    requires Sized(n) && WellFormed(n.state)
    requires if p < |n.peers| then n.peers[p] == Some(to) && Sendable(n, n.next[p], out)
             else !out.SendReplicate? && Sendable(n, 1, out)
    ensures Rendered(n, p, out).Some? && Says(n, to, out, Rendered(n, p, out).value)
  {
    hide Requests, WellFormed;
    if out.SendReplicate? {
      ReplicateRequests(n, p);
    }
  }

  /**
   * The head of the queue leaves, addressed to whom it waited for and saying what was
   * queued; the rest of the queue, and everything else, stays.
   */
  ghost predicate Leaves<V, S>(n: Node<V, S>, r: Node<V, S>, e: Option<Envelope<V, S>>) {
    && Sized(n) && Sized(r)
    && if Queue(n) == [] then r == n && e.None?
       else
         && r == n.(outbox := r.outbox, extraReply := r.extraReply) && Queue(r) == Queue(n)[1..]
         && e.Some? && e.value.from == n.config.id && e.value.to == Queue(n)[0].0
         && Says(n, Queue(n)[0].0, Queue(n)[0].1, e.value.message)
  }

  /** A clean node hands out its queue one message at a time. */
  lemma HeadLeaves<V(!new), S(!new)>(n: Node<V, S>, grants: Grants)
    requires Sized(n) && WellFormed(n.state) && Sound(n, grants) && !n.dirty
    ensures Leaves(n, NextMessage(n).0, NextMessage(n).1)
  {
    hide WellFormed, Seating, VotesReal, Bounded, Rendered, Requests, Line, Sendable;
    var p := FirstOccupied(n.outbox);
    LineHead(n.peers, n.outbox);
    if p < |n.peers| {
      var taken := n.(outbox := n.outbox[p := None]);
      SendableFrame(n, taken, n.next[p], n.outbox[p].value);
      RendersSays(taken, p, n.peers[p].value, n.outbox[p].value);
      SaysFrame(n, taken, n.peers[p].value, n.outbox[p].value, Rendered(taken, p, n.outbox[p].value).value);
      hide Says;
    } else if n.extraReply.Some? {
      var taken := n.(extraReply := None);
      SendableFrame(n, taken, 1, n.extraReply.value.1);
      RendersSays(taken, |n.peers|, n.extraReply.value.0, n.extraReply.value.1);
      SaysFrame(n, taken, n.extraReply.value.0, n.extraReply.value.1,
                Rendered(taken, |n.peers|, n.extraReply.value.1).value);
      hide Says;
    }
  }

  lemma SendableFrame<V, S>(n: Node<V, S>, m: Node<V, S>, next: U64, out: Outbound)
    requires m.state == n.state
    ensures Sendable(m, next, out) == Sendable(n, next, out)
  {
  }

  lemma SaysFrame<V, S>(n: Node<V, S>, t: Node<V, S>, to: Id, out: Outbound, m: Message<V, S>)
    requires t.state == n.state && t.peers == n.peers && t.next == n.next && t.hooks == n.hooks
    ensures Says(t, to, out, m) == Says(n, to, out, m)
  {
  }
}
