/**
 * Sender and validator agree: whatever a sound node hands out passes the receiver's
 * structural check, and a clean node with an occupied outbox always has a message.
 */
module SentMessages {
  import opened Types
  import opened Checkpoints
  import opened Memberships
  import opened NodeModel
  import opened LocalHistory
  import opened NodeHistory
  import opened SlotTables
  import opened DynamicNodes

  lemma LastValid<V, S>(s: Checkpoint<V, S>, term: U64)
    requires WellFormed(s) && s.hard.term <= term
    ensures ValidId(Last(s), term)
  {
    LastIndex(s);
  }

  lemma HeldValid<V, S>(s: Checkpoint<V, S>, k: U64)
    requires WellFormed(s) && IdAt(s, k).Some?
    ensures ValidId(IdAt(s, k).value, s.hard.term) && IdAt(s, k).value.index == k
  {
    GetContiguous(s, k);
  }

  lemma NextHeldValid<V, S>(s: Checkpoint<V, S>, k: U64)
    requires WellFormed(s) && k > 0 && IdAt(s, k - 1).Some? && Get(s, k).Some?
    ensures ValidNext(IdAt(s, k - 1).value, Get(s, k).value.id, s.hard.term)
  {
    GetContiguous(s, k - 1);
    GetContiguous(s, k);
  }

  /** Reading past the end gives nothing from there on. */
  lemma NothingAfter<V, S>(s: Checkpoint<V, S>, k: U64, j: U64)
    requires WellFormed(s) && Base(s).index < k <= j && Get(s, k).None?
    ensures Get(s, j).None?
  {
    GetContiguous(s, k);
    GetContiguous(s, j);
  }

  function Window<V, S>(s: Checkpoint<V, S>, first: U64, skip: nat): (r: seq<Option<Entry<V>>>)
    requires skip <= MAX_APPEND_ENTRIES
    ensures |r| == MAX_APPEND_ENTRIES - skip
  {
    seq(MAX_APPEND_ENTRIES - skip, k requires 0 <= k =>
      if first + skip + k > MAX_U64 then None else Get(s, first + skip + k))
  }

  /** The rest of a batch from `skip` on is a valid continuation of what precedes it. */
  lemma {:induction false} WindowValid<V, S>(s: Checkpoint<V, S>, first: U64, skip: nat)
    requires WellFormed(s) && skip <= MAX_APPEND_ENTRIES && Base(s).index < first
    requires first + skip - 1 <= MAX_U64 && IdAt(s, first + skip - 1).Some?
    ensures ValidBatch(IdAt(s, first + skip - 1).value, Window(s, first, skip), s.hard.term)
    decreases MAX_APPEND_ENTRIES - skip
  {
    hide WellFormed, Get, IdAt;
    var w := Window(s, first, skip);
    if w != [] {
      if w[0].None? {
        forall k | 0 <= k < |w| ensures w[k].None? {
          if first + skip + k <= MAX_U64 {
            NothingAfter(s, first + skip, first + skip + k);
          }
        }
      } else {
        NextHeldValid(s, first + skip);
        GetIdAt(s, first + skip);
        assert w[1..] == Window(s, first, skip + 1);
        WindowValid(s, first, skip + 1);
      }
    }
  }

  lemma GetIdAt<V, S>(s: Checkpoint<V, S>, k: U64)
    requires WellFormed(s) && Get(s, k).Some?
    ensures IdAt(s, k) == Some(Get(s, k).value.id)
  {
    GetContiguous(s, k);
  }

  lemma BatchValid<V, S>(n: Node<V, S>, first: U64)
    requires WellFormed(n.state) && Base(n.state).index < first && IdAt(n.state, first - 1).Some?
    requires first < MAX_U64 && Get(n.state, first + 1).Some?
    ensures
      var b := BatchAt(n, first);
      |b| == MAX_APPEND_ENTRIES && b[0].Some? && ValidBatch(IdAt(n.state, first - 1).value, b, n.state.hard.term)
  {
    assert BatchAt(n, first) == Window(n.state, first, 0);
    WindowValid(n.state, first, 0);
    GetContiguous(n.state, first);
    GetContiguous(n.state, first + 1);
  }

  lemma AppendValid<V, S>(n: Node<V, S>, next: U64)
    requires WellFormed(n.state) && next > Base(n.state).index && IdAt(n.state, next - 1).Some?
    requires n.state.hard.term > 0
    ensures ValidMessage(Message<V, S>.Append(
              n.state.hard.term, IdAt(n.state, next - 1).value, Get(n.state, next), n.state.hard.commit))
  {
    hide WellFormed, IdAt, Get;
    HeldValid(n.state, next - 1);
    if Get(n.state, next).Some? {
      NextHeldValid(n.state, next);
    }
  }

  lemma AppendBatchValid<V, S>(n: Node<V, S>, next: U64)
    requires WellFormed(n.state) && next > Base(n.state).index && IdAt(n.state, next - 1).Some?
    requires n.state.hard.term > 0 && next < MAX_U64 && Get(n.state, next + 1).Some?
    ensures ValidMessage(Message<V, S>.AppendBatch(
              n.state.hard.term, IdAt(n.state, next - 1).value, BatchAt(n, next), n.state.hard.commit))
  {
    hide WellFormed, IdAt, Get, BatchAt, ValidBatch;
    HeldValid(n.state, next - 1);
    BatchValid(n, next);
  }

  /** A position inside the log has a predecessor that is held, or a snapshot instead. */
  lemma ReplicateRenders<V, S>(n: Node<V, S>, p: nat)
    requires Sized(n) && WellFormed(n.state) && p < |n.peers| && Sendable(n, n.next[p], SendReplicate)
    ensures Rendered(n, p, SendReplicate).Some? && ValidMessage(Rendered(n, p, SendReplicate).value)
  {
    hide BatchAt, IdAt, Get;
    var next := n.next[p];
    if next > Base(n.state).index {
      GetContiguous(n.state, next - 1);
      LastIndex(n.state);
      hide WellFormed, Contiguous, ValidMessage;
      AppendValid(n, next);
      if next < MAX_U64 && Get(n.state, next + 1).Some? {
        AppendBatchValid(n, next);
      }
    }
  }

  lemma RendersValid<V, S>(n: Node<V, S>, p: nat, out: Outbound)
    requires Sized(n) && WellFormed(n.state)
    requires p < |n.peers| ==> Sendable(n, n.next[p], out)
    requires p >= |n.peers| ==> !out.SendReplicate? && Sendable(n, 1, out)
    ensures Rendered(n, p, out).Some? && ValidMessage(Rendered(n, p, out).value)
  {
    hide WellFormed;
    if out.SendReplicate? {
      ReplicateRenders(n, p);
    } else {
      LastValid(n.state, n.state.hard.term);
      if out.SendPreVote? {
        LastValid(n.state, out.campaign);
      }
    }
  }

  /** With nothing to save and something queued there is a message, and it is valid. */
  lemma NextMessageValid<V(!new), S(!new)>(n: Node<V, S>, grants: Grants)
    requires Sized(n) && WellFormed(n.state) && Sound(n, grants)
    ensures !n.dirty && !Available(n) ==> NextMessage(n).1.Some?
    ensures NextMessage(n).1.Some? ==>
              && !n.dirty && NextMessage(n).1.value.from == n.config.id
              && ValidMessage(NextMessage(n).1.value.message)
  {
    hide WellFormed, Seating, VotesReal, Bounded, Rendered, ValidMessage;
    var p := FirstOccupied(n.outbox);
    if !n.dirty {
      if p < |n.peers| {
        var taken := n.(outbox := n.outbox[p := None]);
        RendersValid(taken, p, n.outbox[p].value);
      } else if n.extraReply.Some? {
        var taken := n.(extraReply := None);
        RendersValid(taken, |n.peers|, n.extraReply.value.1);
      }
    }
  }

  /** Handing a message out keeps a node sound, with one message fewer. */
  lemma TakeSound<V(!new), S(!new)>(n: Node<V, S>, grants: Grants)
    requires Sized(n) && Sound(n, grants)
    ensures Sound(NextMessage(n).0, grants)
  {
    hide Rendered, Seating;
    TakeSeating(n);
  }

  lemma TakeSeating<V(!new), S(!new)>(n: Node<V, S>)
    requires Sized(n) && Seating(n)
    ensures Seating(NextMessage(n).0)
  {
    hide Rendered, Seating;
    SeatingFlags(n, NextMessage(n).0);
  }

  lemma TakeGoes<V, S>(d: Checkpoint<V, S>, n: Node<V, S>)
    requires Goes(d, n)
    ensures Goes(d, NextMessage(n).0)
  {
    hide Continues, Rendered;
    GoesSame(d, n, NextMessage(n).0);
  }
}
