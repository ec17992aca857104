/**
 * What waits to be sent, and to whom, said by identities instead of slots
 * (jarl/src/node.rs, send, reply and broadcast).
 */
module Queues {
  import opened Types
  import opened Checkpoints
  import opened Memberships
  import opened NodeModel
  import opened LocalHistory
  import opened NodeHistory
  import opened SlotTables
  import opened DynamicNodes

  /** This waits to be sent to this identity. */
  ghost predicate Waits<V, S>(n: Node<V, S>, id: Id, out: Outbound) {
    || (exists p :: 0 <= p < |n.peers| && p < |n.outbox| && n.peers[p] == Some(id) && n.outbox[p] == Some(out))
    || n.extraReply == Some((id, out))
  }

  /** Exactly these identities are told exactly this. */
  ghost predicate Tells<V, S>(n: Node<V, S>, whom: Id -> bool, out: Outbound) {
    forall id, o :: Waits(n, id, o) <==> whom(id) && o == out
  }

  /** Nobody is told anything. */
  ghost predicate Quiet<V, S>(n: Node<V, S>) {
    forall id, o :: !Waits(n, id, o)
  }

  /** Between operations, with nothing left to save or send. */
  ghost predicate AtRest<V, S>(n: Node<V, S>) {
    !n.dirty && Silent(n)
  }

  ghost function Only(x: Id): Id -> bool { id => id == x }

  ghost function Fellows<V, S>(n: Node<V, S>): Id -> bool {
    id => id != n.config.id && Contains(n.membership, id)
  }

  ghost function FellowVoters<V, S>(n: Node<V, S>): Id -> bool {
    id => id != n.config.id && IsVoter(n.membership, id)
  }

  lemma RestIsAvailable<V, S>(n: Node<V, S>)
    ensures AtRest(n) <==> Available(n)
  {
  }

  lemma SilentIsQuiet<V, S>(n: Node<V, S>)
    requires Silent(n)
    ensures Quiet(n)
  {
  }

  /** A reply into an empty queue. */
  lemma SentTells<V, S>(n: Node<V, S>, peer: nat, to: Id, out: Outbound)
    requires Sized(n) && Silent(n)
    requires if peer < |n.peers| then n.peers[peer] == Some(to) else n.requestFrom == Some(to)
    ensures Tells(Sent(n, peer, out), Only(to), out)
  {
    var r := Sent(n, peer, out);
    forall id, o ensures Waits(r, id, o) <==> id == to && o == out {
      if peer < |n.peers| {
        assert r.peers[peer] == Some(to) && r.outbox[peer] == Some(out);
      }
    }
  }

  /** A member has a slot, and it is not the node's own unless the member is. */
  lemma MemberSlot<V(!new), S(!new)>(n: Node<V, S>, id: Id) returns (p: nat)
    requires Seating(n) && Contains(n.membership, id)
    ensures p < |n.peers| && n.peers[p] == Some(id) && (p == n.local <==> id == n.config.id)
  {
    hide InForce, Fits, IsVoter, Proper;
    var k :| 0 <= k < |n.membership.slots| && n.membership.slots[k].Some? && n.membership.slots[k].value.id == id;
    assert Some(n.membership.slots[k].value.id) in n.peers;
    p :| 0 <= p < |n.peers| && n.peers[p] == Some(id);
  }

  lemma OwnSlot<V(!new), S(!new)>(n: Node<V, S>, p: nat)
    requires Seating(n) && p < |n.peers| && n.peers[p].Some?
    ensures p == n.local <==> n.peers[p].value == n.config.id
  {
    hide InForce, Fits, IsVoter, Proper;
  }

  /** Everybody else who passes the test is told, and nobody but them. */
  lemma SentToAllTells<V(!new), S(!new)>(n: Node<V, S>, wanted: Id -> bool, out: Outbound, whom: Id -> bool)
    requires Sized(n) && Seating(n) && Silent(n)
    requires forall id :: wanted(id) ==> Contains(n.membership, id)
    requires forall id :: whom(id) <==> id != n.config.id && wanted(id)
    ensures Tells(SentToAll(n, wanted, out), whom, out)
  {
    hide Seating, Contains;
    var r := SentToAll(n, wanted, out);
    forall id, o ensures Waits(r, id, o) <==> whom(id) && o == out {
      if Waits(r, id, o) {
        var p :| 0 <= p < |r.peers| && r.peers[p] == Some(id) && r.outbox[p] == Some(o);
        OwnSlot(n, p);
      }
      if whom(id) {
        var p := MemberSlot(n, id);
        assert r.peers[p] == Some(id) && r.outbox[p] == Some(out);
      }
    }
  }

  lemma BroadcastTells<V(!new), S(!new)>(n: Node<V, S>)
    requires Sized(n) && Seating(n) && Silent(n)
    ensures Tells(Broadcast(n), Fellows(Broadcast(n)), SendReplicate)
    ensures Broadcast(n) == n.(outbox := Broadcast(n).outbox)
  {
    hide Contains;
    SentToAllTells(n, MembersOf(n.membership), SendReplicate, Fellows(Broadcast(n)));
  }

  lemma VotersTold<V(!new), S(!new)>(n: Node<V, S>, out: Outbound)
    requires Sized(n) && Seating(n) && Silent(n)
    ensures
      var r := SentToAll(n, VotersOf(n.membership), out);
      Tells(r, FellowVoters(r), out) && r == n.(outbox := r.outbox)
  {
    var r := SentToAll(n, VotersOf(n.membership), out);
    forall id ensures IsVoter(n.membership, id) ==> Contains(n.membership, id) {
    }
    hide Contains, IsVoter;
    SentToAllTells(n, VotersOf(n.membership), out, FellowVoters(r));
  }
}
