/** What a step of one voter may change, and what no step can undo. */
module RaftGrowth {
  import opened Types
  import opened FiniteSets
  import opened RaftHistory

  lemma MajorityGrows(a: set<Id>, b: set<Id>, whole: set<Id>)
    requires Majority(a, whole) && a <= b <= whole
    ensures Majority(b, whole)
  {
    SubsetCardinality(a, b);
  }

  /** Two majorities of the same voters share a voter. */
  lemma MajoritiesMeet(a: set<Id>, b: set<Id>, whole: set<Id>) returns (j: Id)
    requires Majority(a, whole) && Majority(b, whole)
    ensures j in a && j in b
  {
    if a * b == {} {
      assert |a + b| == |a| + |b|;
      SubsetCardinality(a + b, whole);
      assert false;
    }
    j :| j in a * b;
  }

  /** h1 is h after durable effects of voter i alone. */
  ghost predicate Grows<V>(h: History<V>, h1: History<V>, i: Id) {
    && h1.voters == h.voters && h1.term.Keys == h.term.Keys && h1.log.Keys == h.log.Keys
    && (forall j | j in h.term && j != i :: h1.term[j] == h.term[j])
    && (forall j | j in h.log && j != i :: h1.log[j] == h.log[j])
    && (i in h.term ==> h.term[i] <= h1.term[i])
    && BallotsGrow(h, h1, i) && PlatformsGrow(h, h1, i) && ReignsGrow(h, h1, i) && AcksGrow(h, h1, i)
  }

  ghost predicate BallotsGrow<V>(h: History<V>, h1: History<V>, i: Id) {
    && (forall b | b in h.ballots :: b in h1.ballots && h1.ballots[b] == h.ballots[b])
    && (forall b | b in h1.ballots && b !in h.ballots :: b.1 == i)
  }

  ghost predicate PlatformsGrow<V>(h: History<V>, h1: History<V>, i: Id) {
    && (forall b | b in h.platforms :: b in h1.platforms && h1.platforms[b] == h.platforms[b])
    && (forall b | b in h1.platforms && b !in h.platforms :: b.1 == i)
  }

  ghost predicate ReignsGrow<V>(h: History<V>, h1: History<V>, i: Id) {
    && (forall t: nat | t in h.reigns ::
          && t in h1.reigns && h1.reigns[t].leader == h.reigns[t].leader
          && Agree(h.reigns[t].log, h1.reigns[t].log, |h.reigns[t].log|)
          && (h.reigns[t].leader != i ==> h1.reigns[t] == h.reigns[t]))
    && (forall t: nat | t in h1.reigns && t !in h.reigns :: h1.reigns[t].leader == i)
  }

  ghost predicate AcksGrow<V>(h: History<V>, h1: History<V>, i: Id) {
    forall t: nat, j | (t, j) in h.acks || (t, j) in h1.acks ::
      && Ack(h, t, j) <= Ack(h1, t, j)
      && (j != i || j !in h.term || t < h.term[i] ==> Ack(h1, t, j) == Ack(h, t, j))
  }

  lemma AgreeTrans<V>(a: Log<V>, b: Log<V>, c: Log<V>, n: nat, m: nat)
    requires Agree(a, b, n) && Agree(b, c, m) && n <= m
    ensures Agree(a, c, n)
  {
  }

  lemma AckStable<V>(h: History<V>, h1: History<V>, i: Id, t: nat, j: Id)
    requires Grows(h, h1, i)
    ensures Ack(h, t, j) <= Ack(h1, t, j)
    ensures j != i || (i in h.term && t < h.term[i]) ==> Ack(h1, t, j) == Ack(h, t, j)
  {
    if (t, j) in h.acks || (t, j) in h1.acks {
    }
  }

  lemma OwnStable<V>(h: History<V>, h1: History<V>, i: Id, t: nat, n: nat)
    requires ReignsGrow(h, h1, i) && Own(h, t, n)
    ensures Own(h1, t, n)
  {
  }

  lemma SupportersStable<V>(h: History<V>, h1: History<V>, i: Id, t: nat, c: Id)
    requires Grows(h, h1, i)
    ensures Supporters(h, t, c) <= Supporters(h1, t, c) <= h.voters
    ensures Majority(Supporters(h, t, c), h.voters) ==> Majority(Supporters(h1, t, c), h1.voters)
  {
    if Majority(Supporters(h, t, c), h.voters) {
      MajorityGrows(Supporters(h, t, c), Supporters(h1, t, c), h.voters);
    }
  }

  lemma ChosenStable<V>(h: History<V>, h1: History<V>, i: Id, t: nat, n: nat)
    requires Grows(h, h1, i) && Chosen(h, t, n)
    ensures Chosen(h1, t, n)
  {
    forall j | j in Backers(h, t, n) ensures j in Backers(h1, t, n) {
      AckStable(h, h1, i, t, j);
    }
    MajorityGrows(Backers(h, t, n), Backers(h1, t, n), h.voters);
    OwnStable(h, h1, i, t, n);
  }

  lemma UnchoosableStable<V>(h: History<V>, h1: History<V>, i: Id, t: nat, n: nat)
    requires Grows(h, h1, i) && Unchoosable(h, t, n)
    ensures Unchoosable(h1, t, n)
  {
    forall j | j in Blockers(h, t, n) ensures j in Blockers(h1, t, n) {
      AckStable(h, h1, i, t, j);
    }
    MajorityGrows(Blockers(h, t, n), Blockers(h1, t, n), h.voters);
  }

  lemma CarriesStable<V>(h: History<V>, h1: History<V>, i: Id, log: Log<V>, t: nat, n: nat)
    requires Grows(h, h1, i)
    requires t in h.reigns && n <= |h.reigns[t].log| && Carries(h, log, t, n)
    ensures t in h1.reigns && Carries(h1, log, t, n)
  {
    if Agree(log, h.reigns[t].log, n) {
      AgreeTrans(log, h.reigns[t].log, h1.reigns[t].log, n, |h.reigns[t].log|);
    } else {
      UnchoosableStable(h, h1, i, t, n);
    }
  }

  lemma RootedStable<V>(h: History<V>, h1: History<V>, i: Id, log: Log<V>)
    requires ReignsGrow(h, h1, i) && Rooted(h, log)
    ensures Rooted(h1, log)
  {
    forall k | 0 <= k < |log|
      ensures log[k].id.index == k + 1 && log[k].id.term in h1.reigns
      ensures Agree(log, h1.reigns[log[k].id.term].log, k + 1)
    {
      var t := log[k].id.term;
      AgreeTrans(log, h.reigns[t].log, h1.reigns[t].log, k + 1, |h.reigns[t].log|);
    }
  }

  lemma GrowsRefl<V>(h: History<V>, i: Id)
    ensures Grows(h, h, i)
  {
  }

  lemma GrowsTrans<V>(h: History<V>, h1: History<V>, h2: History<V>, i: Id)
    requires Grows(h, h1, i) && Grows(h1, h2, i)
    ensures Grows(h, h2, i)
  {
    forall t: nat | t in h.reigns
      ensures t in h2.reigns && Agree(h.reigns[t].log, h2.reigns[t].log, |h.reigns[t].log|)
    {
      AgreeTrans(h.reigns[t].log, h1.reigns[t].log, h2.reigns[t].log, |h.reigns[t].log|, |h1.reigns[t].log|);
    }
    forall t: nat, j
      ensures Ack(h, t, j) <= Ack(h2, t, j)
      ensures j != i || j !in h.term || t < h.term[i] ==> Ack(h2, t, j) == Ack(h, t, j)
    {
      if (t, j) in h.acks || (t, j) in h1.acks || (t, j) in h2.acks {
      }
    }
  }

  // ---- Chosen and Unchoosable exclude each other.

  lemma ChosenNotUnchoosable<V>(h: History<V>, t: nat, n: nat)
    requires Chosen(h, t, n)
    ensures !Unchoosable(h, t, n)
  {
    if Unchoosable(h, t, n) {
      var j := MajoritiesMeet(Backers(h, t, n), Blockers(h, t, n), h.voters);
      assert false;
    }
  }
}
