/** Every step keeps `Safe`: the inductive heart of the safety proof. */
module RaftSafety {
  import opened Types
  import opened RaftHistory
  import opened RaftGrowth

  lemma GenesisSafe<V>(voters: set<Id>)
    requires voters != {}
    ensures Safe(Genesis<V>(voters))
  {
  }

  // ---- Consequences of Safe.

  lemma SupportersAgree<V>(h: History<V>, t: nat, a: Id, b: Id)
    requires Majority(Supporters(h, t, a), h.voters) && Majority(Supporters(h, t, b), h.voters)
    ensures a == b
  {
    var j := MajoritiesMeet(Supporters(h, t, a), Supporters(h, t, b), h.voters);
  }

  /** Log matching: logs with the same identity at a position agree up to it. */
  lemma LogsMatch<V>(h: History<V>, a: Log<V>, b: Log<V>, k: nat)
    requires Rooted(h, a) && Rooted(h, b)
    requires k < |a| && k < |b| && a[k].id.term == b[k].id.term
    ensures Agree(a, b, k + 1)
  {
  }

  /** A reign is led by whoever a majority supports in that term. */
  lemma SupportedLeads<V>(h: History<V>, t: nat, c: Id)
    requires ReignsOk(h) && t in h.reigns && Majority(Supporters(h, t, c), h.voters)
    ensures h.reigns[t].leader == c
  {
    SupportersAgree(h, t, c, h.reigns[t].leader);
  }

  // ---- Observe.

  lemma ObserveGrows<V>(h: History<V>, j: Id, t: nat)
    requires Domains(h) && j in h.voters && h.term[j] <= t
    ensures Grows(h, Observe(h, j, t), j)
  {
    forall s: nat, k ensures Ack(Observe(h, j, t), s, k) == Ack(h, s, k) {
    }
  }

  lemma KeepsReigns<V>(h: History<V>, h1: History<V>, i: Id)
    requires ReignsSafe(h) && Grows(h, h1, i) && h1.reigns == h.reigns
    ensures ReignsSafe(h1)
  {
    forall s: nat, t: nat, n: nat | s in h1.reigns && t < s && Own(h1, t, n)
      ensures Carries(h1, h1.reigns[s].log, t, n)
    {
      assert Own(h, t, n);
      CarriesStable(h, h1, i, h.reigns[s].log, t, n);
    }
  }

  lemma KeepsAll<V>(h: History<V>, h1: History<V>, i: Id)
    requires AcksKept(h) && ReignsSafe(h) && Grows(h, h1, i)
    requires h1.log == h.log && h1.reigns == h.reigns && h1.acks == h.acks
    ensures AcksKept(h1) && ReignsSafe(h1)
  {
    hide WellRooted;
    KeepsReigns(h, h1, i);
    forall t: nat, j, n: nat | (t, j) in h1.acks && j in h1.log && n <= h1.acks[(t, j)] && Own(h1, t, n)
      ensures Carries(h1, h1.log[j], t, n)
    {
      assert Own(h, t, n);
      CarriesStable(h, h1, i, h.log[j], t, n);
    }
  }

  /** Ballots cast before the step stay safe. */
  lemma KeepsBallot<V>(h: History<V>, h1: History<V>, i: Id, s: nat, t: nat, j: Id, n: nat)
    requires Domains(h) && BallotsOk(h) && AcksOk(h) && BallotsSafe(h) && Grows(h, h1, i) && AcksOk(h1)
    requires (s, j) in h.ballots && (s, h.ballots[(s, j)]) in h.platforms
    requires t < s && (t, j) in h1.acks && n <= h1.acks[(t, j)] && Own(h1, t, n)
    ensures Carries(h1, h1.platforms[(s, h.ballots[(s, j)])], t, n)
  {
    assert t < h.term[j];
    AckStable(h, h1, i, t, j);
    assert Ack(h, t, j) == Ack(h1, t, j) == h1.acks[(t, j)];
    assert (t, j) in h.acks;
    assert Agree(h.reigns[t].log, h1.reigns[t].log, |h.reigns[t].log|);
    assert Own(h, t, n);
    CarriesStable(h, h1, i, h.platforms[(s, h.ballots[(s, j)])], t, n);
  }

  /** Without new ballots, ballots stay safe. */
  lemma KeepsBallots<V>(h: History<V>, h1: History<V>, i: Id)
    requires Domains(h) && BallotsOk(h) && AcksOk(h) && BallotsSafe(h) && Grows(h, h1, i) && AcksOk(h1)
    requires h1.ballots == h.ballots && h1.platforms == h.platforms
    ensures BallotsSafe(h1)
  {
    forall s: nat, t: nat, j, n: nat |
      && (s, j) in h1.ballots && (s, h1.ballots[(s, j)]) in h1.platforms
      && t < s && (t, j) in h1.acks && n <= h1.acks[(t, j)] && Own(h1, t, n)
      ensures Carries(h1, h1.platforms[(s, h1.ballots[(s, j)])], t, n)
    {
      KeepsBallot(h, h1, i, s, t, j, n);
    }
  }

  lemma ReignStable<V>(h: History<V>, h1: History<V>, i: Id, t: nat)
    requires Grows(h, h1, i) && t in h.reigns && h1.reigns[t] == h.reigns[t] && ReignOk(h, t)
    ensures ReignOk(h1, t)
  {
    SupportersStable(h, h1, i, t, h.reigns[t].leader);
    RootedStable(h, h1, i, h.reigns[t].log);
  }

  lemma ReignsStable<V>(h: History<V>, h1: History<V>, i: Id)
    requires ReignsOk(h) && Grows(h, h1, i) && h1.reigns == h.reigns
    ensures ReignsOk(h1)
  {
    hide ReignOk;
    forall t: nat | t in h1.reigns ensures ReignOk(h1, t) {
      ReignStable(h, h1, i, t);
    }
  }

  lemma PlatformsStable<V>(h: History<V>, h1: History<V>, i: Id)
    requires PlatformsOk(h) && Grows(h, h1, i)
    ensures forall t: nat, c | (t, c) in h.platforms :: WellRooted(h1, h1.platforms[(t, c)], t - 1)
  {
    forall t: nat, c | (t, c) in h.platforms ensures WellRooted(h1, h1.platforms[(t, c)], t - 1) {
      RootedStable(h, h1, i, h.platforms[(t, c)]);
    }
  }

  /** Without new ballots, what ballots and platforms are stays so. */
  lemma BallotsStable<V>(h: History<V>, h1: History<V>, i: Id)
    requires Domains(h) && BallotsOk(h) && PlatformsOk(h) && Grows(h, h1, i)
    requires h1.ballots == h.ballots && h1.platforms == h.platforms
    ensures Domains(h1) && BallotsOk(h1) && PlatformsOk(h1)
  {
    hide Sorted, Rooted;
    forall t: nat, c | (t, c) in h1.platforms ensures WellRooted(h1, h1.platforms[(t, c)], t - 1) {
      RootedStable(h, h1, i, h.platforms[(t, c)]);
    }
  }

  lemma LogStable<V>(h: History<V>, h1: History<V>, i: Id, j: Id)
    requires Domains(h) && LogsOk(h) && Grows(h, h1, i) && j in h.voters && h1.log[j] == h.log[j]
    ensures WellRooted(h1, h1.log[j], h1.term[j])
  {
    RootedStable(h, h1, i, h.log[j]);
    assert h.term[j] <= h1.term[j];
  }

  lemma LogsStable<V>(h: History<V>, h1: History<V>, i: Id)
    requires Domains(h) && LogsOk(h) && Grows(h, h1, i) && h1.log == h.log
    ensures LogsOk(h1)
  {
    hide WellRooted;
    forall j | j in h1.voters ensures WellRooted(h1, h1.log[j], h1.term[j]) {
      LogStable(h, h1, i, j);
    }
  }

  lemma ObserveShape<V>(h: History<V>, j: Id, t: nat)
    requires Shape(h) && j in h.voters && h.term[j] <= t
    ensures Shape(Observe(h, j, t))
  {
    hide WellRooted, ReignOk;
    var h1 := Observe(h, j, t);
    ObserveGrows(h, j, t);
    BallotsStable(h, h1, j);
    ReignsStable(h, h1, j);
    LogsStable(h, h1, j);
  }

  lemma ObserveMatch<V>(h: History<V>, j: Id, t: nat)
    requires AcksOk(h) && AcksMatch(h) && j in h.voters && j in h.term && h.term[j] <= t
    ensures AcksMatch(Observe(h, j, t))
  {
  }

  lemma ObserveSafe<V>(h: History<V>, j: Id, t: nat)
    requires Safe(h) && j in h.voters && h.term[j] <= t
    ensures Safe(Observe(h, j, t))
  {
    hide WellRooted;
    var h1 := Observe(h, j, t);
    ObserveGrows(h, j, t);
    ObserveShape(h, j, t);
    ObserveMatch(h, j, t);
    KeepsAll(h, h1, j);
    forall s: nat, t: nat, k, n: nat |
      && (s, k) in h1.ballots && (s, h1.ballots[(s, k)]) in h1.platforms
      && t < s && (t, k) in h1.acks && n <= h1.acks[(t, k)] && Own(h1, t, n)
      ensures Carries(h1, h1.platforms[(s, h1.ballots[(s, k)])], t, n)
    {
      KeepsBallot(h, h1, j, s, t, k, n);
    }
  }

  // ---- Ballots: Stand and Grant.

  lemma StandGrows<V>(h: History<V>, j: Id)
    requires Domains(h) && PlatformsOk(h) && CanStand(h, j)
    ensures Grows(h, Stand(h, j), j)
  {
    var t := h.term[j];
    assert (t, j) !in h.platforms;
    forall s: nat, k ensures Ack(Stand(h, j), s, k) == Ack(h, s, k) {
    }
  }

  lemma StandBallots<V>(h: History<V>, j: Id)
    requires Domains(h) && BallotsOk(h) && PlatformsOk(h) && CanStand(h, j) && Grows(h, Stand(h, j), j)
    requires WellRooted(h, h.log[j], h.term[j])
    ensures BallotsOk(Stand(h, j)) && PlatformsOk(Stand(h, j))
  {
    hide Rooted, Sorted;
    PlatformsStable(h, Stand(h, j), j);
    RootedStable(h, Stand(h, j), j, h.log[j]);
  }

  lemma StandShape<V>(h: History<V>, j: Id)
    requires Shape(h) && CanStand(h, j)
    ensures Shape(Stand(h, j))
  {
    hide WellRooted, ReignOk;
    var h1 := Stand(h, j);
    StandGrows(h, j);
    StandBallots(h, j);
    ReignsStable(h, h1, j);
    LogsStable(h, h1, j);
  }

  lemma StandSafe<V>(h: History<V>, j: Id)
    requires Safe(h) && CanStand(h, j)
    ensures Safe(Stand(h, j))
  {
    hide WellRooted;
    var h1 := Stand(h, j);
    StandGrows(h, j);
    StandShape(h, j);
    KeepsAll(h, h1, j);
    forall s: nat, t: nat, k, n: nat |
      && (s, k) in h1.ballots && (s, h1.ballots[(s, k)]) in h1.platforms
      && t < s && (t, k) in h1.acks && n <= h1.acks[(t, k)] && Own(h1, t, n)
      ensures Carries(h1, h1.platforms[(s, h1.ballots[(s, k)])], t, n)
    {
      if (s, k) in h.ballots {
        KeepsBallot(h, h1, j, s, t, k, n);
      } else {
        assert Own(h, t, n);
        CarriesStable(h, h1, j, h.log[j], t, n);
      }
    }
  }

  lemma GrantGrows<V>(h: History<V>, j: Id, c: Id)
    requires Domains(h) && CanGrant(h, j, c)
    ensures Grows(h, Grant(h, j, c), j)
  {
    forall s: nat, k ensures Ack(Grant(h, j, c), s, k) == Ack(h, s, k) {
    }
  }

  lemma GrantBallots<V>(h: History<V>, j: Id, c: Id)
    requires Domains(h) && BallotsOk(h) && PlatformsOk(h) && CanGrant(h, j, c) && Grows(h, Grant(h, j, c), j)
    ensures BallotsOk(Grant(h, j, c)) && PlatformsOk(Grant(h, j, c))
  {
    hide WellRooted;
    PlatformsStable(h, Grant(h, j, c), j);
  }

  lemma GrantShape<V>(h: History<V>, j: Id, c: Id)
    requires Shape(h) && CanGrant(h, j, c)
    ensures Shape(Grant(h, j, c))
  {
    hide WellRooted, ReignOk;
    var h1 := Grant(h, j, c);
    GrantGrows(h, j, c);
    GrantBallots(h, j, c);
    ReignsStable(h, h1, j);
    LogsStable(h, h1, j);
  }

  /**
   * Section 5.4.1 of the Raft paper: what a voter acknowledged is on the platform of
   * any candidate its log does not exceed.
   */
  lemma UpToDateCarries<V>(h: History<V>, j: Id, p: Log<V>, s: nat, t: nat, n: nat)
    requires Safe(h) && j in h.voters && WellRooted(h, p, s - 1)
    requires AtLeastAsUpToDate(LastOf(p), LastOf(h.log[j]))
    requires t < s && (t, j) in h.acks && n <= h.acks[(t, j)] && Own(h, t, n)
    ensures Carries(h, p, t, n)
  {
    var mine := h.log[j];
    assert Carries(h, mine, t, n);
    if !Unchoosable(h, t, n) {
      assert Agree(mine, h.reigns[t].log, n);
      assert mine[n - 1].id.term == t;
      assert LastOf(mine).term >= t;
      var top := LastOf(p).term;
      assert p != [];
      assert p[|p| - 1].id.index == |p|;
      assert top in h.reigns && Agree(p, h.reigns[top].log, |p|);
      if top == t {
        assert mine[|mine| - 1].id.index == |mine|;
        assert |p| >= n;
      } else {
        assert Carries(h, h.reigns[top].log, t, n);
        assert Agree(h.reigns[top].log, h.reigns[t].log, n);
        assert ReignOk(h, t) && h.reigns[top].log[|p| - 1].id.term == top;
      }
    }
  }

  lemma GrantSafe<V>(h: History<V>, j: Id, c: Id)
    requires Safe(h) && CanGrant(h, j, c)
    ensures Safe(Grant(h, j, c))
  {
    hide WellRooted;
    var h1 := Grant(h, j, c);
    GrantGrows(h, j, c);
    GrantShape(h, j, c);
    KeepsAll(h, h1, j);
    forall s: nat, t: nat, k, n: nat |
      && (s, k) in h1.ballots && (s, h1.ballots[(s, k)]) in h1.platforms
      && t < s && (t, k) in h1.acks && n <= h1.acks[(t, k)] && Own(h1, t, n)
      ensures Carries(h1, h1.platforms[(s, h1.ballots[(s, k)])], t, n)
    {
      if (s, k) in h.ballots {
        KeepsBallot(h, h1, j, s, t, k, n);
      } else {
        assert Own(h, t, n);
        UpToDateCarries(h, j, h.platforms[(s, c)], s, t, n);
        CarriesStable(h, h1, j, h.platforms[(s, c)], t, n);
      }
    }
  }

  // ---- Reigns: Crown and Extend.

  lemma CrownGrows<V>(h: History<V>, c: Id)
    requires Domains(h) && AcksOk(h) && CanReign(h, c)
    ensures Grows(h, Crown(h, c), c)
  {
    var h1 := Crown(h, c);
    var t := h.term[c];
    assert (t, c) !in h.acks;
    forall s: nat, k
      ensures Ack(h1, s, k) >= Ack(h, s, k) && (k != c || s != t ==> Ack(h1, s, k) == Ack(h, s, k))
    {
    }
  }

  lemma CrownReigns<V>(h: History<V>, c: Id)
    requires ReignsOk(h) && PlatformsOk(h) && CanReign(h, c) && Grows(h, Crown(h, c), c)
    ensures ReignsOk(Crown(h, c))
  {
    hide Rooted, Sorted;
    var h1 := Crown(h, c);
    var u := h.term[c];
    SupportersStable(h, h1, c, u, c);
    RootedStable(h, h1, c, h.log[c]);
    assert ReignOk(h1, u);
    forall t: nat | t in h.reigns ensures ReignOk(h1, t) {
      ReignStable(h, h1, c, t);
    }
  }

  lemma CrownShape<V>(h: History<V>, c: Id)
    requires Shape(h) && CanReign(h, c)
    ensures Shape(Crown(h, c))
  {
    hide WellRooted, ReignOk;
    var h1 := Crown(h, c);
    CrownGrows(h, c);
    BallotsStable(h, h1, c);
    LogsStable(h, h1, c);
    CrownReigns(h, c);
  }

  /** What was chosen before an election is on the winner's platform. */
  lemma WinnerCarries<V>(h: History<V>, c: Id, s: nat, t: nat, n: nat)
    requires Safe(h) && (s, c) in h.platforms && Majority(Supporters(h, s, c), h.voters)
    requires t < s && Own(h, t, n)
    ensures Carries(h, h.platforms[(s, c)], t, n)
  {
    if j :| j in Supporters(h, s, c) && Ack(h, t, j) >= n {
      assert (t, j) in h.acks && h.ballots[(s, j)] == c;
    } else {
      forall j | j in Supporters(h, s, c) ensures j in Blockers(h, t, n) {
        assert h.term[j] >= s;
      }
      MajorityGrows(Supporters(h, s, c), Blockers(h, t, n), h.voters);
    }
  }

  lemma CrownAcksKept<V>(h: History<V>, c: Id)
    requires AcksKept(h) && CanReign(h, c) && Grows(h, Crown(h, c), c)
    requires forall n: nat :: !Own(Crown(h, c), h.term[c], n)
    ensures AcksKept(Crown(h, c))
  {
    var h1 := Crown(h, c);
    forall t: nat, j, n: nat | (t, j) in h1.acks && j in h1.log && n <= h1.acks[(t, j)] && Own(h1, t, n)
      ensures Carries(h1, h1.log[j], t, n)
    {
      assert Own(h, t, n);
      CarriesStable(h, h1, c, h.log[j], t, n);
    }
  }

  lemma CrownReignsSafe<V>(h: History<V>, c: Id)
    requires Safe(h) && CanReign(h, c) && Grows(h, Crown(h, c), c)
    requires forall n: nat :: !Own(Crown(h, c), h.term[c], n)
    ensures ReignsSafe(Crown(h, c))
  {
    hide WellRooted;
    var h1 := Crown(h, c);
    forall s: nat, t: nat, n: nat | s in h1.reigns && t < s && Own(h1, t, n)
      ensures Carries(h1, h1.reigns[s].log, t, n)
    {
      assert Own(h, t, n);
      if s == h.term[c] {
        WinnerCarries(h, c, s, t, n);
      }
      CarriesStable(h, h1, c, h1.reigns[s].log, t, n);
    }
  }

  /** A fresh leader's log holds no entry of its own term yet. */
  lemma NothingOwnYet<V>(h: History<V>, c: Id)
    requires PlatformsOk(h) && CanReign(h, c)
    ensures forall n: nat :: !Own(Crown(h, c), h.term[c], n)
  {
  }

  lemma CrownMatch<V>(h: History<V>, c: Id)
    requires AcksOk(h) && AcksMatch(h) && CanReign(h, c)
    ensures AcksMatch(Crown(h, c))
  {
  }

  lemma CrownSafe<V>(h: History<V>, c: Id)
    requires Safe(h) && CanReign(h, c)
    ensures Safe(Crown(h, c))
  {
    CrownGrows(h, c);
    CrownShape(h, c);
    NothingOwnYet(h, c);
    CrownAcksKept(h, c);
    CrownMatch(h, c);
    CrownReignsSafe(h, c);
    KeepsBallots(h, Crown(h, c), c);
  }

  lemma ExtendGrows<V>(h: History<V>, c: Id, e: Entry<V>)
    requires Domains(h) && AcksOk(h) && CanExtend(h, c, e)
    ensures Grows(h, Extend(h, c, e), c)
  {
    var h1 := Extend(h, c, e);
    var t := h.term[c];
    assert (t, c) in h.acks ==> h.acks[(t, c)] <= |h.log[c]|;
    forall s: nat, k
      ensures Ack(h1, s, k) >= Ack(h, s, k) && (k != c || s != t ==> Ack(h1, s, k) == Ack(h, s, k))
    {
    }
  }

  lemma ExtendedRooted<V>(h: History<V>, c: Id, e: Entry<V>)
    requires CanExtend(h, c, e) && 0 < h.term[c] && ReignsGrow(h, Extend(h, c, e), c)
    requires WellRooted(h, h.log[c], h.term[c])
    ensures WellRooted(Extend(h, c, e), h.log[c] + [e], h.term[c])
  {
    var h1 := Extend(h, c, e);
    var old_ := h.log[c];
    var log := old_ + [e];
    RootedStable(h, h1, c, old_);
    assert forall k | 0 <= k < |old_| :: log[k] == old_[k];
    forall k | 0 <= k < |log|
      ensures log[k].id.index == k + 1 && log[k].id.term in h1.reigns
      ensures Agree(log, h1.reigns[log[k].id.term].log, k + 1)
    {
      if k < |old_| {
        AgreeTrans(log, old_, h1.reigns[log[k].id.term].log, k + 1, k + 1);
      }
    }
  }

  lemma ExtendedReign<V>(h: History<V>, c: Id, e: Entry<V>)
    requires CanExtend(h, c, e) && ReignOk(h, h.term[c]) && Grows(h, Extend(h, c, e), c)
    requires WellRooted(Extend(h, c, e), h.log[c] + [e], h.term[c])
    ensures ReignOk(Extend(h, c, e), h.term[c])
  {
    hide WellRooted;
    SupportersStable(h, Extend(h, c, e), c, h.term[c], c);
  }

  lemma ExtendReigns<V>(h: History<V>, c: Id, e: Entry<V>)
    requires ReignsOk(h) && CanExtend(h, c, e) && Grows(h, Extend(h, c, e), c)
    requires WellRooted(Extend(h, c, e), h.log[c] + [e], h.term[c])
    ensures ReignsOk(Extend(h, c, e))
  {
    hide WellRooted, ReignOk;
    var h1 := Extend(h, c, e);
    ExtendedReign(h, c, e);
    forall t: nat | t in h1.reigns && t != h.term[c] ensures ReignOk(h1, t) {
      ReignStable(h, h1, c, t);
    }
  }

  lemma ReignTermPositive<V>(h: History<V>, t: nat)
    requires PlatformsOk(h) && t in h.reigns && ReignOk(h, t)
    ensures 0 < t <= MAX_U64
  {
  }

  lemma ExtendLogs<V>(h: History<V>, c: Id, e: Entry<V>)
    requires Domains(h) && LogsOk(h) && CanExtend(h, c, e) && Grows(h, Extend(h, c, e), c)
    requires WellRooted(Extend(h, c, e), h.log[c] + [e], h.term[c])
    ensures LogsOk(Extend(h, c, e))
  {
    hide WellRooted;
    var h1 := Extend(h, c, e);
    forall j | j in h1.voters ensures WellRooted(h1, h1.log[j], h1.term[j]) {
      if j != c {
        LogStable(h, h1, c, j);
      }
    }
  }

  lemma ExtendShape<V>(h: History<V>, c: Id, e: Entry<V>)
    requires Shape(h) && CanExtend(h, c, e)
    ensures Shape(Extend(h, c, e))
  {
    hide WellRooted, ReignOk;
    ExtendGrows(h, c, e);
    ReignTermPositive(h, h.term[c]);
    ExtendedRooted(h, c, e);
    BallotsStable(h, Extend(h, c, e), c);
    ExtendReigns(h, c, e);
    ExtendLogs(h, c, e);
  }

  lemma CarriesLonger<V>(h: History<V>, a: Log<V>, b: Log<V>, t: nat, n: nat)
    requires t in h.reigns && Carries(h, a, t, n) && Agree(a, b, |a|)
    ensures Carries(h, b, t, n)
  {
  }

  /** A term some majority has left cannot choose an entry nobody has yet. */
  lemma LeftBehind<V>(h: History<V>, s: nat, t: nat, n: nat)
    requires Shape(h) && s in h.reigns && t < s && t in h.reigns && n == |h.reigns[t].log| + 1
    ensures Unchoosable(h, t, n)
  {
    assert ReignOk(h, s);
    var q := Supporters(h, s, h.reigns[s].leader);
    forall j | j in q ensures j in Blockers(h, t, n) {
      assert h.term[j] >= s;
    }
    MajorityGrows(q, Blockers(h, t, n), h.voters);
  }

  lemma ExtendAcksKept<V>(h: History<V>, c: Id, e: Entry<V>)
    requires AcksOk(h) && AcksKept(h) && CanExtend(h, c, e) && Grows(h, Extend(h, c, e), c)
    ensures AcksKept(Extend(h, c, e))
  {
    var h1 := Extend(h, c, e);
    var u := h.term[c];
    forall t: nat, j, n: nat | (t, j) in h1.acks && j in h1.log && n <= h1.acks[(t, j)] && Own(h1, t, n)
      ensures Carries(h1, h1.log[j], t, n)
    {
      if t != u || j != c {
        assert (t, j) in h.acks && n <= h.acks[(t, j)];
        assert Own(h, t, n);
        CarriesStable(h, h1, c, h.log[j], t, n);
        CarriesLonger(h1, h.log[j], h1.log[j], t, n);
      }
    }
  }

  lemma ExtendReignsSafe<V>(h: History<V>, c: Id, e: Entry<V>)
    requires Shape(h) && ReignsSafe(h) && CanExtend(h, c, e) && Grows(h, Extend(h, c, e), c)
    ensures ReignsSafe(Extend(h, c, e))
  {
    hide WellRooted;
    var h1 := Extend(h, c, e);
    var u := h.term[c];
    forall s: nat, t: nat, n: nat | s in h1.reigns && t < s && Own(h1, t, n)
      ensures Carries(h1, h1.reigns[s].log, t, n)
    {
      if t == u && n == |h.log[c]| + 1 {
        LeftBehind(h, s, t, n);
        UnchoosableStable(h, h1, c, t, n);
      } else {
        assert Own(h, t, n);
        CarriesStable(h, h1, c, h.reigns[s].log, t, n);
        CarriesLonger(h1, h.reigns[s].log, h1.reigns[s].log, t, n);
      }
    }
  }

  lemma ExtendMatch<V>(h: History<V>, c: Id, e: Entry<V>)
    requires AcksOk(h) && AcksMatch(h) && CanExtend(h, c, e)
    ensures AcksMatch(Extend(h, c, e))
  {
    var h1 := Extend(h, c, e);
    forall t: nat, j | (t, j) in h1.acks && j in h1.term && j in h1.log && h1.term[j] == t && t in h1.reigns
      ensures Agree(h1.log[j], h1.reigns[t].log, h1.acks[(t, j)])
    {
      assert j != c ==> (t, j) in h.acks;
    }
  }

  lemma ExtendSafe<V>(h: History<V>, c: Id, e: Entry<V>)
    requires Safe(h) && CanExtend(h, c, e)
    ensures Safe(Extend(h, c, e))
  {
    ExtendGrows(h, c, e);
    ExtendShape(h, c, e);
    ExtendAcksKept(h, c, e);
    ExtendMatch(h, c, e);
    ExtendReignsSafe(h, c, e);
    KeepsBallots(h, Extend(h, c, e), c);
  }

  // ---- Accept.

  lemma AcceptGrows<V>(h: History<V>, j: Id, n: nat)
    requires Domains(h) && CanAccept(h, j, n)
    ensures Grows(h, Accept(h, j, n), j)
  {
    var h1 := Accept(h, j, n);
    var t := h.term[j];
    forall s: nat, k
      ensures Ack(h1, s, k) >= Ack(h, s, k) && (k != j || s != t ==> Ack(h1, s, k) == Ack(h, s, k))
    {
    }
  }

  lemma PrefixRooted<V>(h: History<V>, log: Log<V>, n: nat, bound: int)
    requires WellRooted(h, log, bound) && n <= |log|
    ensures WellRooted(h, log[..n], bound)
  {
  }

  lemma AcceptLogRooted<V>(h: History<V>, j: Id, n: nat)
    requires CanAccept(h, j, n) && ReignsGrow(h, Accept(h, j, n), j)
    requires WellRooted(h, h.log[j], h.term[j]) && WellRooted(h, h.reigns[h.term[j]].log, h.term[j])
    ensures WellRooted(Accept(h, j, n), Accept(h, j, n).log[j], h.term[j])
  {
    var h1 := Accept(h, j, n);
    PrefixRooted(h, h.reigns[h.term[j]].log, n, h.term[j]);
    RootedStable(h, h1, j, h1.log[j]);
  }

  lemma AcceptLogs<V>(h: History<V>, j: Id, n: nat)
    requires Domains(h) && LogsOk(h) && CanAccept(h, j, n) && Grows(h, Accept(h, j, n), j)
    requires ReignOk(h, h.term[j])
    ensures LogsOk(Accept(h, j, n))
  {
    hide Rooted, Sorted;
    var h1 := Accept(h, j, n);
    AcceptLogRooted(h, j, n);
    forall k | k in h1.voters ensures WellRooted(h1, h1.log[k], h1.term[k]) {
      if k != j {
        LogStable(h, h1, j, k);
      }
    }
  }

  lemma AcceptAcksOk<V>(h: History<V>, j: Id, n: nat)
    requires AcksOk(h) && CanAccept(h, j, n)
    ensures AcksOk(Accept(h, j, n))
  {
  }

  lemma AcceptShape<V>(h: History<V>, j: Id, n: nat)
    requires Shape(h) && CanAccept(h, j, n)
    ensures Shape(Accept(h, j, n))
  {
    hide WellRooted, ReignOk, AcksOk;
    var h1 := Accept(h, j, n);
    AcceptGrows(h, j, n);
    BallotsStable(h, h1, j);
    ReignsStable(h, h1, j);
    AcceptLogs(h, j, n);
    AcceptAcksOk(h, j, n);
  }

  /** Replacing a suffix by the leader's entries loses nothing that may be chosen. */
  lemma AcceptedKeeps<V>(log: Log<V>, lead: Log<V>, other: Log<V>, n: nat, m: nat)
    requires n <= |lead| && Agree(log, other, m) && Agree(lead, other, m)
    ensures Agree(Accepted(log, lead, n), other, m)
  {
  }

  lemma AcceptedCarries<V>(h: History<V>, j: Id, n: nat, t: nat, m: nat)
    requires AcksKept(h) && ReignsSafe(h) && CanAccept(h, j, n)
    requires (t, j) in h.acks && m <= h.acks[(t, j)] && Own(h, t, m) && t <= h.term[j]
    ensures Carries(h, Accepted(h.log[j], h.reigns[h.term[j]].log, n), t, m)
  {
    var u := h.term[j];
    var lead := h.reigns[u].log;
    assert Carries(h, h.log[j], t, m);
    if !Unchoosable(h, t, m) {
      if t < u {
        assert Carries(h, lead, t, m);
      }
      AcceptedKeeps(h.log[j], lead, h.reigns[t].log, n, m);
    }
  }

  lemma AcceptKeepsAck<V>(h: History<V>, j: Id, n: nat, t: nat, k: Id, m: nat)
    requires AcksKept(h) && ReignsSafe(h) && CanAccept(h, j, n) && Grows(h, Accept(h, j, n), j)
    requires t in h.reigns && Own(h, t, m) && k in h.log
    requires (t, k) in Accept(h, j, n).acks && m <= Accept(h, j, n).acks[(t, k)]
    requires (t, k) in h.acks && k in h.term ==> t <= h.term[k]
    ensures Carries(Accept(h, j, n), Accept(h, j, n).log[k], t, m)
  {
    var h1 := Accept(h, j, n);
    if k != j {
      CarriesStable(h, h1, j, h.log[k], t, m);
    } else if t != h.term[j] || n < m {
      AcceptedCarries(h, j, n, t, m);
      CarriesStable(h, h1, j, h1.log[j], t, m);
    }
  }

  lemma AcceptAcksKept<V>(h: History<V>, j: Id, n: nat)
    requires AcksOk(h) && AcksKept(h) && ReignsSafe(h) && CanAccept(h, j, n) && Grows(h, Accept(h, j, n), j)
    ensures AcksKept(Accept(h, j, n))
  {
    var h1 := Accept(h, j, n);
    forall t: nat, k, m: nat | (t, k) in h1.acks && k in h1.log && m <= h1.acks[(t, k)] && Own(h1, t, m)
      ensures Carries(h1, h1.log[k], t, m)
    {
      AcceptKeepsAck(h, j, n, t, k, m);
    }
  }

  lemma AcceptMatch<V>(h: History<V>, j: Id, n: nat)
    requires AcksMatch(h) && CanAccept(h, j, n)
    ensures AcksMatch(Accept(h, j, n))
  {
    var h1 := Accept(h, j, n);
    forall t: nat, k | (t, k) in h1.acks && k in h1.term && k in h1.log && h1.term[k] == t && t in h1.reigns
      ensures Agree(h1.log[k], h1.reigns[t].log, h1.acks[(t, k)])
    {
      assert k != j ==> (t, k) in h.acks;
      assert k == j && Ack(h, t, j) > 0 ==> (t, j) in h.acks;
    }
  }

  lemma AcceptSafe<V>(h: History<V>, j: Id, n: nat)
    requires Safe(h) && CanAccept(h, j, n)
    ensures Safe(Accept(h, j, n))
  {
    var h1 := Accept(h, j, n);
    AcceptGrows(h, j, n);
    AcceptShape(h, j, n);
    AcceptAcksKept(h, j, n);
    AcceptMatch(h, j, n);
    KeepsBallots(h, h1, j);
    KeepsReigns(h, h1, j);
  }

  // ---- Commitment.

  /** s is a prefix of what some term up to `bound` has chosen. */
  ghost predicate Committed<V>(h: History<V>, s: Log<V>, bound: nat) {
    s == [] || exists t: nat, n: nat :: CommittedBy(h, s, bound, t, n)
  }

  ghost predicate CommittedBy<V>(h: History<V>, s: Log<V>, bound: nat, t: nat, n: nat) {
    t <= bound && Chosen(h, t, n) && |s| <= n && Agree(s, h.reigns[t].log, |s|)
  }

  lemma CommittedWitness<V>(h: History<V>, s: Log<V>, bound: nat, t: nat, n: nat)
    requires CommittedBy(h, s, bound, t, n)
    ensures Committed(h, s, bound)
  {
  }

  lemma CommittedStable<V>(h: History<V>, h1: History<V>, i: Id, s: Log<V>, bound: nat, bound1: nat)
    requires Grows(h, h1, i) && Committed(h, s, bound) && bound <= bound1
    ensures Committed(h1, s, bound1)
  {
    if s != [] {
      var t: nat, n: nat :| CommittedBy(h, s, bound, t, n);
      ChosenStable(h, h1, i, t, n);
      AgreeTrans(s, h.reigns[t].log, h1.reigns[t].log, |s|, |h.reigns[t].log|);
      assert CommittedBy(h1, s, bound1, t, n);
    }
  }

  lemma CommittedPrefix<V>(h: History<V>, s: Log<V>, p: Log<V>, bound: nat)
    requires Committed(h, s, bound) && |p| <= |s| && Agree(p, s, |p|)
    ensures Committed(h, p, bound)
  {
    if p != [] {
      var t: nat, n: nat :| CommittedBy(h, s, bound, t, n);
      assert CommittedBy(h, p, bound, t, n);
    }
  }

  /** What a voter acknowledged in its own term matches that term's log. */
  lemma AckMatches<V>(h: History<V>, t: nat, j: Id, n: nat)
    requires AcksMatch(h) && j in h.term && j in h.log && h.term[j] == t && t in h.reigns && n <= Ack(h, t, j)
    ensures Agree(h.log[j], h.reigns[t].log, n)
  {
  }

  /** Leader completeness: the log of a term holds what earlier terms committed. */
  lemma CommittedInReign<V>(h: History<V>, s: Log<V>, bound: nat, t: nat)
    requires ReignsSafe(h) && Committed(h, s, bound) && t in h.reigns && bound <= t
    ensures Agree(s, h.reigns[t].log, |s|)
  {
    if s != [] {
      var u: nat, n: nat :| CommittedBy(h, s, bound, u, n);
      if u < t {
        ChosenNotUnchoosable(h, u, n);
        assert Carries(h, h.reigns[t].log, u, n);
      }
    }
  }

  /** Two committed prefixes never disagree. */
  lemma CommittedAgree<V>(h: History<V>, a: Log<V>, b: Log<V>, x: nat, y: nat)
    requires ReignsSafe(h) && Committed(h, a, x) && Committed(h, b, y)
    ensures Agree(a, b, if |a| <= |b| then |a| else |b|)
  {
    if a != [] && b != [] {
      var s: nat, n: nat :| CommittedBy(h, a, x, s, n);
      var t: nat, m: nat :| CommittedBy(h, b, y, t, m);
      if s <= t {
        assert CommittedBy(h, a, t, s, n);
        CommittedInReign(h, a, t, t);
      } else {
        assert CommittedBy(h, b, s, t, m);
        CommittedInReign(h, b, s, s);
      }
    }
  }
}
