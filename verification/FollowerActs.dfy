/**
 * What a leader's requests do to a follower's log, said without the functions that do it:
 * which entries it holds afterwards, how far it commits, and what it answers
 * (jarl/src/node.rs, append and the Append, AppendBatch and Install cases of step).
 */
module FollowerActs {
  import opened Types
  import opened Checkpoints
  import opened Memberships
  import opened NodeModel
  import opened LocalHistory
  import opened NodeHistory
  import opened SlotTables
  import opened DynamicNodes
  import opened DynamicOperations
  import opened CommitRules
  import opened Queues
  import opened LeaderSteps

  // ---- One request.

  /** The commit index is raised to `to` if that is higher, and nothing else differs. */
  ghost predicate Raised<V, S>(s: Checkpoint<V, S>, t: Checkpoint<V, S>, to: U64) {
    t == s.(hard := s.hard.(commit := Max(s.hard.commit, to)))
  }

  /** The entry is the last one, everything before it is as it was, and it is committed if the leader says so. */
  ghost predicate Replaces<V, S>(s: Checkpoint<V, S>, t: Checkpoint<V, S>, e: Entry<V>, commit: U64) {
    && t.snapshot == s.snapshot && t.hard == s.hard.(commit := Max(s.hard.commit, Min(commit, e.id.index)))
    && Last(t) == e.id && Get(t, e.id.index) == Some(e)
    && (forall k: U64 | k < e.id.index :: Get(t, k) == Get(s, k))
    && (forall k: U64 | k > e.id.index :: Get(t, k).None?)
  }

  /** The log reaches up to the request, and has what precedes it. */
  ghost predicate HoldsUpTo<V, S>(s: Checkpoint<V, S>, previous: LogId) {
    IdAt(s, previous.index) == Some(previous)
  }

  /** The entry contradicts something committed. */
  ghost predicate Contradicts<V, S>(s: Checkpoint<V, S>, e: Entry<V>) {
    e.id.index <= s.hard.commit && IdAt(s, e.id.index) != Some(e.id)
  }

  /** The entry would be one too many. */
  ghost predicate Overflows<V, S>(s: Checkpoint<V, S>, cap: nat, e: Entry<V>) {
    |s.entries| >= cap && e.id.index > Last(s).index
  }

  /** What a request with at most one entry does, and how it is answered. */
  ghost predicate TakesEntry<V, S>(
    s: Checkpoint<V, S>, cap: nat, previous: LogId, entry: Option<Entry<V>>, commit: U64,
    t: Checkpoint<V, S>, index: U64, rejection: Option<Rejection>)
  {
    if !HoldsUpTo(s, previous) then
      // Refused, with a place to try next: just past the base, or no further than the end of the log.
      && t == s && index == previous.index && rejection.Some? && rejection.value.Conflict?
      && if previous.index < Base(s).index then rejection.value.next == SaturatingInc(Base(s).index)
         else Nearest(rejection.value.next, previous.index, 1, SaturatingInc(Last(s).index))
    else if entry.None? then
      index == previous.index && rejection.None? && Raised(s, t, Min(commit, index))
    else if Contradicts(s, entry.value) then
      t == s && index == previous.index && rejection == Some(Conflict(entry.value.id.index))
    else if IdAt(s, entry.value.id.index) == Some(entry.value.id) then
      index == entry.value.id.index && rejection.None? && Raised(s, t, Min(commit, index))
    else if Overflows(s, cap, entry.value) then
      index == previous.index && rejection == Some(NoRoom) && Raised(s, t, Min(commit, index))
    else
      index == entry.value.id.index && rejection.None? && Replaces(s, t, entry.value, commit)
  }

  /** A follower's table may be refreshed while its log changes; nothing else of it is. */
  ghost predicate TableOnly<V, S>(n: Node<V, S>, r: Node<V, S>) {
    && r == n.(state := r.state, dirty := r.dirty, logFrom := r.logFrom, snapshotChanged := r.snapshotChanged,
               membership := r.membership, peers := r.peers, local := r.local, votes := r.votes, active := r.active,
               next := r.next, matched := r.matched, outbox := r.outbox)
    && Sized(r) && |r.peers| == |n.peers|
  }

  lemma RefreshedTable<V, S>(n: Node<V, S>)
    requires Sized(n) && Timed(n) && n.role == Follower
    ensures TableOnly(n, Refreshed(n)) && Refreshed(n).state == n.state
  {
    hide MembershipAt, SeatAll, IsVoter;
    SeatAllFrame(n.(membership := MembershipAt(n, Last(n.state).index).1), 0);
  }

  lemma CommitRaises<V, S>(n: Node<V, S>, index: U64)
    requires Sized(n) && Timed(n) && n.role == Follower
    ensures TableOnly(n, CommitTo(n, index)) && Raised(n.state, CommitTo(n, index).state, index)
  {
    hide Refreshed;
    if index > n.state.hard.commit {
      RefreshedTable(n.(state := n.state.(hard := n.state.hard.(commit := index)), dirty := true));
    }
  }

  lemma ReplacedTakes<V, S>(s: Checkpoint<V, S>, e: Entry<V>, commit: U64, t: Checkpoint<V, S>)
    requires WellFormed(s) && s.hard.commit < e.id.index <= Last(s).index + 1
    requires IdAt(s, e.id.index - 1).Some? && IdAt(s, e.id.index - 1).value.term <= e.id.term
    requires 0 < e.id.term <= s.hard.term
    requires Raised(Pushed(Truncated(s, e.id.index), e), t, Min(commit, e.id.index))
    ensures Replaces(s, t, e, commit)
  {
    LastIndex(s);
    hide WellFormed, Contiguous, Truncated, Replaces, Last, IdAt;
    ReplaceWellFormed(s, e);
    SplicedTakes(s, e, t);
  }

  /** Cutting the log before an entry's place and putting the entry there. */
  lemma SplicedTakes<V, S>(s: Checkpoint<V, S>, e: Entry<V>, t: Checkpoint<V, S>)
    requires 0 <= e.id.index - 1 - Base(s).index <= |s.entries| && t.snapshot == s.snapshot
    requires t.entries == s.entries[..e.id.index - 1 - Base(s).index] + [e]
    ensures Last(t) == e.id && Get(t, e.id.index) == Some(e)
    ensures forall k: U64 | k < e.id.index :: Get(t, k) == Get(s, k)
    ensures forall k: U64 | k > e.id.index :: Get(t, k).None?
  {
  }

  lemma AppendedTakes<V, S>(n: Node<V, S>, previous: LogId, entry: Option<Entry<V>>, commit: U64)
    requires Steady(n) && WellFormed(n.state) && n.role == Follower
    requires entry.Some? ==> ValidNext(previous, entry.value.id, n.state.hard.term)
    ensures
      var r := Appended(n, previous, entry, commit);
      TakesEntry(n.state, n.cap, previous, entry, commit, r.node.state, r.index, r.rejection) && TableOnly(n, r.node)
  {
    hide CommitTo, Refreshed, Truncated, Contiguous, Replaces;
    if IdAt(n.state, previous.index) == Some(previous) {
      HeldIsWithin(n.state, previous.index);
      CommitRaises(n, Min(commit, previous.index));
      if entry.Some? {
        var e := entry.value;
        CommitRaises(n, Min(commit, e.id.index));
        if IdAt(n.state, e.id.index) != Some(e.id) && e.id.index > n.state.hard.commit
           && !Overflows(n.state, n.cap, e) {
          ReplacedEntry(n, e, commit);
        }
      }
    }
  }

  lemma ReplacedEntry<V, S>(n: Node<V, S>, e: Entry<V>, commit: U64)
    requires Steady(n) && WellFormed(n.state) && n.role == Follower
    requires n.state.hard.commit < e.id.index <= Last(n.state).index + 1
    requires IdAt(n.state, e.id.index - 1).Some? && IdAt(n.state, e.id.index - 1).value.term <= e.id.term
    requires 0 < e.id.term <= n.state.hard.term && !Overflows(n.state, n.cap, e)
    ensures |Truncated(n.state, e.id.index).entries| < n.cap
    ensures
      var r := CommitTo(Replaced(n, e), Min(commit, e.id.index));
      Replaces(n.state, r.state, e, commit) && TableOnly(n, r)
  {
    hide CommitTo, Refreshed, Truncated, Contiguous, Replaces;
    LastIndex(n.state);
    ReplaceWellFormed(n.state, e);
    hide WellFormed;
    RefreshedTable(n.(state := Pushed(Truncated(n.state, e.id.index), e)));
    CommitRaises(Replaced(n, e), Min(commit, e.id.index));
    ReplacedTakes(n.state, e, commit, CommitTo(Replaced(n, e), Min(commit, e.id.index)).state);
  }

  // ---- Batches.

  /** Nothing up to `upto` changed, and whatever the log holds it held before or was sent. */
  ghost predicate Keeps<V, S>(s: Checkpoint<V, S>, t: Checkpoint<V, S>, upto: U64, sent: seq<Option<Entry<V>>>) {
    && t.snapshot == s.snapshot && t.hard == s.hard.(commit := t.hard.commit)
    && (forall k: U64 | k <= upto :: Get(t, k) == Get(s, k))
    && (forall k: U64 | Get(t, k).Some? :: Get(t, k) == Get(s, k) || Get(t, k) in sent)
  }

  /** The first m entries of the batch are held. */
  ghost predicate HoldsFirst<V, S>(t: Checkpoint<V, S>, entries: seq<Option<Entry<V>>>, m: nat) {
    m <= |entries| && forall i | 0 <= i < m ::
      entries[i].Some? && IdAt(t, entries[i].value.id.index) == Some(entries[i].value.id)
  }

  /** The batch ends there, or the log cannot take the next entry. */
  ghost predicate StopsAt<V, S>(t: Checkpoint<V, S>, cap: nat, entries: seq<Option<Entry<V>>>, m: nat) {
    m < |entries| && entries[m].Some? ==> Contradicts(t, entries[m].value) || Overflows(t, cap, entries[m].value)
  }

  /** A log that held all m entries already is kept whole; otherwise it ends with the last of them. */
  ghost predicate EndsWith<V, S>(s: Checkpoint<V, S>, t: Checkpoint<V, S>, entries: seq<Option<Entry<V>>>, m: nat) {
    if HoldsFirst(s, entries, m) then t.entries == s.entries && t.snapshot == s.snapshot
    else 0 < m <= |entries| && entries[m - 1].Some? && Last(t) == entries[m - 1].value.id
  }

  /** m entries of the batch were taken, the answer is for the last of them, and the commit index follows no further. */
  ghost predicate TakesFirst<V, S>(
    s: Checkpoint<V, S>, cap: nat, previous: LogId, entries: seq<Option<Entry<V>>>, commit: U64, m: nat,
    t: Checkpoint<V, S>, index: U64)
  {
    && HoldsFirst(t, entries, m) && StopsAt(t, cap, entries, m) && Keeps(s, t, previous.index, entries)
    && EndsWith(s, t, entries, m)
    && index == (if m == 0 then previous.index else entries[m - 1].value.id.index)
    && t.hard.commit == Max(s.hard.commit, Min(commit, index))
  }

  /** What a batch does: nothing of it fits and its first entry is refused, or it is taken as far as it goes. */
  ghost predicate TakesBatch<V, S>(
    s: Checkpoint<V, S>, cap: nat, previous: LogId, entries: seq<Option<Entry<V>>>, commit: U64,
    t: Checkpoint<V, S>, index: U64, rejection: Option<Rejection>)
    requires entries != []
  {
    if rejection.Some? then TakesEntry(s, cap, previous, entries[0], commit, t, index, rejection)
    else exists m: nat :: 0 < m <= |entries| && TakesFirst(s, cap, previous, entries, commit, m, t, index)
  }

  /** Either the entry was held, or it is now the last one. */
  ghost predicate EndsWithOne<V, S>(s: Checkpoint<V, S>, t: Checkpoint<V, S>, e: Entry<V>) {
    if IdAt(s, e.id.index) == Some(e.id) then t.entries == s.entries && t.snapshot == s.snapshot
    else Last(t) == e.id && (e.id.index < MAX_U64 ==> IdAt(t, e.id.index + 1).None?)
  }

  /** An accepted entry is held, and nothing before it changed. */
  lemma AcceptedKeeps<V, S>(
    s: Checkpoint<V, S>, cap: nat, previous: LogId, e: Entry<V>, commit: U64, t: Checkpoint<V, S>, index: U64)
    requires WellFormed(s) && ValidNext(previous, e.id, s.hard.term)
    requires TakesEntry(s, cap, previous, Some(e), commit, t, index, None)
    ensures index == e.id.index && IdAt(t, e.id.index) == Some(e.id) && Keeps(s, t, previous.index, [Some(e)])
    ensures t.hard.commit == Max(s.hard.commit, Min(commit, e.id.index))
    ensures forall k: U64 | k < e.id.index :: IdAt(t, k) == IdAt(s, k)
    ensures EndsWithOne(s, t, e)
  {
    hide Contiguous;
    HeldIsWithin(s, previous.index);
    hide WellFormed;
  }

  lemma BlockedNext<V, S>(
    s: Checkpoint<V, S>, cap: nat, previous: LogId, e: Entry<V>, commit: U64,
    t: Checkpoint<V, S>, index: U64, rejection: Option<Rejection>)
    requires IdAt(s, previous.index) == Some(previous) && rejection.Some?
        && s.hard.commit >= Min(commit, previous.index)
    requires TakesEntry(s, cap, previous, Some(e), commit, t, index, rejection)
    ensures t == s && (Contradicts(s, e) || Overflows(s, cap, e))
  {
  }

  lemma KeepsSelf<V, S>(s: Checkpoint<V, S>, upto: U64, sent: seq<Option<Entry<V>>>)
    ensures Keeps(s, s, upto, sent)
  {
  }

  lemma KeepsOn<V, S>(
    s: Checkpoint<V, S>, x: Checkpoint<V, S>, t: Checkpoint<V, S>, upto: U64, more: U64, entries: seq<Option<Entry<V>>>)
    requires entries != [] && Keeps(s, x, upto, [entries[0]]) && Keeps(x, t, more, entries[1..]) && upto <= more
    ensures Keeps(s, t, upto, entries)
  {
    forall k: U64 | Get(t, k).Some? ensures Get(t, k) == Get(s, k) || Get(t, k) in entries {
      if Get(t, k) in entries[1..] {
      } else {
        assert Get(x, k) == Get(t, k);
      }
    }
  }

  lemma HoldsOn<V, S>(x: Checkpoint<V, S>, t: Checkpoint<V, S>, entries: seq<Option<Entry<V>>>, m: nat)
    requires entries != [] && entries[0].Some? && HoldsFirst(t, entries[1..], m)
    requires IdAt(x, entries[0].value.id.index) == Some(entries[0].value.id)
    requires Keeps(x, t, entries[0].value.id.index, entries[1..])
    ensures HoldsFirst(t, entries, m + 1)
  {
    forall i | 0 <= i < m + 1
      ensures entries[i].Some? && IdAt(t, entries[i].value.id.index) == Some(entries[i].value.id)
    {
      if i > 0 {
        assert entries[1..][i - 1] == entries[i];
      }
    }
  }

  lemma EndsOn<V, S>(
    s: Checkpoint<V, S>, x: Checkpoint<V, S>, t: Checkpoint<V, S>, entries: seq<Option<Entry<V>>>, m: nat)
    requires entries != [] && entries[0].Some? && EndsWithOne(s, x, entries[0].value) && EndsWith(x, t, entries[1..], m)
    requires |entries| > 1 && entries[1].Some? ==> entries[1].value.id.index == entries[0].value.id.index + 1
    requires m <= |entries[1..]|
    ensures EndsWith(s, t, entries, m + 1)
  {
    hide Last;
    assert m > 0 ==> entries[1..][m - 1] == entries[m];
    if IdAt(s, entries[0].value.id.index) == Some(entries[0].value.id) {
      HoldsRest(s, x, entries, m);
    } else {
      hide IdAt;
      assert m > 0 ==> entries[1..][0] == entries[1];
      assert !HoldsFirst(s, entries, m + 1);
      assert m > 0 ==> !HoldsFirst(x, entries[1..], m);
      SameEnd(x, t);
    }
  }

  lemma SameEnd<V, S>(x: Checkpoint<V, S>, t: Checkpoint<V, S>)
    ensures t.entries == x.entries && t.snapshot == x.snapshot ==> Last(t) == Last(x)
  {
  }

  lemma HoldsRest<V, S>(s: Checkpoint<V, S>, x: Checkpoint<V, S>, entries: seq<Option<Entry<V>>>, m: nat)
    requires entries != [] && entries[0].Some? && IdAt(s, entries[0].value.id.index) == Some(entries[0].value.id)
    requires x.entries == s.entries && x.snapshot == s.snapshot
    ensures HoldsFirst(s, entries, m + 1) <==> HoldsFirst(x, entries[1..], m)
  {
    if m <= |entries[1..]| {
      forall i | 0 <= i < m ensures entries[1..][i] == entries[i + 1] {
      }
      if HoldsFirst(x, entries[1..], m) {
        forall i | 0 <= i < m + 1
          ensures entries[i].Some? && IdAt(s, entries[i].value.id.index) == Some(entries[i].value.id)
        {
          if i > 0 {
            assert entries[1..][i - 1] == entries[i];
          }
        }
      }
      if HoldsFirst(s, entries, m + 1) {
        forall i | 0 <= i < m
          ensures
            && entries[1..][i].Some?
            && IdAt(x, entries[1..][i].value.id.index) == Some(entries[1..][i].value.id)
        {
          assert entries[1..][i] == entries[i + 1];
        }
      }
    }
  }

  /** One entry and then m more are m + 1. */
  lemma TakesOn<V, S>(
    s: Checkpoint<V, S>, cap: nat, previous: LogId, entries: seq<Option<Entry<V>>>, commit: U64, m: nat,
    x: Checkpoint<V, S>, t: Checkpoint<V, S>, index: U64)
    requires entries != [] && entries[0].Some? && entries[0].value.id.index == previous.index + 1
    requires IdAt(x, entries[0].value.id.index) == Some(entries[0].value.id)
        && Keeps(s, x, previous.index, [entries[0]])
    requires x.hard.commit == Max(s.hard.commit, Min(commit, entries[0].value.id.index))
    requires TakesFirst(x, cap, entries[0].value.id, entries[1..], commit, m, t, index)
    requires index >= entries[0].value.id.index && EndsWithOne(s, x, entries[0].value)
    requires |entries| > 1 && entries[1].Some? ==> entries[1].value.id.index == entries[0].value.id.index + 1
    ensures TakesFirst(s, cap, previous, entries, commit, m + 1, t, index)
  {
    hide Keeps, HoldsFirst, Contradicts, Overflows, IdAt, EndsWith, EndsWithOne;
    HoldsBound(t, entries[1..], m);
    EndsOn(s, x, t, entries, m);
    KeepsOn(s, x, t, previous.index, entries[0].value.id.index, entries);
    HoldsOn(x, t, entries, m);
    assert m < |entries[1..]| ==> entries[1..][m] == entries[m + 1];
    assert m > 0 ==> entries[1..][m - 1] == entries[m];
  }

  lemma HoldsBound<V, S>(t: Checkpoint<V, S>, entries: seq<Option<Entry<V>>>, m: nat)
    requires HoldsFirst(t, entries, m)
    ensures m <= |entries| && (m > 0 ==> entries[m - 1].Some?)
  {
  }

  /** The rest of a batch after an accepted entry. */
  lemma {:induction false} BatchGoesOn<V, S>(
    d: Checkpoint<V, S>, n: Node<V, S>, previous: LogId, entries: seq<Option<Entry<V>>>, commit: U64) returns (m: nat)
    requires Goes(d, n) && n.prevoting.None? && n.role == Follower && ValidBatch(previous, entries, n.state.hard.term)
    requires IdAt(n.state, previous.index) == Some(previous) && n.state.hard.commit >= Min(commit, previous.index)
    ensures
      var r := BatchFrom(n, previous, entries, commit, true, (previous.index, None));
      && r.rejection.None? && TableOnly(n, r.node) && r.index >= previous.index
      && TakesFirst(n.state, n.cap, previous, entries, commit, m, r.node.state, r.index)
    decreases |entries|
  {
    hide Goes, Appended, TakesEntry, Keeps, IdAt, WellFormed, TakesFirst;
    m := 0;
    GoesSteady(d, n);
    TakesNone(n.state, n.cap, previous, entries, commit);
    if entries != [] {
      if entries[0].None? {
        NothingMore(n, previous, entries, commit);
      } else {
        var e := entries[0].value;
        var r := Appended(n, previous, entries[0], commit);
        AppendedTakes(n, previous, entries[0], commit);
        AppendedGoes(d, n, previous, entries[0], commit);
        if r.rejection.Some? {
          BlockedNext(n.state, n.cap, previous, e, commit, r.node.state, r.index, r.rejection);
        } else {
          AcceptedKeeps(n.state, n.cap, previous, e, commit, r.node.state, r.index);
          var more := BatchGoesOn(d, r.node, e.id, entries[1..], commit);
          var t := BatchFrom(r.node, e.id, entries[1..], commit, true, (e.id.index, None));
          TakesOn(n.state, n.cap, previous, entries, commit, more, r.node.state, t.node.state, t.index);
          m := more + 1;
        }
      }
    }
  }

  /** Nothing is taken of a batch whose first entry the log cannot take. */
  lemma TakesNone<V, S>(
    s: Checkpoint<V, S>, cap: nat, previous: LogId, entries: seq<Option<Entry<V>>>, commit: U64)
    requires s.hard.commit >= Min(commit, previous.index)
    ensures StopsAt(s, cap, entries, 0) ==> TakesFirst(s, cap, previous, entries, commit, 0, s, previous.index)
  {
    KeepsSelf(s, previous.index, entries);
  }

  lemma NothingMore<V, S>(n: Node<V, S>, previous: LogId, entries: seq<Option<Entry<V>>>, commit: U64)
    requires Sized(n) && Timed(n) && entries != [] && entries[0].None?
        && ValidBatch(previous, entries, n.state.hard.term)
    ensures BatchFrom(n, previous, entries, commit, true, (previous.index, None)) == Reply(n, previous.index, None)
  {
    NoneAnswers(n, previous, entries, commit, true, (previous.index, None));
  }

  lemma GoesSteady<V, S>(d: Checkpoint<V, S>, n: Node<V, S>)
    requires Goes(d, n)
    ensures Steady(n) && WellFormed(n.state)
  {
  }

  /** A whole batch, as it arrives. */
  lemma BatchTakes<V, S>(
    d: Checkpoint<V, S>, n: Node<V, S>, previous: LogId, entries: seq<Option<Entry<V>>>, commit: U64)
    requires Goes(d, n) && n.prevoting.None? && n.role == Follower && ValidBatch(previous, entries, n.state.hard.term)
    requires entries != [] && entries[0].Some?
    ensures
      var r := BatchFrom(n, previous, entries, commit, false, (previous.index, None));
      && TakesBatch(n.state, n.cap, previous, entries, commit, r.node.state, r.index, r.rejection)
      && TableOnly(n, r.node)
  {
    hide Goes, Appended, TakesEntry, Keeps, IdAt, WellFormed, TakesFirst;
    GoesSteady(d, n);
    var e := entries[0].value;
    var r := Appended(n, previous, entries[0], commit);
    AppendedTakes(n, previous, entries[0], commit);
    AppendedGoes(d, n, previous, entries[0], commit);
    if r.rejection.None? {
      AcceptedKeeps(n.state, n.cap, previous, e, commit, r.node.state, r.index);
      var more := BatchGoesOn(d, r.node, e.id, entries[1..], commit);
      var t := BatchFrom(r.node, e.id, entries[1..], commit, true, (e.id.index, None));
      TakesOn(n.state, n.cap, previous, entries, commit, more, r.node.state, t.node.state, t.index);
      TakesBound(n.state, n.cap, previous, entries, commit, more + 1, t.node.state, t.index);
    }
  }

  lemma TakesBound<V, S>(
    s: Checkpoint<V, S>, cap: nat, previous: LogId, entries: seq<Option<Entry<V>>>, commit: U64, m: nat,
    t: Checkpoint<V, S>, index: U64)
    requires TakesFirst(s, cap, previous, entries, commit, m, t, index)
    ensures m <= |entries|
  {
  }

  // ---- Snapshots.

  /** The log starts over at the snapshot, and keeps what followed it only if it held its last entry. */
  ghost predicate StartsFrom<V, S>(s: Checkpoint<V, S>, t: Checkpoint<V, S>, snapshot: Snapshot<S>) {
    var at := snapshot.last.index;
    && t.snapshot == Some(snapshot) && t.hard == s.hard.(commit := Max(s.hard.commit, at))
    && (forall k: U64 | k <= at :: Get(t, k).None?)
    && (forall k: U64 | k > at :: Get(t, k) == if IdAt(s, at) == Some(snapshot.last) then Get(s, k) else None)
  }

  /**
   * What a snapshot does: a contradiction of committed history is refused, old news is
   * acknowledged, the rest is taken.
   */
  ghost predicate TakesSnapshot<V, S>(
    s: Checkpoint<V, S>, snapshot: Snapshot<S>, t: Checkpoint<V, S>, index: U64, rejection: Option<Rejection>)
  {
    var at := snapshot.last.index;
    && index == at
    && if at <= s.hard.commit && IdAt(s, at).Some? && IdAt(s, at).value != snapshot.last
       then t == s && rejection == Some(Conflict(SaturatingInc(Base(s).index)))
       else if at <= Base(s).index then t == s && rejection.None?
       else StartsFrom(s, t, snapshot) && rejection.None?
  }

  lemma InstalledStarts<V, S>(s: Checkpoint<V, S>, snapshot: Snapshot<S>)
    requires WellFormed(s) && Base(s).index < snapshot.last.index && 0 < snapshot.last.term <= s.hard.term
    requires snapshot.last.index > s.hard.commit || IdAt(s, snapshot.last.index) == Some(snapshot.last)
    ensures StartsFrom(s, Installed(s, snapshot), snapshot)
  {
    hide WellFormed, Contiguous, IdAt, Get, Last, Installed;
    var t := Installed(s, snapshot);
    InstalledParts(s, snapshot);
    InstalledWellFormed(s, snapshot);
    if IdAt(s, snapshot.last.index) == Some(snapshot.last) {
      InstalledSuffix(s, snapshot);
      SuffixKept(s, t, snapshot.last.index);
    } else {
      NothingKept(t);
    }
  }

  lemma InstalledParts<V, S>(s: Checkpoint<V, S>, snapshot: Snapshot<S>)
    ensures Installed(s, snapshot).snapshot == Some(snapshot)
    ensures Installed(s, snapshot).hard == s.hard.(commit := Max(s.hard.commit, snapshot.last.index))
  {
  }

  lemma SuffixKept<V, S>(s: Checkpoint<V, S>, t: Checkpoint<V, S>, at: U64)
    requires 0 <= at - Base(s).index <= |s.entries| && Base(t).index == at
    requires t.entries == s.entries[at - Base(s).index..]
    ensures forall k: U64 | k <= at :: Get(t, k).None?
    ensures forall k: U64 | k > at :: Get(t, k) == Get(s, k)
  {
  }

  lemma NothingKept<V, S>(t: Checkpoint<V, S>)
    requires t.entries == []
    ensures forall k: U64 :: Get(t, k).None?
  {
  }

  lemma InstalledTakes<V, S>(n: Node<V, S>, snapshot: Snapshot<S>)
    requires Steady(n) && WellFormed(n.state) && n.role == Follower && 0 < snapshot.last.term <= n.state.hard.term
    ensures
      var r := InstalledBy(n, snapshot);
      TakesSnapshot(n.state, snapshot, r.node.state, r.index, r.rejection) && TableOnly(n, r.node)
  {
    hide Refreshed, Installed, Contiguous, StartsFrom;
    var at := snapshot.last.index;
    if at > Base(n.state).index {
      if at <= n.state.hard.commit {
        IndexHeld(n.state, at);
      }
      if at > n.state.hard.commit || IdAt(n.state, at) == Some(snapshot.last) {
        InstalledStarts(n.state, snapshot);
        RefreshedTable(n.(logFrom := if IdAt(n.state, at) != Some(snapshot.last) then CheckedInc(at) else n.logFrom,
                          state := Installed(n.state, snapshot)));
      }
    }
  }
}
