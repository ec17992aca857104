/** The follower's side: append, snapshot installation, and what they acknowledge. */
module FixedReplication {
  import opened Types
  import opened Checkpoints
  import opened Memberships
  import opened NodeModel
  import opened RaftHistory
  import opened RaftGrowth
  import opened RaftSafety
  import opened FixedVoters
  import opened FixedSteps

  /** Section 5.3: a matching identity at position k means the logs agree up to k. */
  lemma MatchedPrefix<V>(h: History<V>, a: Log<V>, b: Log<V>, k: nat)
    requires Rooted(h, a) && Rooted(h, b) && k <= |a| && k <= |b| && IdOf(a, k) == IdOf(b, k)
    ensures Agree(a, b, k)
  {
    if k > 0 {
      LogsMatch(h, a, b, k - 1);
    }
  }

  lemma LogsRooted<V>(h: History<V>, i: Id, t: nat)
    requires Shape(h) && i in h.voters && t in h.reigns
    ensures Rooted(h, h.log[i]) && Rooted(h, h.reigns[t].log)
    ensures Numbered(h.log[i]) && Numbered(h.reigns[t].log)
  {
    assert ReignOk(h, t);
  }

  /** What a rooted log looks like on its own. */
  ghost predicate Plain<V>(log: Log<V>, bound: int) {
    Sorted(log) && Numbered(log) && forall k | 0 <= k < |log| :: 0 < log[k].id.term <= bound
  }

  lemma RootedPlain<V>(h: History<V>, log: Log<V>, bound: int)
    requires WellRooted(h, log, bound)
    ensures Plain(log, bound)
  {
  }

  /** The retained part of a rooted log is contiguous. */
  lemma RetainedContiguous<V, S>(log: Log<V>, s: Checkpoint<V, S>, app: Application<V, S>)
    requires Plain(log, s.hard.term) && Retains(log, s, app)
    ensures Contiguous(Base(s), s.entries, s.hard.term)
  {
    var base := Base(s).index;
    assert forall k | 0 <= k < |s.entries| :: s.entries[k] == log[base + k];
    if base > 0 {
      assert log[base - 1].id == Base(s);
      assert forall k | 0 <= k < |s.entries| :: log[base - 1].id.term <= s.entries[k].id.term;
    }
  }

  lemma LogPlain<V>(h: History<V>, i: Id)
    requires LogsOk(h) && i in h.voters
    ensures Plain(h.log[i], h.term[i])
  {
    RootedPlain(h, h.log[i], h.term[i]);
  }

  /** The log of the node's current term, if that term has a leader. */
  ghost function Lead<V, S>(h: History<V>, n: Node<V, S>): Log<V> {
    if n.state.hard.term as nat in h.reigns then h.reigns[n.state.hard.term as nat].log else []
  }

  /** Somebody else leads the node's term. */
  ghost predicate Led<V, S>(h: History<V>, n: Node<V, S>) {
    n.state.hard.term as nat in h.reigns && h.reigns[n.state.hard.term as nat].leader != n.config.id
  }

  /** What a follower of term t needs to know about a request of that term's leader. */
  ghost predicate Request<V, S>(h: History<V>, n: Node<V, S>, commit: U64) {
    && Led(h, n)
    && commit <= |Lead(h, n)| && Committed(h, Lead(h, n)[..commit], n.state.hard.term)
  }

  lemma AcceptedSafe<V>(h: History<V>, i: Id, n: nat) returns (h1: History<V>)
    requires Safe(h) && CanAccept(h, i, n)
    ensures h1 == Accept(h, i, n) && Safe(h1) && Grows(h, h1, i)
    ensures n <= Ack(h1, h.term[i], i)
  {
    AcceptGrows(h, i, n);
    AcceptSafe(h, i, n);
    h1 := Accept(h, i, n);
  }

  lemma DurableGrows<V, S>(h: History<V>, h1: History<V>, i: Id, s: Checkpoint<V, S>, app: Application<V, S>)
    requires Durable(h, i, s, app) && Grows(h, h1, i) && h1.ballots == h.ballots
    requires h1.term == h.term && h1.log[i] == h.log[i]
    ensures Durable(h1, i, s, app)
  {
    CommittedStable(h, h1, i, h.log[i][..s.hard.commit], s.hard.term, s.hard.term);
  }

  /** A follower that already holds the prefix acknowledges it. */
  lemma AgreeCore<V, S>(h: History<V>, n: Node<V, S>, app: Application<V, S>, k: nat) returns (h1: History<V>)
    requires Safe(h) && Core(h, n, app) && n.role == Follower
    requires Led(h, n)
    requires n.config.id in h.log && Agree(h.log[n.config.id], Lead(h, n), k)
    ensures Safe(h1) && Grows(h, h1, n.config.id) && Core(h1, n, app)
    ensures k <= Ack(h1, n.state.hard.term, n.config.id)
    ensures h1.log == h.log && h1.reigns == h.reigns
  {
    hide Safe, Fixed, Retains, Committed, Stands, Leads, VotesHeld, AcksHeld;
    h1 := AcceptedSafe(h, n.config.id, k);
    assert h1.log == h.log;
    DurableGrows(h, h1, n.config.id, n.state, app);
    FollowerCore(h1, n, app);
  }

  /** What the leader says is committed is committed in a log that agrees with it. */
  lemma LearnsCommit<V, S>(h: History<V>, n: Node<V, S>, app: Application<V, S>, k: U64, commit: U64)
    requires Core(h, n, app) && Request(h, n, commit)
    requires n.config.id in h.log && Agree(h.log[n.config.id], Lead(h, n), k)
    ensures Core(h, CommitTo(n, Min(commit, k)), app)
    ensures CommitTo(n, Min(commit, k)) ==
            n.(state := CommitTo(n, Min(commit, k)).state, dirty := CommitTo(n, Min(commit, k)).dirty)
    ensures CommitTo(n, Min(commit, k)).state.hard.term == n.state.hard.term
  {
    hide Fixed, Stands, Leads, VotesHeld, AcksHeld, CommitTo;
    var t := n.state.hard.term;
    var lead := h.reigns[t].log;
    var m := Min(commit, k);
    CommittedPrefix(h, lead[..commit], lead[..m], t);
    CommittedSlice(h, lead, h.log[n.config.id], m, t);
    CommitCore(h, n, app, m);
  }

  ghost predicate AppendRequest<V, S>(h: History<V>, n: Node<V, S>, previous: LogId, entry: Option<Entry<V>>,
      commit: U64) {
    && Request(h, n, commit)
    && var lead := Lead(h, n);
       && previous.index <= |lead| && previous == IdOf(lead, previous.index)
       && (entry.Some? ==>
             previous.index < |lead| && lead[previous.index] == entry.value && PlainEntry(n.hooks, entry.value))
  }

  /** A node that will answer: who it is, and that nothing is queued yet. */
  ghost predicate Settles<V, S>(h: History<V>, h1: History<V>, n: Node<V, S>, r: Reply<V, S>, app: Application<V, S>) {
    && Safe(h1) && Grows(h, h1, n.config.id) && Core(h1, r.node, app) && Quiet(r.node)
    && r.node.config.id == n.config.id && r.node.state.hard.term == n.state.hard.term
    && r.node.peers == n.peers && r.node.local == n.local && r.node.role == n.role
    && r.node.hooks == n.hooks && r.node.bootstrap == n.bootstrap
    && (r.rejection.None? ==> r.index <= Ack(h1, n.state.hard.term, n.config.id))
  }

  lemma SamePrefix<V>(log: Log<V>, lead: Log<V>, n: nat, k: nat, c: nat)
    requires Agree(log, lead, n) && c <= n && c <= k <= |lead|
    ensures lead[..k][..c] == log[..c]
  {
    assert lead[..k][..c] == lead[..c];
  }

  lemma SameSuffix<V>(log: Log<V>, lead: Log<V>, base: nat, k: nat)
    requires 0 < k <= |lead| && base < k && Agree(log, lead, k - 1)
    ensures k - 1 - base <= |log[base..]|
    ensures lead[..k][base..] == log[base..][..k - 1 - base] + [lead[k - 1]]
  {
    var a := lead[..k][base..];
    var b := log[base..][..k - 1 - base] + [lead[k - 1]];
    assert |a| == |b|;
    assert forall j | 0 <= j < |a| :: a[j] == b[j];
  }

  /** The follower's checkpoint after its suffix was replaced by the leader's entry. */
  lemma ReplaceDurable<V, S>(
    h: History<V>, h1: History<V>, i: Id, s: Checkpoint<V, S>, app: Application<V, S>, lead: Log<V>, k: nat)
    requires Durable(h, i, s, app) && Grows(h, h1, i) && h1.ballots == h.ballots && h1.term == h.term
    requires 0 < k <= |lead| && k <= MAX_U64 && Agree(h.log[i], lead, k - 1) && h1.log[i] == lead[..k]
    requires Base(s).index < k && s.hard.commit < k
    ensures Durable(h1, i,
              s.(entries := s.entries[..k - 1 - Base(s).index] + [lead[k - 1]]), app)
  {
    var log := h.log[i];
    var base := Base(s).index;
    hide Committed, Agree;
    CommittedStable(h, h1, i, log[..s.hard.commit], s.hard.term, s.hard.term);
    SamePrefix(log, lead, k - 1, k, s.hard.commit);
    SamePrefix(log, lead, k - 1, k, base);
    SameSuffix(log, lead, base, k);
  }

  /** The node Appended makes when it replaces a suffix, before the commit index. */
  ghost function Replaced<V, S>(n: Node<V, S>, e: Entry<V>): Node<V, S> {
    n.(state := Pushed(Truncated(n.state, e.id.index), e), dirty := true,
       logFrom := Some(if n.logFrom.None? then e.id.index else Min(n.logFrom.value, e.id.index)))
  }

  /** Truncation leaves a prefix. */
  lemma {:induction false} TruncatedStarts<V, S>(s: Checkpoint<V, S>, from: U64)
    ensures
      var t := Truncated(s, from);
      |t.entries| <= |s.entries| && t.entries == s.entries[..|t.entries|] && t.snapshot == s.snapshot
    decreases |s.entries|
  {
    if s.entries != [] && Last(s).index >= from {
      TruncatedStarts(s.(entries := s.entries[..|s.entries| - 1]), from);
    }
  }

  lemma StillReplaced<V, S>(n: Node<V, S>, e: Entry<V>)
    requires Still(n) && PlainEntry(n.hooks, e)
    ensures Still(Replaced(n, e))
  {
    TruncatedStarts(n.state, e.id.index);
  }

  lemma FixedReplaced<V, S>(n: Node<V, S>, voters: set<Id>, e: Entry<V>)
    requires Fixed(n, voters) && Still(Replaced(n, e))
    ensures
      var p := Refreshed(n.(state := Pushed(Truncated(n.state, e.id.index), e)));
      p.(dirty := true,
         logFrom := Some(if p.logFrom.None? then e.id.index else Min(p.logFrom.value, e.id.index))) == Replaced(n, e)
    ensures Fixed(Replaced(n, e), voters)
  {
    hide Truncated, Refreshed;
    var t := n.(state := Pushed(Truncated(n.state, e.id.index), e));
    FixedState(n, t, voters);
    FixedState(n, Replaced(n, e), voters);
    hide Fixed;
    FixedRefreshed(t, voters);
  }

  lemma FixedState<V, S>(n: Node<V, S>, m: Node<V, S>, voters: set<Id>)
    requires Fixed(n, voters)
    requires m == n.(state := m.state, dirty := m.dirty, logFrom := m.logFrom, snapshotChanged := m.snapshotChanged)
    ensures Fixed(m, voters)
  {
  }

  lemma ReplacedState<V, S>(h: History<V>, n: Node<V, S>, app: Application<V, S>, e: Entry<V>)
    requires LogsOk(h) && Durable(h, n.config.id, n.state, app)
    requires Base(n.state).index < e.id.index <= |h.log[n.config.id]| + 1
    ensures e.id.index - 1 - Base(n.state).index <= |n.state.entries|
    ensures Replaced(n, e).state ==
            n.state.(entries := n.state.entries[..e.id.index - 1 - Base(n.state).index] + [e])
    ensures |Truncated(n.state, e.id.index).entries| == e.id.index - 1 - Base(n.state).index
  {
    hide Truncated, Committed, WellRooted;
    var log := h.log[n.config.id];
    LogPlain(h, n.config.id);
    RetainedContiguous(log, n.state, app);
    TruncatedAt(n.state, e.id.index);
  }

  lemma ReplacedFrame<V, S>(n: Node<V, S>, e: Entry<V>)
    ensures Replaced(n, e).role == n.role && Replaced(n, e).config == n.config && Replaced(n, e).cap == n.cap
    ensures Replaced(n, e).outbox == n.outbox && Replaced(n, e).extraReply == n.extraReply
    ensures Replaced(n, e).peers == n.peers && Replaced(n, e).local == n.local
    ensures Replaced(n, e).hooks == n.hooks && Replaced(n, e).bootstrap == n.bootstrap
  {
  }

  /** The history in which voter i replaced its suffix by the leader's entry k. */
  lemma ReplaceHistory<V, S>(h: History<V>, i: Id, s: Checkpoint<V, S>, app: Application<V, S>, k: nat)
    returns (h1: History<V>)
    requires Safe(h) && Durable(h, i, s, app)
    requires s.hard.term as nat in h.reigns && h.reigns[s.hard.term].leader != i
    requires 0 < k <= |h.reigns[s.hard.term].log| && k <= MAX_U64
    requires Agree(h.log[i], h.reigns[s.hard.term].log, k - 1)
    requires !Agree(h.log[i], h.reigns[s.hard.term].log, k)
    requires Base(s).index < k && s.hard.commit < k
    ensures Safe(h1) && Grows(h, h1, i) && h1.reigns == h.reigns && h1.voters == h.voters && i in h1.log
    ensures k - 1 - Base(s).index <= |s.entries|
    ensures Durable(h1, i,
              s.(entries := s.entries[..k - 1 - Base(s).index] + [h.reigns[s.hard.term].log[k - 1]]), app)
    ensures Agree(h1.log[i], h.reigns[s.hard.term].log, k)
    ensures k <= Ack(h1, s.hard.term, i)
  {
    hide Safe, Committed;
    h1 := AcceptedSafe(h, i, k);
    hide Grows;
    ReplaceDurable(h, h1, i, s, app, h.reigns[s.hard.term].log, k);
  }

  lemma ReplaceCore<V, S>(h: History<V>, n: Node<V, S>, app: Application<V, S>, k: U64) returns (h1: History<V>)
    requires Safe(h) && Core(h, n, app) && n.role == Follower
    requires Led(h, n)
    requires 0 < k <= |Lead(h, n)| && n.config.id in h.log
    requires Agree(h.log[n.config.id], Lead(h, n), k - 1)
    requires !Agree(h.log[n.config.id], Lead(h, n), k)
    requires Lead(h, n)[k - 1].id.index == k
    requires Base(n.state).index < k && n.state.hard.commit < k
    requires k - Base(n.state).index <= n.cap && PlainEntry(n.hooks, Lead(h, n)[k - 1])
    ensures Safe(h1) && Grows(h, h1, n.config.id)
    ensures Core(h1, Replaced(n, Lead(h, n)[k - 1]), app)
    ensures h1.reigns == h.reigns && n.config.id in h1.log
    ensures Agree(h1.log[n.config.id], Lead(h, n), k)
    ensures k <= Ack(h1, n.state.hard.term, n.config.id)
  {
    hide Fixed, Durable, Stands, Leads, VotesHeld, AcksHeld, Safe, Replaced, Grows, Shape, LogsOk, ReignsOk,
         AcksOk, Domains;
    var i := n.config.id;
    var e := Lead(h, n)[k - 1];
    SafeLogs(h);
    ReplacedState(h, n, app, e);
    assert i in h.voters by { DurableVoter(h, i, n.state, app); }
    h1 := ReplaceHistory(h, i, n.state, app, k);
    hide Agree;
    ReplacedFrame(n, e);
    StillReplaced(n, e);
    hide Still;
    FixedReplaced(n, h.voters, e);
    FollowerCore(h1, Replaced(n, e), app);
  }

  lemma DurableVoter<V, S>(h: History<V>, i: Id, s: Checkpoint<V, S>, app: Application<V, S>)
    requires Durable(h, i, s, app)
    ensures i in h.voters && i in h.term && i in h.log && h.term[i] == s.hard.term
    ensures Base(s).index <= s.hard.commit <= |h.log[i]|
  {
  }

  /** Holding the entry at k means agreeing with the leader up to k. */
  lemma HeldAgrees<V, S>(h: History<V>, n: Node<V, S>, app: Application<V, S>, k: U64)
    requires Shape(h) && Core(h, n, app) && n.state.hard.term as nat in h.reigns
    requires k <= |Lead(h, n)|
    requires IdAt(n.state, k) == Some(IdOf(Lead(h, n), k))
    ensures n.config.id in h.log && Agree(h.log[n.config.id], Lead(h, n), k)
    ensures Base(n.state).index <= k
  {
    hide Fixed, Committed, Stands, Leads, VotesHeld, AcksHeld, Agree, Shape;
    var i := n.config.id;
    LogsRooted(h, i, n.state.hard.term);
    IdAtLog(h.log[i], n.state, app, k);
    hide Rooted;
    MatchedPrefix(h, h.log[i], Lead(h, n), k);
  }

  /** Not holding the entry at k, from the base on, means not agreeing up to k. */
  lemma MissingDisagrees<V, S>(h: History<V>, n: Node<V, S>, app: Application<V, S>, k: U64)
    requires Shape(h) && Core(h, n, app) && n.state.hard.term as nat in h.reigns
    requires Base(n.state).index < k <= |Lead(h, n)|
    requires IdAt(n.state, k) != Some(IdOf(Lead(h, n), k))
    ensures n.config.id in h.log && !Agree(h.log[n.config.id], Lead(h, n), k)
  {
    hide Fixed, Committed, Stands, Leads, VotesHeld, AcksHeld, Shape;
    LogsRooted(h, n.config.id, n.state.hard.term);
    hide Rooted;
    IdAtLog(h.log[n.config.id], n.state, app, k);
  }

  /** The parts of a node that decide where its answer goes. */
  ghost predicate SameSeat<V, S>(n: Node<V, S>, m: Node<V, S>) {
    && m.config == n.config && m.peers == n.peers && m.local == n.local
    && m.state.hard.term == n.state.hard.term && m.hooks == n.hooks && m.bootstrap == n.bootstrap
    && m.outbox == n.outbox && m.extraReply == n.extraReply
  }

  /** A follower that agrees up to k answers success at k and learns the commit index. */
  lemma SettlesAt<V, S>(
    h: History<V>, h1: History<V>, n: Node<V, S>, m: Node<V, S>, app: Application<V, S>, k: U64, commit: U64)
    requires Safe(h1) && Grows(h, h1, n.config.id) && Core(h1, m, app) && Quiet(n) && SameSeat(n, m) && m.role == n.role
    requires Request(h1, m, commit) && k <= Ack(h1, n.state.hard.term, n.config.id)
    requires n.config.id in h1.log && Agree(h1.log[n.config.id], Lead(h1, n), k)
    ensures Sized(m) && Timed(m)
    ensures Settles(h, h1, n, Reply(CommitTo(m, Min(commit, k)), k, None), app)
  {
    hide Durable, Fixed, Committed, Agree, Safe, Grows, Stands, Leads, VotesHeld, AcksHeld, CommitTo, Request;
    FixedSized(m, h1.voters);
    LearnsCommit(h1, m, app, k, commit);
  }

  /** The prefix is held: acknowledge it and learn the commit index. */
  lemma HeldCore<V, S>(h: History<V>, n: Node<V, S>, app: Application<V, S>, k: U64, commit: U64)
    returns (h1: History<V>)
    requires Safe(h) && Core(h, n, app) && n.role == Follower && Quiet(n) && Request(h, n, commit)
    requires k <= |Lead(h, n)|
    requires IdAt(n.state, k) == Some(IdOf(Lead(h, n), k))
    ensures Sized(n) && Timed(n)
    ensures Settles(h, h1, n, Reply(CommitTo(n, Min(commit, k)), k, None), app)
  {
    hide Proper, Sized, Timed, Same, Quiet, Durable, Fixed, Committed, Agree, Safe, Grows, Stands, Leads,
         VotesHeld, AcksHeld, CommitTo, IdAt, Settles, Shape, LogsOk, ReignsOk, AcksOk, Domains;
    SafeLogs(h);
    HeldAgrees(h, n, app, k);
    h1 := AgreeCore(h, n, app, k);
    RequestGrows(h, h1, n, commit);
    SettlesAt(h, h1, n, n, app, k, commit);
  }

  lemma RequestGrows<V, S>(h: History<V>, h1: History<V>, n: Node<V, S>, commit: U64)
    requires Request(h, n, commit) && Grows(h, h1, n.config.id) && h1.reigns == h.reigns
    ensures Request(h1, n, commit)
  {
    var t := n.state.hard.term;
    CommittedStable(h, h1, n.config.id, h.reigns[t].log[..commit], t, t);
  }

  lemma RequestAlike<V, S>(h: History<V>, n: Node<V, S>, m: Node<V, S>, commit: U64)
    requires Request(h, n, commit) && m.config == n.config && m.state.hard.term == n.state.hard.term
    ensures Request(h, m, commit)
  {
  }

  /** The entry is new: replace the suffix by it. */
  lemma NewCore<V, S>(h: History<V>, n: Node<V, S>, app: Application<V, S>, k: U64) returns (h1: History<V>)
    requires Core(h, n, app) && n.role == Follower
    requires Led(h, n)
    requires 0 < k <= |Lead(h, n)|
    requires Lead(h, n)[k - 1].id.index == k
    requires IdAt(n.state, k - 1) == Some(IdOf(Lead(h, n), k - 1))
    requires IdAt(n.state, k) != Some(IdOf(Lead(h, n), k)) && n.state.hard.commit < k
    requires k - Base(n.state).index <= n.cap && PlainEntry(n.hooks, Lead(h, n)[k - 1])
    requires Safe(h)
    ensures Safe(h1) && Grows(h, h1, n.config.id) && h1.reigns == h.reigns
    ensures Core(h1, Replaced(n, Lead(h, n)[k - 1]), app)
    ensures n.config.id in h1.log && Agree(h1.log[n.config.id], Lead(h1, n), k)
    ensures k <= Ack(h1, n.state.hard.term, n.config.id)
  {
    hide Durable, Fixed, Safe, Grows, Stands, Leads, VotesHeld, AcksHeld, Replaced, IdAt, IdOf, Agree, Shape,
         LogsOk, ReignsOk, AcksOk, Domains;
    SafeLogs(h);
    HeldAgrees(h, n, app, k - 1);
    MissingDisagrees(h, n, app, k);
    h1 := ReplaceCore(h, n, app, k);
  }

  lemma ReplacedTerm<V, S>(n: Node<V, S>, e: Entry<V>)
    ensures Replaced(n, e).state.hard == n.state.hard
  {
    TruncatedHard(n.state, e.id.index);
  }

  lemma {:induction false} TruncatedHard<V, S>(s: Checkpoint<V, S>, from: U64)
    ensures Truncated(s, from).hard == s.hard && Truncated(s, from).snapshot == s.snapshot
    decreases |s.entries|
  {
    if s.entries != [] && Last(s).index >= from {
      TruncatedHard(s.(entries := s.entries[..|s.entries| - 1]), from);
    }
  }

  /** Appending to a log that fits never runs into a full log half-way. */
  lemma NoHalfWay<V, S>(h: History<V>, n: Node<V, S>, app: Application<V, S>, k: U64)
    requires LogsOk(h) && Core(h, n, app) && 0 < k
    requires IdAt(n.state, k - 1).Some? && IdAt(n.state, k - 1).value.index == k - 1
    requires |n.state.entries| >= n.cap ==> k <= Last(n.state).index
    requires Base(n.state).index < k
    ensures |Truncated(n.state, k).entries| < n.cap && k - Base(n.state).index <= n.cap
  {
    hide Fixed, Committed, Stands, Leads, VotesHeld, AcksHeld, Truncated, WellRooted;
    var i := n.config.id;
    LogPlain(h, i);
    LogNumbered(h, i);
    IdAtLog(h.log[i], n.state, app, k - 1);
    RetainedContiguous(h.log[i], n.state, app);
    TruncatedAt(n.state, k);
    LastOfLog(h, n, app);
    assert n.cap > 0 by { FixedCap(n, h.voters); }
  }

  lemma FixedCap<V, S>(n: Node<V, S>, voters: set<Id>)
    requires Fixed(n, voters)
    ensures n.cap > 0
  {
  }

  lemma SettlesSame<V, S>(h: History<V>, n: Node<V, S>, app: Application<V, S>, index: U64, why: Rejection)
    requires Safe(h) && Core(h, n, app) && Quiet(n)
    ensures Settles(h, h, n, Reply(n, index, Some(why)), app)
  {
    hide Safe, Core;
    GrowsRefl(h, n.config.id);
  }

  /** A full follower still learns the commit index of the prefix it holds. */
  lemma FullCore<V, S>(h: History<V>, n: Node<V, S>, app: Application<V, S>, k: U64, commit: U64)
    requires Safe(h) && Core(h, n, app) && Quiet(n) && Request(h, n, commit)
    requires k <= |Lead(h, n)|
    requires IdAt(n.state, k) == Some(IdOf(Lead(h, n), k))
    ensures Sized(n) && Timed(n)
    ensures Settles(h, h, n, Reply(CommitTo(n, Min(commit, k)), k, Some(NoRoom)), app)
  {
    hide Durable, Fixed, Committed, Agree, Safe, Stands, Leads, VotesHeld, AcksHeld, CommitTo, IdAt, Request,
         Shape, LogsOk, ReignsOk, AcksOk, Domains;
    FixedSized(n, h.voters);
    SafeLogs(h);
    RequestReign(h, n, commit);
    HeldAgrees(h, n, app, k);
    GrowsRefl(h, n.config.id);
    LearnsCommit(h, n, app, k, commit);
  }

  lemma RequestReign<V, S>(h: History<V>, n: Node<V, S>, commit: U64)
    requires Request(h, n, commit)
    ensures Led(h, n)
  {
  }

  lemma CoreSized<V, S>(h: History<V>, n: Node<V, S>, app: Application<V, S>)
    requires Core(h, n, app)
    ensures Sized(n) && Timed(n)
  {
  }

  /** The entry of a request, when it is new and there is room. */
  lemma NewEntrySettles<V, S>(
    h: History<V>, n: Node<V, S>, app: Application<V, S>, e: Entry<V>, commit: U64) returns (h1: History<V>)
    requires Core(h, n, app) && n.role == Follower && Quiet(n) && Request(h, n, commit)
    requires 0 < e.id.index <= |Lead(h, n)| && Lead(h, n)[e.id.index - 1] == e
    requires IdAt(n.state, e.id.index - 1) == Some(IdOf(Lead(h, n), e.id.index - 1))
    requires IdAt(n.state, e.id.index) != Some(e.id) && n.state.hard.commit < e.id.index
    requires |n.state.entries| >= n.cap ==> e.id.index <= Last(n.state).index
    requires PlainEntry(n.hooks, e)
    requires Safe(h)
    ensures Sized(n) && Timed(n)
    ensures
      var previous := IdOf(Lead(h, n), e.id.index - 1);
      Settles(h, h1, n, Appended(n, previous, Some(e), commit), app)
  {
    hide Durable, Fixed, Committed, Agree, Safe, Grows, Stands, Leads, VotesHeld, AcksHeld, CommitTo, IdAt,
         Settles, Request, Truncated, Refreshed, Core, Replaced, Sized, Timed, Same, Quiet, Proper, Shape,
         LogsOk, ReignsOk, AcksOk, Domains;
    CoreSized(h, n, app);
    SafeLogs(h);
    RequestReign(h, n, commit);
    var k := e.id.index;
    BaseBefore(h, n, app, k - 1);
    NoHalfWay(h, n, app, k);
    h1 := NewCore(h, n, app, k);
    NewSettles(h, h1, n, app, e, commit);
  }

  /** The entry of a request whose predecessor is held. */
  lemma EntrySettles<V, S>(
    h: History<V>, n: Node<V, S>, app: Application<V, S>, e: Entry<V>, commit: U64) returns (h1: History<V>)
    requires Core(h, n, app) && n.role == Follower && Quiet(n) && Request(h, n, commit)
    requires 0 < e.id.index <= |Lead(h, n)| && Lead(h, n)[e.id.index - 1] == e && PlainEntry(n.hooks, e)
    requires IdAt(n.state, e.id.index - 1) == Some(IdOf(Lead(h, n), e.id.index - 1))
    requires Safe(h)
    ensures Sized(n) && Timed(n)
    ensures
      var previous := IdOf(Lead(h, n), e.id.index - 1);
      Settles(h, h1, n, Appended(n, previous, Some(e), commit), app)
  {
    hide Durable, Fixed, Committed, Agree, Safe, Grows, Stands, Leads, VotesHeld, AcksHeld, CommitTo, IdAt,
         Settles, Request, Truncated, Refreshed, Core, Replaced, Sized, Timed, Same, Quiet, Proper, Shape,
         LogsOk, ReignsOk, AcksOk, Domains;
    CoreSized(h, n, app);
    SafeLogs(h);
    RequestReign(h, n, commit);
    var k := e.id.index;
    BaseBefore(h, n, app, k - 1);
    if IdAt(n.state, k) == Some(e.id) {
      h1 := HeldCore(h, n, app, k, commit);
    } else if k <= n.state.hard.commit {
      h1 := h;
      SettlesSame(h, n, app, k - 1, Conflict(k));
    } else if |n.state.entries| >= n.cap && k > Last(n.state).index {
      h1 := h;
      FullCore(h, n, app, k - 1, commit);
    } else {
      h1 := NewEntrySettles(h, n, app, e, commit);
    }
  }

  /** A leader's append request, whatever its outcome. */
  lemma AppendSettles<V, S>(
    h: History<V>, n: Node<V, S>, app: Application<V, S>,
    previous: LogId, entry: Option<Entry<V>>, commit: U64) returns (h1: History<V>)
    requires Safe(h) && Core(h, n, app) && n.role == Follower && Quiet(n)
    requires AppendRequest(h, n, previous, entry, commit)
    ensures Sized(n) && Timed(n)
    ensures Settles(h, h1, n, Appended(n, previous, entry, commit), app)
  {
    hide Proper, Sized, Timed, Same, Quiet, Durable, Fixed, Committed, Agree, Safe, Grows, Stands, Leads,
         VotesHeld, AcksHeld, CommitTo, IdAt, Settles, Request, Truncated, Refreshed, Core, Replaced, Shape,
         LogsOk, ReignsOk, AcksOk, Domains;
    CoreSized(h, n, app);
    SafeLogs(h);
    RequestReign(h, n, commit);
    ReignNumbered(h, n.state.hard.term);
    h1 := h;
    if IdAt(n.state, previous.index) != Some(previous) {
      SettlesSame(h, n, app, previous.index, Conflict(Retry(n.state, previous)));
    } else if entry.None? {
      h1 := HeldCore(h, n, app, previous.index, commit);
    } else {
      h1 := EntrySettles(h, n, app, entry.value, commit);
    }
  }

  /** A batch of a leader: where it starts, what it holds, and that nothing in it changes the membership. */
  ghost predicate BatchRequest<V, S>(
    h: History<V>, n: Node<V, S>, previous: LogId, entries: seq<Option<Entry<V>>>, commit: U64)
  {
    && Request(h, n, commit)
    && previous.index <= |Lead(h, n)| && previous == IdOf(Lead(h, n), previous.index)
    && RunOf(Lead(h, n), previous.index, entries)
    && forall k | 0 <= k < |entries| && entries[k].Some? :: PlainEntry(n.hooks, entries[k].value)
  }

  lemma BatchHead<V, S>(
    h: History<V>, n: Node<V, S>, previous: LogId, entries: seq<Option<Entry<V>>>, commit: U64)
    requires BatchRequest(h, n, previous, entries, commit) && entries != [] && entries[0].Some?
    ensures AppendRequest(h, n, previous, entries[0], commit)
  {
    hide Committed;
  }

  /** After its first entry a batch goes on from that entry. */
  lemma BatchRest<V, S>(
    h: History<V>, h1: History<V>, n: Node<V, S>, m: Node<V, S>, previous: LogId, entries: seq<Option<Entry<V>>>,
    commit: U64)
    requires BatchRequest(h, n, previous, entries, commit) && entries != [] && entries[0].Some?
    requires Grows(h, h1, n.config.id) && Numbered(Lead(h, n))
    requires m.config.id == n.config.id && m.state.hard.term == n.state.hard.term && m.hooks == n.hooks
    ensures BatchRequest(h1, m, entries[0].value.id, entries[1..], commit)
  {
    var t := n.state.hard.term;
    assert Lead(h1, m) == Lead(h, n);
    CommittedStable(h, h1, n.config.id, h.reigns[t].log[..commit], t, t);
    hide Committed, Grows;
    forall k | 0 <= k < |entries[1..]| && entries[1..][k].Some?
      ensures entries[0].value.id.index + k < |Lead(h, n)|
      ensures Lead(h, n)[entries[0].value.id.index + k] == entries[1..][k].value
      ensures forall j | 0 <= j < k :: entries[1..][j].Some?
    {
      assert entries[k + 1].Some?;
    }
  }

  lemma BatchSkip<V, S>(
    h: History<V>, n: Node<V, S>, previous: LogId, entries: seq<Option<Entry<V>>>, commit: U64)
    requires BatchRequest(h, n, previous, entries, commit) && entries != [] && entries[0].None?
    ensures BatchRequest(h, n, previous, entries[1..], commit)
    ensures forall k | 0 <= k < |entries| :: entries[k].None?
  {
    hide Committed;
  }

  lemma SettlesOn<V, S>(
    h: History<V>, h1: History<V>, h2: History<V>, n: Node<V, S>, m: Node<V, S>, r: Reply<V, S>,
    app: Application<V, S>)
    requires Grows(h, h1, n.config.id) && m.config.id == n.config.id && m.state.hard.term == n.state.hard.term
    requires m.peers == n.peers && m.local == n.local && m.role == n.role
    requires m.hooks == n.hooks && m.bootstrap == n.bootstrap
    requires Settles(h1, h2, m, r, app)
    ensures Settles(h, h2, n, r, app)
  {
    hide Safe, Core, Grows;
    GrowsTrans(h, h1, h2, n.config.id);
  }

  /** What an earlier entry of the batch acknowledged, if any, still stands. */
  lemma SettlesAnswer<V, S>(h: History<V>, h1: History<V>, n: Node<V, S>, r: Reply<V, S>, app: Application<V, S>,
      index: U64)
    requires Settles(h, h1, n, r, app) && index <= Ack(h, n.state.hard.term, n.config.id)
    ensures Settles(h, h1, n, Reply(r.node, index, None), app)
  {
    hide Safe, Core;
    AckStable(h, h1, n.config.id, n.state.hard.term, n.config.id);
  }

  /** A leader's batch, entry by entry, up to the first one that is rejected. */
  lemma {:induction false} BatchSettles<V, S>(
    h: History<V>, n: Node<V, S>, app: Application<V, S>, previous: LogId, entries: seq<Option<Entry<V>>>,
    commit: U64, accepted: bool, answer: (U64, Option<Rejection>)) returns (h1: History<V>)
    requires Core(h, n, app) && n.role == Follower && Quiet(n)
    requires BatchRequest(h, n, previous, entries, commit)
    requires accepted ==> answer.1.None? && answer.0 <= Ack(h, n.state.hard.term, n.config.id)
    requires !accepted ==> entries != [] && entries[0].Some?
    requires Safe(h)
    ensures Sized(n) && Timed(n)
    ensures Settles(h, h1, n, BatchFrom(n, previous, entries, commit, accepted, answer), app)
    decreases |entries|
  {
    hide Safe, Core, Grows, Appended, BatchRequest, Settles, Quiet, Ack, Shape, LogsOk, ReignsOk, AcksOk, Domains;
    CoreSized(h, n, app);
    h1 := h;
    if entries == [] {
      SettlesSame(h, n, app, answer.0, NoRoom);
      SettlesAnswer(h, h, n, Reply(n, answer.0, Some(NoRoom)), app, answer.0);
    } else if entries[0].None? {
      BatchSkip(h, n, previous, entries, commit);
      h1 := BatchSettles(h, n, app, previous, entries[1..], commit, accepted, answer);
    } else {
      BatchHead(h, n, previous, entries, commit);
      h1 := AppendSettles(h, n, app, previous, entries[0], commit);
      var r := Appended(n, previous, entries[0], commit);
      if r.rejection.Some? {
        if accepted {
          SettlesAnswer(h, h1, n, r, app, answer.0);
        }
      } else {
        BatchNext(h, h1, n, r, app, previous, entries, commit);
        var hm := h1;
        h1 := BatchSettles(hm, r.node, app, entries[0].value.id, entries[1..], commit, true, (r.index, None));
        SettlesParts(h, hm, n, r, app);
        SettlesOn(h, hm, h1, n, r.node,
                  BatchFrom(r.node, entries[0].value.id, entries[1..], commit, true, (r.index, None)), app);
      }
    }
  }

  lemma SettlesParts<V, S>(h: History<V>, h1: History<V>, n: Node<V, S>, r: Reply<V, S>, app: Application<V, S>)
    requires Settles(h, h1, n, r, app)
    ensures Safe(h1) && Grows(h, h1, n.config.id) && Core(h1, r.node, app) && Quiet(r.node)
    ensures r.node.config.id == n.config.id && r.node.state.hard.term == n.state.hard.term
    ensures r.node.peers == n.peers && r.node.local == n.local && r.node.role == n.role
    ensures r.node.hooks == n.hooks && r.node.bootstrap == n.bootstrap
    ensures r.rejection.None? ==> r.index <= Ack(h1, n.state.hard.term, n.config.id)
  {
  }

  lemma BatchNext<V, S>(
    h: History<V>, h1: History<V>, n: Node<V, S>, r: Reply<V, S>, app: Application<V, S>, previous: LogId,
    entries: seq<Option<Entry<V>>>, commit: U64)
    requires Settles(h, h1, n, r, app) && r.rejection.None? && n.role == Follower
    requires BatchRequest(h, n, previous, entries, commit) && entries != [] && entries[0].Some?
    requires Safe(h)
    ensures Safe(h1) && Core(h1, r.node, app) && r.node.role == Follower && Quiet(r.node)
    ensures r.index <= Ack(h1, r.node.state.hard.term, r.node.config.id)
    ensures BatchRequest(h1, r.node, entries[0].value.id, entries[1..], commit)
  {
    hide Core, Grows, Shape, LogsOk, ReignsOk, AcksOk, Domains, Committed, Safe;
    SettlesParts(h, h1, n, r, app);
    SafeLogs(h);
    ReignNumbered(h, n.state.hard.term);
    BatchRest(h, h1, n, r.node, previous, entries, commit);
  }

  lemma BaseBefore<V, S>(h: History<V>, n: Node<V, S>, app: Application<V, S>, k: U64)
    requires LogsOk(h) && Core(h, n, app) && IdAt(n.state, k).Some?
    ensures Base(n.state).index <= k && IdAt(n.state, k).value.index == k
  {
    hide Fixed, Committed, Stands, Leads, VotesHeld, AcksHeld, WellRooted;
    LogNumbered(h, n.config.id);
    IdAtLog(h.log[n.config.id], n.state, app, k);
  }

  lemma NewSettles<V, S>(
    h: History<V>, h1: History<V>, n: Node<V, S>, app: Application<V, S>, e: Entry<V>, commit: U64)
    requires Safe(h1) && Grows(h, h1, n.config.id) && h1.reigns == h.reigns && Quiet(n)
    requires Core(h1, Replaced(n, e), app) && Request(h, n, commit)
    requires n.state.hard.term as nat in h1.reigns
    requires n.config.id in h1.log && Agree(h1.log[n.config.id], Lead(h1, n), e.id.index)
    requires e.id.index <= Ack(h1, n.state.hard.term, n.config.id)
    requires Sized(n) && Timed(n)
    requires |Truncated(n.state, e.id.index).entries| < n.cap
    ensures
      var p := Refreshed(n.(state := Pushed(Truncated(n.state, e.id.index), e)));
      var q := p.(dirty := true,
                  logFrom := Some(if p.logFrom.None? then e.id.index else Min(p.logFrom.value, e.id.index)));
      Settles(h, h1, n, Reply(CommitTo(q, Min(commit, e.id.index)), e.id.index, None), app)
  {
    hide Core, Committed, Agree, Safe, Grows, CommitTo, Request, Truncated, Refreshed, Replaced, Settles;
    ReplacedFixed(h1, n, app, e);
    ReplacedFrame(n, e);
    ReplacedTerm(n, e);
    RequestGrows(h, h1, n, commit);
    RequestAlike(h1, n, Replaced(n, e), commit);
    SettlesAt(h, h1, n, Replaced(n, e), app, e.id.index, commit);
  }

  lemma ReplacedFixed<V, S>(h: History<V>, n: Node<V, S>, app: Application<V, S>, e: Entry<V>)
    requires Core(h, Replaced(n, e), app)
    ensures Sized(n) && Timed(n)
    ensures
      var p := Refreshed(n.(state := Pushed(Truncated(n.state, e.id.index), e)));
      p.(dirty := true,
         logFrom := Some(if p.logFrom.None? then e.id.index else Min(p.logFrom.value, e.id.index))) == Replaced(n, e)
  {
    hide Durable, Truncated, Refreshed;
    FixedState(Replaced(n, e), n, h.voters);
    hide Fixed;
    FixedReplaced(n, h.voters, e);
  }

  // ---- Snapshots.

  ghost predicate InstallRequest<V, S>(h: History<V>, n: Node<V, S>, snapshot: Snapshot<S>, app: Application<V, S>) {
    var k := snapshot.last.index;
    && Led(h, n) && 0 < k <= |Lead(h, n)| && IdOf(Lead(h, n), k) == snapshot.last
    && Committed(h, Lead(h, n)[..k], n.state.hard.term)
    && snapshot.value == app(Lead(h, n)[..k]) && PlainSnapshot(n.hooks, n.bootstrap, snapshot.value)
  }

  /** The node InstalledBy makes when it takes the snapshot. */
  ghost function Took<V, S>(n: Node<V, S>, snapshot: Snapshot<S>): Node<V, S> {
    var k := snapshot.last.index;
    n.(logFrom := if IdAt(n.state, k) != Some(snapshot.last) then CheckedInc(k) else n.logFrom,
       state := Installed(n.state, snapshot),
       snapshotChanged := true,
       dirty := true)
  }

  lemma StillTook<V, S>(n: Node<V, S>, snapshot: Snapshot<S>)
    requires Still(n) && PlainSnapshot(n.hooks, n.bootstrap, snapshot.value)
    ensures Still(Took(n, snapshot))
  {
  }

  lemma FixedTook<V, S>(n: Node<V, S>, voters: set<Id>, snapshot: Snapshot<S>)
    requires Fixed(n, voters) && Still(Took(n, snapshot))
    ensures
      var k := snapshot.last.index;
      var logFrom := if IdAt(n.state, k) != Some(snapshot.last) then CheckedInc(k) else n.logFrom;
      Refreshed(n.(logFrom := logFrom, state := Installed(n.state, snapshot))).(snapshotChanged := true, dirty := true)
      == Took(n, snapshot)
    ensures Fixed(Took(n, snapshot), voters)
  {
    hide Installed, Refreshed, IdAt;
    var k := snapshot.last.index;
    var logFrom := if IdAt(n.state, k) != Some(snapshot.last) then CheckedInc(k) else n.logFrom;
    var m := n.(logFrom := logFrom, state := Installed(n.state, snapshot));
    FixedState(n, m, voters);
    FixedState(n, Took(n, snapshot), voters);
    hide Fixed;
    FixedRefreshed(m, voters);
  }

  /** Folding a held, committed prefix into the snapshot. */
  lemma FoldDurable<V, S>(h: History<V>, i: Id, s: Checkpoint<V, S>, app: Application<V, S>, snapshot: Snapshot<S>)
    requires Durable(h, i, s, app) && Numbered(h.log[i])
    requires Base(s).index <= snapshot.last.index <= |h.log[i]| && 0 < snapshot.last.index
    requires IdOf(h.log[i], snapshot.last.index) == snapshot.last
    requires snapshot.value == app(h.log[i][..snapshot.last.index])
    requires Committed(h, h.log[i][..snapshot.last.index], s.hard.term)
    ensures Durable(h, i, Installed(s, snapshot), app)
    ensures |Installed(s, snapshot).entries| <= |s.entries|
  {
    hide Committed;
    var k := snapshot.last.index;
    IdAtLog(h.log[i], s, app, k);
    assert h.log[i][Base(s).index..][k - Base(s).index..] == h.log[i][k..];
  }

  /** Replacing the whole log by the leader's snapshot. */
  lemma JumpDurable<V, S>(
    h: History<V>, h1: History<V>, i: Id, s: Checkpoint<V, S>, app: Application<V, S>,
    lead: Log<V>, snapshot: Snapshot<S>)
    requires Durable(h, i, s, app) && h1.ballots == h.ballots && h1.term == h.term && h1.voters == h.voters
    requires 0 < snapshot.last.index <= |lead| && i in h1.log && h1.log[i] == lead[..snapshot.last.index]
    requires IdOf(lead, snapshot.last.index) == snapshot.last && s.hard.commit <= snapshot.last.index
    requires snapshot.value == app(lead[..snapshot.last.index])
    requires Committed(h1, lead[..snapshot.last.index], s.hard.term)
    requires IdAt(s, snapshot.last.index) != Some(snapshot.last)
    ensures Durable(h1, i, Installed(s, snapshot), app)
    ensures Installed(s, snapshot).entries == []
  {
    hide Committed;
    var k := snapshot.last.index;
    assert lead[..k][..k] == lead[..k];
    assert lead[..k][k..] == [];
  }

  /** A follower that holds the snapshot's boundary, or whose commit index covers it. */
  lemma SnapshotHeld<V, S>(h: History<V>, n: Node<V, S>, app: Application<V, S>, k: U64)
    requires Shape(h) && ReignsSafe(h) && Core(h, n, app) && Led(h, n) && k <= n.state.hard.commit
    requires k <= |Lead(h, n)|
    ensures n.config.id in h.log && Agree(h.log[n.config.id], Lead(h, n), k)
  {
    hide Fixed, Stands, Leads, VotesHeld, AcksHeld, Shape, ReignsSafe, Committed;
    var i := n.config.id;
    CommittedInReign(h, h.log[i][..n.state.hard.commit], n.state.hard.term, n.state.hard.term);
  }

  lemma TookFrame<V, S>(n: Node<V, S>, snapshot: Snapshot<S>)
    ensures SameSeat(n, Took(n, snapshot)) && Took(n, snapshot).role == n.role && Took(n, snapshot).cap == n.cap
  {
  }

  /** Taking a snapshot whose boundary the log holds. */
  lemma FoldCore<V, S>(h: History<V>, n: Node<V, S>, app: Application<V, S>, snapshot: Snapshot<S>)
    returns (h1: History<V>)
    requires Core(h, n, app) && n.role == Follower && InstallRequest(h, n, snapshot, app)
    requires IdAt(n.state, snapshot.last.index) == Some(snapshot.last)
    requires Safe(h)
    ensures Safe(h1) && Grows(h, h1, n.config.id) && Core(h1, Took(n, snapshot), app)
    ensures snapshot.last.index <= Ack(h1, n.state.hard.term, n.config.id)
  {
    hide Durable, Fixed, Committed, Safe, Grows, Stands, Leads, VotesHeld, AcksHeld, Took, IdAt,
         Shape, LogsOk, ReignsOk, AcksOk, Domains, Installed;
    var k := snapshot.last.index;
    var i := n.config.id;
    SafeLogs(h);
    HeldAgrees(h, n, app, k);
    CommittedSlice(h, Lead(h, n), h.log[i], k, n.state.hard.term);
    assert Lead(h, n)[..k] == h.log[i][..k];
    h1 := AgreeCore(h, n, app, k);
    DurableVoter(h, i, n.state, app);
    CommittedStable(h, h1, i, h.log[i][..k], n.state.hard.term, n.state.hard.term);
    SafeLogs(h1);
    LogNumbered(h1, i);
    FoldDurable(h1, i, n.state, app, snapshot);
    TookFrame(n, snapshot);
    TookState(n, snapshot);
    StillTook(n, snapshot);
    FixedTook(n, h1.voters, snapshot);
    FollowerCore(h1, Took(n, snapshot), app);
  }

  lemma TookState<V, S>(n: Node<V, S>, snapshot: Snapshot<S>)
    ensures Took(n, snapshot).state == Installed(n.state, snapshot)
  {
  }

  /** Taking a snapshot beyond or beside the log. */
  lemma JumpCore<V, S>(h: History<V>, n: Node<V, S>, app: Application<V, S>, snapshot: Snapshot<S>)
    returns (h1: History<V>)
    requires Core(h, n, app) && n.role == Follower && InstallRequest(h, n, snapshot, app)
    requires IdAt(n.state, snapshot.last.index) != Some(snapshot.last)
    requires n.state.hard.commit < snapshot.last.index
    requires Safe(h)
    ensures Safe(h1) && Grows(h, h1, n.config.id) && Core(h1, Took(n, snapshot), app)
    ensures snapshot.last.index <= Ack(h1, n.state.hard.term, n.config.id)
  {
    hide Fixed, Retains, Committed, Safe, Grows, Stands, Leads, VotesHeld, AcksHeld, Took, IdAt,
         Shape, LogsOk, ReignsOk, AcksOk, Domains, Installed;
    var k := snapshot.last.index;
    var i := n.config.id;
    SafeLogs(h);
    DurableVoter(h, i, n.state, app);
    MissingDisagrees(h, n, app, k);
    h1 := AcceptedSafe(h, i, k);
    CommittedStable(h, h1, i, Lead(h, n)[..k], n.state.hard.term, n.state.hard.term);
    JumpDurable(h, h1, i, n.state, app, Lead(h, n), snapshot);
    TookFrame(n, snapshot);
    TookState(n, snapshot);
    StillTook(n, snapshot);
    FixedTook(n, h1.voters, snapshot);
    FixedCap(n, h.voters);
    FollowerCore(h1, Took(n, snapshot), app);
  }

  /** A leader's snapshot, whatever its outcome. */
  lemma InstallSettles<V, S>(h: History<V>, n: Node<V, S>, app: Application<V, S>, snapshot: Snapshot<S>)
    returns (h1: History<V>)
    requires Core(h, n, app) && n.role == Follower && Quiet(n) && InstallRequest(h, n, snapshot, app)
    requires Safe(h)
    ensures Sized(n) && Timed(n)
    ensures Settles(h, h1, n, InstalledBy(n, snapshot), app)
  {
    hide Durable, Fixed, Committed, Safe, Grows, Stands, Leads, VotesHeld, AcksHeld, Took, IdAt,
         Shape, LogsOk, ReignsOk, AcksOk, Domains, Installed, Refreshed, ReignsSafe;
    CoreSized(h, n, app);
    SafeLogs(h);
    var k := snapshot.last.index;
    var at := IdAt(n.state, k);
    StillTook(n, snapshot);
    FixedTook(n, h.voters, snapshot);
    TookFrame(n, snapshot);
    if k <= n.state.hard.commit && at.Some? && at.value != snapshot.last {
      h1 := h;
      SettlesSame(h, n, app, k, Conflict(SaturatingInc(Base(n.state).index)));
    } else if at == Some(snapshot.last) && k > Base(n.state).index {
      h1 := FoldCore(h, n, app, snapshot);
    } else if k > n.state.hard.commit {
      DurableVoter(h, n.config.id, n.state, app);
      h1 := JumpCore(h, n, app, snapshot);
    } else {
      SafeReigns(h);
      SnapshotHeld(h, n, app, k);
      h1 := AgreeCore(h, n, app, k);
    }
  }

  lemma SafeReigns<V>(h: History<V>)
    requires Safe(h)
    ensures ReignsSafe(h)
  {
  }
}
