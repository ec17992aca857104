/**
 * The history of a fixed-voter cluster, in ghost terms: every voter's durable term
 * and full log (from index one, whatever was compacted away), the log of each
 * term's leader, the ballots cast, the log each candidate stood on, and how much of a
 * term's log each voter has acknowledged in that term.
 *
 * The six steps below are the durable effects a voter can have on this history.
 * `Safe` is kept by all of them (RaftSafety.dfy).
 */
module RaftHistory {
  import opened Types

  type Log<V> = seq<Entry<V>>

  datatype Reign<V> = Reign(leader: Id, log: Log<V>)

  datatype History<V> = History(
    voters: set<Id>,
    term: map<Id, nat>,
    log: map<Id, Log<V>>,
    reigns: map<nat, Reign<V>>,
    ballots: map<(nat, Id), Id>,
    platforms: map<(nat, Id), Log<V>>,
    acks: map<(nat, Id), nat>)

  ghost predicate Majority(part: set<Id>, whole: set<Id>) {
    part <= whole && 2 * |part| > |whole|
  }

  /** The first n entries of both logs exist and are the same. */
  ghost predicate Agree<V>(a: Log<V>, b: Log<V>, n: nat) {
    n <= |a| && n <= |b| && forall i | 0 <= i < n :: a[i] == b[i]
  }

  /** How many entries of term t's log voter j has acknowledged in term t. */
  ghost function Ack<V>(h: History<V>, t: nat, j: Id): nat {
    if (t, j) in h.acks then h.acks[(t, j)] else 0
  }

  ghost function Supporters<V>(h: History<V>, t: nat, c: Id): set<Id> {
    set j | j in h.voters && (t, j) in h.ballots && h.ballots[(t, j)] == c
  }

  ghost function Backers<V>(h: History<V>, t: nat, n: nat): set<Id> {
    set j | j in h.voters && Ack(h, t, j) >= n
  }

  ghost function Blockers<V>(h: History<V>, t: nat, n: nat): set<Id> {
    set j | j in h.voters && j in h.term && h.term[j] > t && Ack(h, t, j) < n
  }

  /** Entry n of term t's log was made in term t itself. */
  ghost predicate Own<V>(h: History<V>, t: nat, n: nat) {
    t in h.reigns && 0 < n <= |h.reigns[t].log| && h.reigns[t].log[n - 1].id.term == t
  }

  /** A majority has acknowledged the first n entries of term t's log, in term t. */
  ghost predicate Chosen<V>(h: History<V>, t: nat, n: nat) {
    Own(h, t, n) && Majority(Backers(h, t, n), h.voters)
  }

  /** A majority has left term t without acknowledging entry n, and never will. */
  ghost predicate Unchoosable<V>(h: History<V>, t: nat, n: nat) {
    Majority(Blockers(h, t, n), h.voters)
  }

  ghost predicate Sorted<V>(log: Log<V>) {
    forall i, k | 0 <= i <= k < |log| :: log[i].id.term <= log[k].id.term
  }

  /** Every prefix that ends in term t is a prefix of that term's own log. */
  ghost predicate Rooted<V>(h: History<V>, log: Log<V>) {
    forall k | 0 <= k < |log| ::
      && log[k].id.index == k + 1
      && log[k].id.term in h.reigns
      && Agree(log, h.reigns[log[k].id.term].log, k + 1)
  }

  ghost predicate WellRooted<V>(h: History<V>, log: Log<V>, bound: int) {
    Sorted(log) && Rooted(h, log) && forall k | 0 <= k < |log| :: 0 < log[k].id.term <= bound
  }

  ghost predicate Domains<V>(h: History<V>) {
    h.voters != {} && h.term.Keys == h.voters && h.log.Keys == h.voters
  }

  ghost predicate BallotsOk<V>(h: History<V>) {
    forall t: nat, j | (t, j) in h.ballots ::
      && j in h.voters && j in h.term && t <= h.term[j]
      && (t, h.ballots[(t, j)]) in h.platforms
  }

  ghost predicate PlatformsOk<V>(h: History<V>) {
    forall t: nat, c | (t, c) in h.platforms ::
      && c in h.voters
      && 0 < t <= MAX_U64
      && (t, c) in h.ballots && h.ballots[(t, c)] == c
      && WellRooted(h, h.platforms[(t, c)], t - 1)
  }

  ghost predicate ReignOk<V>(h: History<V>, t: nat) {
    t in h.reigns ==>
      var r := h.reigns[t];
      && (t, r.leader) in h.platforms
      && Majority(Supporters(h, t, r.leader), h.voters)
      && Agree(h.platforms[(t, r.leader)], r.log, |h.platforms[(t, r.leader)]|)
      && (forall k | |h.platforms[(t, r.leader)]| <= k < |r.log| :: r.log[k].id.term == t)
      && WellRooted(h, r.log, t)
  }

  ghost predicate ReignsOk<V>(h: History<V>) {
    forall t: nat | t in h.reigns :: ReignOk(h, t)
  }

  ghost predicate LogsOk<V>(h: History<V>) {
    forall j | j in h.voters :: j in h.log && j in h.term && WellRooted(h, h.log[j], h.term[j])
  }

  ghost predicate AcksOk<V>(h: History<V>) {
    forall t: nat, j | (t, j) in h.acks ::
      && j in h.voters && j in h.term && t <= h.term[j]
      && t in h.reigns && h.acks[(t, j)] <= |h.reigns[t].log|
  }

  /** A log holds what term t's log holds up to n, unless that can no longer be chosen. */
  ghost predicate Carries<V>(h: History<V>, log: Log<V>, t: nat, n: nat)
    requires t in h.reigns
  {
    Agree(log, h.reigns[t].log, n) || Unchoosable(h, t, n)
  }

  /** What a voter acknowledged, it still holds. */
  ghost predicate AcksKept<V>(h: History<V>) {
    forall t: nat, j, n: nat | (t, j) in h.acks && j in h.log && n <= h.acks[(t, j)] && Own(h, t, n) ::
      Carries(h, h.log[j], t, n)
  }

  /** While a voter stays in a term, its log matches the leader's up to what it acknowledged there. */
  ghost predicate AcksMatch<V>(h: History<V>) {
    forall t: nat, j | (t, j) in h.acks && j in h.term && j in h.log && h.term[j] == t && t in h.reigns ::
      Agree(h.log[j], h.reigns[t].log, h.acks[(t, j)])
  }

  /** What a voter had acknowledged in an earlier term, the candidate it voted for held. */
  ghost predicate BallotsSafe<V>(h: History<V>) {
    forall s: nat, t: nat, j, n: nat |
      && (s, j) in h.ballots && (s, h.ballots[(s, j)]) in h.platforms
      && t < s && (t, j) in h.acks && n <= h.acks[(t, j)] && Own(h, t, n) ::
      Carries(h, h.platforms[(s, h.ballots[(s, j)])], t, n)
  }

  /** Whatever may have been chosen in an earlier term is in a later leader's log. */
  ghost predicate ReignsSafe<V>(h: History<V>) {
    forall s: nat, t: nat, n: nat | s in h.reigns && t < s && Own(h, t, n) ::
      Carries(h, h.reigns[s].log, t, n)
  }

  ghost predicate Shape<V>(h: History<V>) {
    Domains(h) && BallotsOk(h) && PlatformsOk(h) && ReignsOk(h) && LogsOk(h) && AcksOk(h)
  }

  ghost predicate Safe<V>(h: History<V>) {
    Shape(h) && AcksKept(h) && AcksMatch(h) && BallotsSafe(h) && ReignsSafe(h)
  }

  ghost function Genesis<V>(voters: set<Id>): History<V> {
    History(voters, map j | j in voters :: 0, map j | j in voters :: [], map[], map[], map[], map[])
  }

  /** The identity at position k of a full log. */
  ghost function IdOf<V>(log: Log<V>, k: nat): LogId
    requires k <= |log|
  {
    if k == 0 then GENESIS else log[k - 1].id
  }

  /** The identity of a log's last entry. */
  ghost function LastOf<V>(log: Log<V>): LogId {
    IdOf(log, |log|)
  }

  // ---- The steps.

  ghost function Observe<V>(h: History<V>, j: Id, t: nat): History<V> {
    h.(term := h.term[j := t])
  }

  ghost predicate CanStand<V>(h: History<V>, j: Id) {
    && j in h.voters && j in h.term && j in h.log
    && 0 < h.term[j] <= MAX_U64
    && (h.term[j], j) !in h.ballots
    && (forall k | 0 <= k < |h.log[j]| :: h.log[j][k].id.term < h.term[j])
  }

  /** A candidate votes for itself, standing on its own log. */
  ghost function Stand<V>(h: History<V>, j: Id): History<V>
    requires j in h.term && j in h.log
  {
    h.(ballots := h.ballots[(h.term[j], j) := j],
       platforms := h.platforms[(h.term[j], j) := h.log[j]])
  }

  ghost predicate CanGrant<V>(h: History<V>, j: Id, c: Id) {
    && j in h.voters && j in h.term && j in h.log
    && (h.term[j], j) !in h.ballots
    && (h.term[j], c) in h.platforms
    && AtLeastAsUpToDate(LastOf(h.platforms[(h.term[j], c)]), LastOf(h.log[j]))
  }

  ghost function Grant<V>(h: History<V>, j: Id, c: Id): History<V>
    requires j in h.term
  {
    h.(ballots := h.ballots[(h.term[j], j) := c])
  }

  ghost predicate CanReign<V>(h: History<V>, c: Id) {
    && c in h.voters && c in h.term && c in h.log
    && h.term[c] !in h.reigns
    && (h.term[c], c) in h.platforms && h.platforms[(h.term[c], c)] == h.log[c]
    && Majority(Supporters(h, h.term[c], c), h.voters)
  }

  ghost function Crown<V>(h: History<V>, c: Id): History<V>
    requires c in h.term && c in h.log
  {
    h.(reigns := h.reigns[h.term[c] := Reign(c, h.log[c])],
       acks := h.acks[(h.term[c], c) := |h.log[c]|])
  }

  ghost predicate CanExtend<V>(h: History<V>, c: Id, e: Entry<V>) {
    && c in h.voters && c in h.term && c in h.log
    && h.term[c] in h.reigns && h.reigns[h.term[c]] == Reign(c, h.log[c])
    && e.id.index == |h.log[c]| + 1 && e.id.term == h.term[c]
  }

  ghost function Extend<V>(h: History<V>, c: Id, e: Entry<V>): History<V>
    requires c in h.term && c in h.log
  {
    h.(log := h.log[c := h.log[c] + [e]],
       reigns := h.reigns[h.term[c] := Reign(c, h.log[c] + [e])],
       acks := h.acks[(h.term[c], c) := |h.log[c]| + 1])
  }

  ghost predicate CanAccept<V>(h: History<V>, j: Id, n: nat) {
    && j in h.voters && j in h.term && j in h.log
    && h.term[j] in h.reigns && h.reigns[h.term[j]].leader != j
    && n <= |h.reigns[h.term[j]].log|
  }

  /** The log a follower has after accepting the first n entries of its leader's log. */
  ghost function Accepted<V>(log: Log<V>, lead: Log<V>, n: nat): Log<V>
    requires n <= |lead|
  {
    if Agree(log, lead, n) then log else lead[..n]
  }

  ghost function Accept<V>(h: History<V>, j: Id, n: nat): History<V>
    requires j in h.term && j in h.log && h.term[j] in h.reigns
    requires n <= |h.reigns[h.term[j]].log|
  {
    var t := h.term[j];
    h.(log := h.log[j := Accepted(h.log[j], h.reigns[t].log, n)],
       acks := h.acks[(t, j) := if Ack(h, t, j) >= n then Ack(h, t, j) else n])
  }
}
