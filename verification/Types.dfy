/** The protocol vocabulary of the crate root (jarl/src/lib.rs). */
module Types {

  const MAX_U64: int := 0xFFFF_FFFF_FFFF_FFFF

  type U64 = x: int | 0 <= x <= MAX_U64

  datatype Option<+T> = None | Some(value: T)

  datatype Result<+T, +E> = Ok(value: T) | Err(error: E)

  /** Rust's saturating_add(1), checked_add(1), saturating_sub and u64::min/max. */
  function SaturatingInc(x: U64): U64 {
    if x == MAX_U64 then MAX_U64 else x + 1
  }

  function CheckedInc(x: U64): Option<U64> {
    if x == MAX_U64 then None else Some(x + 1)
  }

  function Min(a: U64, b: U64): U64 { if a <= b then a else b }

  function Max(a: U64, b: U64): U64 { if a <= b then b else a }

  /** A stable identity. */
  datatype Id = Id(n: U64)

  /** A log position and the term that created it. */
  datatype LogId = LogId(index: U64, term: U64)

  const GENESIS := LogId(0, 0)

  /** A replicated command; a value of None is an internal leadership barrier. */
  datatype Entry<+V> = Entry(id: LogId, value: Option<V>)

  /** Application state after applying every entry through `last`. */
  datatype Snapshot<+S> = Snapshot(last: LogId, value: S)

  datatype Role = Follower | Candidate | Leader

  datatype Error =
    | Config
    | State
    | Busy
    | NotLeader(leader: Option<Id>)
    | Full
    | NotCommitted
    | Exhausted
    | Message
    | Reconfiguring
    | NotCaughtUp

  datatype Rejection = Conflict(next: U64) | NoRoom

  /** The bound on one replication batch. */
  const MAX_APPEND_ENTRIES: nat := 16

  datatype Message<+V, +S> =
    | PreVote(term: U64, last: LogId)
    | PreVoted(term: U64, campaign: U64, granted: bool)
    | Vote(term: U64, last: LogId)
    | Voted(term: U64, granted: bool)
    | Append(term: U64, previous: LogId, entry: Option<Entry<V>>, commit: U64)
    | AppendBatch(term: U64, previous: LogId, entries: seq<Option<Entry<V>>>, commit: U64)
    | Install(term: U64, snapshot: Snapshot<S>)
    | Replicated(term: U64, index: U64, rejection: Option<Rejection>)

  datatype Envelope<+V, +S> = Envelope(from: Id, to: Id, message: Message<V, S>)

  /** Lexicographic comparison (term, index) >= (term, index). */
  predicate AtLeastAsUpToDate(a: LogId, b: LogId) {
    a.term > b.term || (a.term == b.term && a.index >= b.index)
  }
}
