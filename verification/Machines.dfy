/** The replicated application: what replaying a log from a snapshot means. */
module Machines {
  import opened Types
  import opened Checkpoints
  import opened RaftHistory
  import opened FixedVoters

  datatype Machine<!V, !S> = Machine(init: S, apply: (S, V) -> S)

  /** A barrier advances the position without changing the application. */
  function Stepped<V, S>(m: Machine<V, S>, s: S, e: Entry<V>): S {
    if e.value.Some? then m.apply(s, e.value.value) else s
  }

  function ReplayFrom<V, S>(m: Machine<V, S>, s: S, log: Log<V>): S {
    if log == [] then s else Stepped(m, ReplayFrom(m, s, log[..|log| - 1]), log[|log| - 1])
  }

  function Replay<V, S>(m: Machine<V, S>, log: Log<V>): S {
    ReplayFrom(m, m.init, log)
  }

  function Replays<V, S>(m: Machine<V, S>): Application<V, S> {
    log => Replay(m, log)
  }

  lemma {:induction false} ReplaySplit<V, S>(m: Machine<V, S>, s: S, a: Log<V>, b: Log<V>)
    ensures ReplayFrom(m, ReplayFrom(m, s, a), b) == ReplayFrom(m, s, a + b)
    decreases |b|
  {
    if b == [] {
      assert a + b == a;
    } else {
      ReplaySplit(m, s, a, b[..|b| - 1]);
      assert (a + b)[..|a + b| - 1] == a + b[..|b| - 1];
    }
  }

  /** What a host gets by installing the checkpoint's snapshot and applying its entries through `index`. */
  function Recovered<V, S>(m: Machine<V, S>, s: Checkpoint<V, S>, index: U64): S
    requires Base(s).index <= index <= Base(s).index + |s.entries|
  {
    ReplayFrom(m, if s.snapshot.Some? then s.snapshot.value.value else m.init,
               s.entries[..index - Base(s).index])
  }

  /** Recovering from a checkpoint is replaying the full log it retains. */
  lemma RecoveredIsReplay<V, S>(m: Machine<V, S>, log: Log<V>, s: Checkpoint<V, S>, index: U64)
    requires Retains(log, s, Replays(m)) && Base(s).index <= index <= |log|
    ensures index <= Base(s).index + |s.entries|
    ensures Recovered(m, s, index) == Replay(m, log[..index])
  {
    var base := Base(s).index;
    ReplaySplit(m, m.init, log[..base], log[base..index]);
    assert log[..base] + log[base..index] == log[..index];
    assert s.entries[..index - base] == log[base..index];
    if s.snapshot.None? {
      assert log[..base] == [];
    }
  }
}
