/**
 * The counter-store port and its in-memory implementation: per-key counters,
 * per-key block markers that expire at an instant, and the three operations
 * `Increment`, `IsBlocked` and `SetBlock`.
 */
module Storage {
  import opened Wrappers
  import opened Domain

  /** The three operations of the port. */
  datatype StoreOp = IncrementOp | IsBlockedOp | SetBlockOp

  /** One call made against the store, with its arguments. */
  datatype StoreCall =
    | IncrementCall(key: string, window: Duration)
    | IsBlockedCall(key: string)
    | SetBlockCall(key: string, duration: Duration)

  /** The store's contents: counters, and the instant (in nanoseconds) each block marker expires. */
  datatype StoreState = StoreState(counts: map<string, int>, blocks: map<string, int>)

  /** A missing counter reads as zero. */
  function CountOf(counts: map<string, int>, key: string): int {
    if key in counts then counts[key] else 0
  }

  /** The operation a call invokes. */
  function OpOf(call: StoreCall): StoreOp {
    match call
    case IncrementCall(_, _) => IncrementOp
    case IsBlockedCall(_) => IsBlockedOp
    case SetBlockCall(_, _) => SetBlockOp
  }

  /** The state after a successful `Increment(key, _)`. */
  function Incremented(s: StoreState, key: string): StoreState {
    s.(counts := s.counts[key := CountOf(s.counts, key) + 1])
  }

  /** What a successful `IsBlocked(key)` reports at instant `now`. */
  predicate BlockedAt(s: StoreState, key: string, now: int) {
    key in s.blocks && now <= s.blocks[key]
  }

  /** The state after a successful `IsBlocked(key)` at `now`: an expired marker is dropped. */
  function ExpiryChecked(s: StoreState, key: string, now: int): StoreState {
    if key in s.blocks && now > s.blocks[key] then s.(blocks := s.blocks - {key}) else s
  }

  /** The state after a successful `SetBlock(key, duration)` at `now`. */
  function BlockSet(s: StoreState, key: string, duration: Duration, now: int): StoreState {
    if duration <= 0 then s.(blocks := s.blocks - {key})
    else s.(blocks := s.blocks[key := now + duration])
  }

  /**
   * The map-based store. `faults` names the operations that currently fail
   * and the message they fail with; with no faults this is the test suite's
   * mock store, which never fails. `calls` records every call made.
   */
  class MockStore {
    var counts: map<string, int>
    var blocks: map<string, int>
    var faults: map<StoreOp, string>
    ghost var calls: seq<StoreCall>

    function State(): StoreState
      reads this
    {
      StoreState(counts, blocks)
    }

    constructor ()
      ensures counts == map[] && blocks == map[] && faults == map[] && calls == []
    {
      counts, blocks, faults := map[], map[], map[];
      calls := [];
    }

    /** Adds one to the counter at `key` and returns its new value; `window` is not used. */
    method Increment(key: string, window: Duration) returns (r: Result<int, Error>)
      modifies this`counts, this`calls
      ensures calls == old(calls) + [IncrementCall(key, window)]
      ensures IncrementOp in faults ==> r == Failure(Store(faults[IncrementOp])) && counts == old(counts)
      ensures IncrementOp !in faults ==>
        && State() == Incremented(old(State()), key)
        && r == Success(CountOf(old(counts), key) + 1)
    {
      calls := calls + [IncrementCall(key, window)];
      if IncrementOp in faults {
        return Failure(Store(faults[IncrementOp]));
      }
      var n := CountOf(counts, key) + 1;
      counts := counts[key := n];
      r := Success(n);
    }

    /**
     * Whether a block marker at `key` is still in force at `now`; a marker
     * whose expiry instant has passed is removed and reads as not blocked.
     */
    method IsBlocked(key: string, now: int) returns (r: Result<bool, Error>)
      modifies this`blocks, this`calls
      ensures calls == old(calls) + [IsBlockedCall(key)]
      ensures IsBlockedOp in faults ==> r == Failure(Store(faults[IsBlockedOp])) && blocks == old(blocks)
      ensures IsBlockedOp !in faults ==>
        && r == Success(BlockedAt(old(State()), key, now))
        && State() == ExpiryChecked(old(State()), key, now)
    {
      calls := calls + [IsBlockedCall(key)];
      if IsBlockedOp in faults {
        return Failure(Store(faults[IsBlockedOp]));
      }
      if key !in blocks {
        return Success(false);
      }
      if now > blocks[key] {
        blocks := blocks - {key};
        return Success(false);
      }
      r := Success(true);
    }

    /**
     * Sets a block marker at `key` expiring `duration` after `now`, or
     * removes any marker at `key` when `duration` is not positive.
     */
    method SetBlock(key: string, duration: Duration, now: int) returns (err: Option<Error>)
      modifies this`blocks, this`calls
      ensures calls == old(calls) + [SetBlockCall(key, duration)]
      ensures SetBlockOp in faults ==> err == Some(Store(faults[SetBlockOp])) && blocks == old(blocks)
      ensures SetBlockOp !in faults ==>
        && err == None
        && State() == BlockSet(old(State()), key, duration, now)
    {
      calls := calls + [SetBlockCall(key, duration)];
      if SetBlockOp in faults {
        return Some(Store(faults[SetBlockOp]));
      }
      if duration <= 0 {
        blocks := blocks - {key};
        return None;
      }
      blocks := blocks[key := now + duration];
      err := None;
    }
  }
}
