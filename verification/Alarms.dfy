/** Durable Object alarms: what follows a run of an alarm, and the two stores
    that hold it, a file per object and one index. Times are milliseconds. */
module Alarms {
  import opened Wrappers

  /** The alarm is given up at the first failure beyond this count. */
  const MAX_RETRIES: nat := 6

  /** The longest a failed or deferred run puts the index after its clock. */
  const LONGEST_WAIT := 64_000

  function Pow2(n: nat): nat {
    if n == 0 then 1 else 2 * Pow2(n - 1)
  }

  /** When a run that failed `retries` times runs again. */
  function RetryAt(now: int, retries: nat): int {
    now + 1000 * Pow2(if retries <= MAX_RETRIES then retries else MAX_RETRIES)
  }

  datatype Next = Clear | Keep(at: int, retries: nat)

  /** What a delivery of `at` decides: `current` is what the file then holds, and
      `failed` the new count of failures if the handler failed. */
  function Following(at: int, current: Option<int>, failed: Option<nat>, now: int): Next {
    if current.Some? && current.value != at then Keep(current.value, 0)
    else if failed.Some? && current.Some? && failed.value <= MAX_RETRIES then
      Keep(RetryAt(now, failed.value), failed.value)
    else Clear
  }

  lemma {:induction false} Pow2Grows(m: nat, n: nat)
    requires m <= n
    ensures 1 <= Pow2(m) <= Pow2(n)
    decreases n
  {
    if n > 0 {
      Pow2Grows(if m < n then m else n - 1, n - 1);
    }
  }

  /** The waits double from 2 to 64 seconds over the retries, one second for a
      run that was only deferred, and stay there. */
  lemma Backoff(now: int, retries: nat)
    ensures now + 1000 <= RetryAt(now, retries) <= now + LONGEST_WAIT
    ensures retries < MAX_RETRIES ==> RetryAt(now, retries + 1) - now == 2 * (RetryAt(now, retries) - now)
    ensures RetryAt(now, 1) == now + 2000 && RetryAt(now, MAX_RETRIES) == now + LONGEST_WAIT
  {
    var n := if retries <= MAX_RETRIES then retries else MAX_RETRIES;
    Pow2Grows(0, n);
    Pow2Grows(n, MAX_RETRIES);
    assert Pow2(1) == 2 && Pow2(2) == 4 && Pow2(3) == 8 && Pow2(4) == 16 && Pow2(5) == 32 && Pow2(6) == 64;
  }

  datatype Row = Row(at: int, retries: nat, delivering: bool)

  /** The row after `lower`: at `at`, or earlier if it was. */
  function Lowered(row: Option<Row>, at: int): Option<Row> {
    match row
    case None => Some(Row(at, 0, false))
    case Some(r) => Some(r.(at := if at < r.at then at else r.at))
  }

  /** The row after `follow`; `ends` tells whether it ends a delivery. */
  function Followed(row: Option<Row>, alarm: Option<(int, nat)>, ends: bool): Option<Row> {
    match alarm
    case None => None
    case Some((at, retries)) => Some(Row(at, retries, row.Some? && row.value.delivering && !ends))
  }

  /** The file after a delete of the alarm `at`, if it is still there. */
  function Cleared(file: Option<int>, at: int): Option<int> {
    if file == Some(at) then None else file
  }
}
