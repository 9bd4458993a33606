/**
  The per-client fixed-window rate limiter of the subscribe endpoint
  (src/app/api/subscribe/route.ts, `isRateLimited` and the module-level `rateLimit` map).

  A client key maps to an entry {count, resetAt}. A call at time `now` either starts a
  new window (no entry, or `now` strictly past `resetAt`) or counts one more request in
  the current window; the request is limited once the window's count exceeds `Limit`.
  The clock is a parameter. Entries are never evicted.
*/
module RateLimit {

  /** RATE_LIMIT: requests allowed per window. */
  const Limit: nat := 5

  /** RATE_WINDOW: window length in milliseconds. */
  const Window: int := 60 * 1000

  datatype Entry = Entry(count: nat, resetAt: int)

  type Table = map<string, Entry>

  /** A call for `key` at `now` opens a new window: no entry yet, or its window has ended. */
  predicate StartsWindow(table: Table, key: string, now: int)
  {
    key !in table || now > table[key].resetAt
  }

  /** The table after one call, and whether that call is rejected. */
  datatype Verdict = Verdict(table: Table, limited: bool)

  /** Every stored window has counted at least the request that opened it. This only
      records the data invariant count >= 1 that `Limiter` keeps; no verdict depends on it. */
  ghost predicate CountsPositive(table: Table)
  {
    forall k | k in table :: table[k].count >= 1
  }

  /** One call of `isRateLimited(key)` at time `now`. */
  function Step(table: Table, key: string, now: int): (v: Verdict)
    // only the caller's own entry changes
    ensures key in v.table
    ensures v.table - {key} == table - {key}
    // a request is rejected exactly when its window has counted more than Limit requests
    ensures v.limited <==> v.table[key].count > Limit
    ensures v.table[key].count >= 1
    // a new window starts with count 1, ends Window ms later, and its first request passes
    ensures StartsWindow(table, key, now) ==> !v.limited && v.table[key] == Entry(1, now + Window)
    // inside a window (now <= resetAt, equality included) the count goes up by one, the end stays put
    ensures !StartsWindow(table, key, now) ==>
              v.table[key].count == table[key].count + 1 && v.table[key].resetAt == table[key].resetAt
  {
    if StartsWindow(table, key, now) then
      Verdict(table[key := Entry(1, now + Window)], false)
    else
      var entry := table[key];
      var counted := entry.(count := entry.count + 1);
      Verdict(table[key := counted], counted.count > Limit)
  }

  /** The verdicts of successive calls for one key at the given times. */
  function Replay(table: Table, key: string, times: seq<int>): (verdicts: seq<bool>)
    ensures |verdicts| == |times|
    decreases |times|
  {
    if times == [] then []
    else
      var v := Step(table, key, times[0]);
      [v.limited] + Replay(v.table, key, times[1..])
  }

  /** Inside an open window, the i-th further call is limited iff the count it reaches exceeds Limit;
      rejected calls count too. */
  lemma {:induction false} ReplayInsideWindow(table: Table, key: string, times: seq<int>)
    requires key in table
    requires forall i | 0 <= i < |times| :: times[i] <= table[key].resetAt
    ensures forall i | 0 <= i < |times| :: Replay(table, key, times)[i] <==> table[key].count + i + 1 > Limit
    decreases |times|
  {
    if times != [] {
      var v := Step(table, key, times[0]);
      var rest := times[1..];
      assert v.table[key] == Entry(table[key].count + 1, table[key].resetAt);
      ReplayInsideWindow(v.table, key, rest);
      forall i | 0 <= i < |times|
        ensures Replay(table, key, times)[i] <==> table[key].count + i + 1 > Limit
      {
        if i > 0 {
          assert Replay(table, key, times)[i] == Replay(v.table, key, rest)[i - 1];
        }
      }
    }
  }

  /** Calls 1 to 5 of a window pass and every later call of that window is rejected. */
  lemma {:induction false} FirstFivePerWindow(table: Table, key: string, times: seq<int>)
    requires |times| > 0 && StartsWindow(table, key, times[0])
    requires forall i | 0 < i < |times| :: times[i] <= times[0] + Window
    ensures forall i | 0 <= i < |times| :: Replay(table, key, times)[i] <==> i >= Limit
  {
    var v := Step(table, key, times[0]);
    var rest := times[1..];
    ReplayInsideWindow(v.table, key, rest);
    forall i | 0 <= i < |times|
      ensures Replay(table, key, times)[i] <==> i >= Limit
    {
      if i > 0 {
        assert Replay(table, key, times)[i] == Replay(v.table, key, rest)[i - 1];
      }
    }
  }

  /** Calls for other keys do not affect a key's verdict or entry. */
  lemma KeysIndependent(table: Table, key: string, other: string, t0: int, t1: int)
    requires key != other
    ensures Step(Step(table, other, t0).table, key, t1).limited == Step(table, key, t1).limited
    ensures Step(Step(table, other, t0).table, key, t1).table[key] == Step(table, key, t1).table[key]
  {
    var mid := Step(table, other, t0).table;
    assert key in mid <==> key in table;
    assert key in table ==> mid[key] == table[key];
  }

  /** The process-wide `rateLimit` map, updated in place by `isRateLimited`. */
  class Limiter {
    var table: Table

    ghost predicate Valid()
      reads this
    {
      CountsPositive(table)
    }

    constructor ()
      ensures Valid() && table == map[]
    {
      table := map[];
    }

    /** `isRateLimited(ip)` with the clock reading `now`. */
    method IsRateLimited(ip: string, now: int) returns (limited: bool)
      requires Valid()
      modifies this
      ensures Valid()
      ensures Verdict(table, limited) == Step(old(table), ip, now)
    {
      if ip !in table || now > table[ip].resetAt {
        table := table[ip := Entry(1, now + Window)];
        return false;
      }
      var entry := table[ip];
      table := table[ip := entry.(count := entry.count + 1)];
      limited := table[ip].count > Limit;
    }
  }
}
