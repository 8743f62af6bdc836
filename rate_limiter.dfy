/**
 * The sliding-window rate limiter: the times of the requests of the last minute,
 * oldest first. Acquiring drops the expired times, waits for the oldest to expire
 * when the window is full, and records the new request. The clock readings and
 * the sleep are parameters and outputs.
 */
module RateLimiting {
  import opened Options

  /** Strictly older than the window: dropped by the pruning loop. */
  predicate Expired(t: real, now: real, window: real) {
    now - t > window
  }

  /** How many leading timestamps the pruning loop pops: the expired run at the front. */
  function DropCount(ts: seq<real>, now: real, window: real): (k: nat)
    ensures k <= |ts|
    ensures forall j :: 0 <= j < k ==> Expired(ts[j], now, window)
    ensures k < |ts| ==> !Expired(ts[k], now, window)
  {
    if ts != [] && Expired(ts[0], now, window) then DropCount(ts[1..], now, window) + 1 else 0
  }

  /** The deque after the pruning loop. */
  function Prune(ts: seq<real>, now: real, window: real): seq<real> {
    ts[DropCount(ts, now, window)..]
  }

  /** Oldest first: the timestamps never decrease. */
  ghost predicate NonDecreasing(ts: seq<real>) {
    forall i, j :: 0 <= i < j < |ts| ==> ts[i] <= ts[j]
  }

  /** On an ascending deque, pruning leaves only timestamps within the window. */
  lemma {:induction false} PruneRecent(ts: seq<real>, now: real, window: real)
    requires NonDecreasing(ts)
    ensures forall t :: t in Prune(ts, now, window) ==> now - t <= window
  {
    var k := DropCount(ts, now, window);
    forall t | t in Prune(ts, now, window) ensures now - t <= window {
      var i :| k <= i < |ts| && ts[i] == t;
      assert ts[k] <= ts[i];
    }
  }

  /** The wait computed at capacity: until the oldest request leaves the window, plus 0.1 s. */
  function WaitTime(oldest: real, now: real, window: real): real {
    window - (now - oldest) + 0.1
  }

  /** The oldest timestamp survived pruning, so the wait is at least the 0.1 s buffer. */
  lemma {:induction false} WaitPositive(ts: seq<real>, now: real, window: real)
    requires Prune(ts, now, window) != []
    ensures WaitTime(Prune(ts, now, window)[0], now, window) >= 0.1
  {
  }

  class RateLimiter {
    const requestsPerMinute: int
    const windowSize: real
    var timestamps: seq<real>

    ghost predicate Valid()
      reads this
    {
      requestsPerMinute >= 1 && windowSize == 60.0
    }

    /** A limiter allowing `requestsPerMinute` requests per 60-second window. */
    constructor (requestsPerMinute: int)
      requires requestsPerMinute >= 1
      ensures Valid()
      ensures this.requestsPerMinute == requestsPerMinute && timestamps == []
    {
      this.requestsPerMinute := requestsPerMinute;
      windowSize := 60.0;
      timestamps := [];
    }

    /** The pruning loop: pop the oldest timestamp while it is older than the window. */
    method PruneExpired(now: real)
      modifies this
      ensures timestamps == Prune(old(timestamps), now, windowSize)
    {
      while timestamps != [] && now - timestamps[0] > windowSize
        invariant Prune(timestamps, now, windowSize) == Prune(old(timestamps), now, windowSize)
        decreases |timestamps|
      {
        timestamps := timestamps[1..];
      }
    }

    /**
     * The deque after `acquire_sync`: prune at `now`; at capacity, if the wait is
     * positive, prune again at `afterSleep`; then append `appendAt`.
     */
    static function AcquireSpec(ts: seq<real>, rpm: int, window: real, now: real, afterSleep: real,
                                appendAt: real): seq<real>
      requires rpm >= 1
    {
      var pruned := Prune(ts, now, window);
      if |pruned| >= rpm && WaitTime(pruned[0], now, window) > 0.0
      then Prune(pruned, afterSleep, window) + [appendAt]
      else pruned + [appendAt]
    }

    /**
     * `acquire_sync`. The three clock readings are those taken at entry, after the
     * sleep and at the append; `sleep` is the time slept, if any.
     */
    method AcquireSync(now: real, afterSleep: real, appendAt: real) returns (sleep: Option<real>)
      requires Valid()
      modifies this
      ensures Valid()
      ensures timestamps == AcquireSpec(old(timestamps), requestsPerMinute, windowSize, now, afterSleep, appendAt)
      ensures var pruned := Prune(old(timestamps), now, windowSize);
        sleep.Some? <==> |pruned| >= requestsPerMinute
      ensures sleep.Some? ==> sleep.value >= 0.1
      ensures sleep.Some? ==> sleep.value == WaitTime(Prune(old(timestamps), now, windowSize)[0], now, windowSize)
      ensures |old(timestamps)| <= requestsPerMinute && (sleep.Some? ==> afterSleep >= now + sleep.value) ==>
                |timestamps| <= requestsPerMinute
    {
      PruneExpired(now);
      sleep := None;
      if |timestamps| >= requestsPerMinute {
        var oldest := timestamps[0];
        var sleepTime := windowSize - (now - oldest) + 0.1;
        WaitPositive(old(timestamps), now, windowSize);
        if sleepTime > 0.0 {
          sleep := Some(sleepTime);
          PruneExpired(afterSleep);
        }
      }
      timestamps := timestamps + [appendAt];
      if |old(timestamps)| <= requestsPerMinute && (sleep.Some? ==> afterSleep >= now + sleep.value) {
        AcquireBounded(old(timestamps), requestsPerMinute, windowSize, now, afterSleep, appendAt);
      }
    }

    /** `remaining`: the free slots of the window at `now`, never negative. */
    function Remaining(now: real): (n: int)
      reads this
      requires Valid()
      ensures 0 <= n <= requestsPerMinute
      ensures RecentCount(timestamps, now, windowSize) <= requestsPerMinute ==>
                n == requestsPerMinute - RecentCount(timestamps, now, windowSize)
      ensures RecentCount(timestamps, now, windowSize) >= requestsPerMinute ==> n == 0
    {
      var recent := RecentCount(timestamps, now, windowSize);
      if requestsPerMinute - recent > 0 then requestsPerMinute - recent else 0
    }
  }

  /** The number of timestamps within the window at `now`. */
  function RecentCount(ts: seq<real>, now: real, window: real): nat {
    if ts == [] then 0
    else RecentCount(ts[..|ts| - 1], now, window) + (if now - ts[|ts| - 1] <= window then 1 else 0)
  }

  /** Each acquire appends exactly one timestamp, at the tail, after a suffix of the old deque. */
  lemma {:induction false} AcquireAppends(ts: seq<real>, rpm: int, window: real, now: real, afterSleep: real, appendAt: real)
    requires rpm >= 1
    ensures var r := RateLimiter.AcquireSpec(ts, rpm, window, now, afterSleep, appendAt);
      exists k :: 0 <= k <= |ts| && r == ts[k..] + [appendAt]
  {
    var pruned := Prune(ts, now, window);
    var k := DropCount(ts, now, window);
    if |pruned| >= rpm && WaitTime(pruned[0], now, window) > 0.0 {
      var k2 := DropCount(pruned, afterSleep, window);
      assert pruned[k2..] == ts[k + k2..];
    }
  }

  /** With a clock that never goes back, the deque stays oldest first. */
  lemma {:induction false} AcquireKeepsOrder(ts: seq<real>, rpm: int, window: real, now: real, afterSleep: real, appendAt: real)
    requires rpm >= 1
    requires NonDecreasing(ts)
    requires forall t :: t in ts ==> t <= appendAt
    ensures NonDecreasing(RateLimiter.AcquireSpec(ts, rpm, window, now, afterSleep, appendAt))
  {
    AcquireAppends(ts, rpm, window, now, afterSleep, appendAt);
    var k :| 0 <= k <= |ts| && RateLimiter.AcquireSpec(ts, rpm, window, now, afterSleep, appendAt) == ts[k..] + [appendAt];
    SuffixAppendAscending(ts, k, appendAt);
  }

  lemma {:induction false} SuffixAppendAscending(ts: seq<real>, k: nat, last: real)
    requires k <= |ts| && NonDecreasing(ts)
    requires forall t :: t in ts ==> t <= last
    ensures NonDecreasing(ts[k..] + [last])
  {
    var r := ts[k..] + [last];
    forall i, j | 0 <= i < j < |r| ensures r[i] <= r[j] {
      assert r[i] == ts[k + i];
      if j < |r| - 1 {
        assert r[j] == ts[k + j];
      } else {
        assert ts[k + i] in ts;
      }
    }
  }

  /**
   * With a sleep at least as long as asked, the deque never holds more than `rpm`
   * timestamps: at capacity the oldest one has expired by the time the sleep ends.
   */
  lemma {:induction false} AcquireBounded(ts: seq<real>, rpm: int, window: real, now: real, afterSleep: real, appendAt: real)
    requires rpm >= 1 && window == 60.0
    requires |ts| <= rpm
    requires var pruned := Prune(ts, now, window);
      |pruned| >= rpm ==> afterSleep >= now + WaitTime(pruned[0], now, window)
    ensures |RateLimiter.AcquireSpec(ts, rpm, window, now, afterSleep, appendAt)| <= rpm
  {
    var pruned := Prune(ts, now, window);
    if |pruned| >= rpm {
      WaitPositive(ts, now, window);
      assert Expired(pruned[0], afterSleep, window);
      assert DropCount(pruned, afterSleep, window) >= 1;
    }
  }

  /** Right after construction every slot is free. */
  lemma {:induction false} FreshLimiter(limiter: RateLimiter, now: real)
    requires limiter.Valid() && limiter.timestamps == []
    ensures limiter.Remaining(now) == limiter.requestsPerMinute
  {
  }
}
