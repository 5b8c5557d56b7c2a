/** The fixed-window request limiter: a counter per client in a cache, alive for one window from its first request. */
module RateLimit {
  import opened Sums
  import opened Caches

  /** The counter after one request; a rejected request writes nothing, and counting never extends a window. */
  function Counted(limit: nat, window: real, entry: Option<Counter>, now: real): Option<Counter> {
    var count := Live(entry, now);
    if count >= limit then entry
    else if count == 0 then Some(Counter(1, now + window))
    else Some(entry.value.(count := count + 1))
  }

  predicate HasPrefix(path: string, prefixes: seq<string>) {
    exists k :: 0 <= k < |prefixes| && prefixes[k] <= path
  }

  /** What the cache does for one request: a read or a write may fail. */
  datatype CacheHealth = Working | ReadFails | WriteFails

  class RequestRateLimiter {
    const limit: nat
    const window: real
    const exemptPrefixes: seq<string>
    var cache: map<string, Counter>

    constructor (limit: nat, window: real, exemptPrefixes: seq<string>)
      ensures this.limit == limit && this.window == window && this.exemptPrefixes == exemptPrefixes && cache == map[]
    {
      this.limit, this.window, this.exemptPrefixes := limit, window, exemptPrefixes;
      cache := map[];
    }

    function Entry(client: string): Option<Counter>
      reads this
    {
      if client in cache then Some(cache[client]) else None
    }

    /** Fails open: no limit, an exempt path or a failing cache always lets the request through. */
    method Handle(path: string, client: string, now: real, health: CacheHealth) returns (admitted: bool)
      modifies this
      ensures var exempt := exists k :: 0 <= k < |exemptPrefixes| && exemptPrefixes[k] <= path;
              && (admitted <==> limit == 0 || exempt || health == ReadFails || Live(old(Entry(client)), now) < limit)
              && Entry(client) == if limit > 0 && !exempt && health == Working
                                  then Counted(limit, window, old(Entry(client)), now) else old(Entry(client))
      ensures forall other :: other != client ==> Entry(other) == old(Entry(other))
    {
      if limit == 0 || HasPrefix(path, exemptPrefixes) {
        return true;
      }
      if health == ReadFails {
        return true;
      }
      var count := Live(Entry(client), now);
      if count >= limit {
        return false;
      }
      if health == Working {
        if count == 0 {
          cache := cache[client := Counter(1, now + window)];
        } else {
          cache := cache[client := cache[client].(count := count + 1)];
        }
      }
      return true;
    }
  }

  // ---------------------------------------------------------------- one client's requests, in order

  predicate TimesAscend(times: seq<real>) {
    forall j, k :: 0 <= j < k < |times| ==> times[j] <= times[k]
  }

  function After(limit: nat, window: real, times: seq<real>): Option<Counter> {
    if |times| == 0 then None
    else Counted(limit, window, After(limit, window, times[..|times| - 1]), times[|times| - 1])
  }

  predicate Admitted(limit: nat, window: real, times: seq<real>, k: nat)
    requires k < |times|
  {
    Live(After(limit, window, times[..k]), times[k]) < limit
  }

  /** How many of the first `n` requests were admitted at a time in [start, start + window). */
  function AdmittedWithin(limit: nat, window: real, times: seq<real>, start: real, n: nat): nat
    requires n <= |times|
  {
    if n == 0 then 0
    else
      AdmittedWithin(limit, window, times, start, n - 1)
      + (if start <= times[n - 1] < start + window && Admitted(limit, window, times, n - 1) then 1 else 0)
  }

  /** The bound that the counter still leaves room for, by where its window began. */
  predicate Bounded(limit: nat, window: real, entry: Option<Counter>, start: real, admitted: nat, last: real) {
    && (last < start ==> admitted == 0)
    && match entry
       case None => admitted == 0
       case Some(c) =>
         var began := c.expiresAt - window;
         && 1 <= c.count <= limit && began <= last
         && (began < start ==> admitted <= c.count - 1)
         && (start <= began < start + window ==> admitted <= limit - 1 + c.count)
         && (start + window <= began ==> admitted <= 2 * limit - 1)
  }

  lemma {:induction false} StaysBounded(limit: nat, window: real, times: seq<real>, start: real, n: nat)
    requires 0 < limit && 0.0 < window && TimesAscend(times) && 0 < n <= |times|
    ensures Bounded(limit, window, After(limit, window, times[..n]), start,
                    AdmittedWithin(limit, window, times, start, n), times[n - 1])
  {
    assert times[..n][..n - 1] == times[..n - 1];
    assert times[..n][n - 1] == times[n - 1];
    if n == 1 {
      assert AdmittedWithin(limit, window, times, start, 0) == 0;
    } else {
      StaysBounded(limit, window, times, start, n - 1);
      assert times[n - 2] <= times[n - 1];
    }
  }

  /** Any half-open interval one window long admits at most 2 * limit - 1 requests of one client. */
  lemma WindowBound(limit: nat, window: real, times: seq<real>, start: real)
    requires 0 < limit && 0.0 < window && TimesAscend(times)
    ensures AdmittedWithin(limit, window, times, start, |times|) <= 2 * limit - 1
  {
    if |times| > 0 {
      StaysBounded(limit, window, times, start, |times|);
    }
  }

  /** Who has been idle for a full window is admitted. */
  lemma IdleClientIsAdmitted(limit: nat, window: real, times: seq<real>, now: real)
    requires 0 < limit && 0.0 < window && TimesAscend(times)
    requires |times| > 0 ==> times[|times| - 1] + window <= now
    ensures Admitted(limit, window, times + [now], |times|)
  {
    assert (times + [now])[..|times|] == times;
    if |times| > 0 {
      StaysBounded(limit, window, times, 0.0, |times|);
      assert times[..|times|] == times;
    }
  }

  // ---------------------------------------------------------------- the bound is attained

  /** The same times followed by `n` more requests at the same moment. */
  function Repeat(times: seq<real>, at: real, n: nat): (longer: seq<real>)
    ensures |longer| == |times| + n
  {
    if n == 0 then times else Repeat(times, at, n - 1) + [at]
  }

  lemma {:induction false} RepeatInOrder(times: seq<real>, at: real, n: nat)
    requires TimesAscend(times) && forall k :: 0 <= k < |times| ==> times[k] <= at
    ensures TimesAscend(Repeat(times, at, n)) && forall k :: 0 <= k < |times| + n ==> Repeat(times, at, n)[k] <= at
  {
    if n > 0 {
      RepeatInOrder(times, at, n - 1);
    }
  }

  /** One request opens a window, the rest of its quota comes late in it, and a full quota follows at its end. */
  function Burst(limit: nat, window: real, late: real): seq<real>
    requires 0 < limit
  {
    Repeat(Repeat([0.0], late, limit - 1), window, limit)
  }

  lemma BurstInOrder(limit: nat, window: real, late: real)
    requires 0 < limit && 0.0 < late < window
    ensures TimesAscend(Burst(limit, window, late))
  {
    RepeatInOrder([0.0], late, limit - 1);
    RepeatInOrder(Repeat([0.0], late, limit - 1), window, limit);
  }

  /** An admitted request counts once, for its client and in its interval. */
  lemma OneMore(limit: nat, window: real, times: seq<real>, at: real, start: real)
    requires 0.0 < window && start <= at < start + window && Live(After(limit, window, times), at) < limit
    ensures var before, after := After(limit, window, times), After(limit, window, times + [at]);
            && Live(after, at) == Live(before, at) + 1
            && (Live(before, at) > 0 ==> after.Some? && after.value.expiresAt == before.value.expiresAt)
    ensures AdmittedWithin(limit, window, times + [at], start, |times| + 1) ==
            AdmittedWithin(limit, window, times, start, |times|) + 1
  {
    assert (times + [at])[..|times|] == times;
    SamePrefix(limit, window, times, times + [at], start, |times|);
  }

  lemma {:induction false} RunsUp(limit: nat, window: real, times: seq<real>, at: real, n: nat, start: real)
    requires 0.0 < window && start <= at < start + window
    requires Live(After(limit, window, times), at) + n <= limit
    ensures var longer := Repeat(times, at, n);
            var before, after := After(limit, window, times), After(limit, window, longer);
            && Live(after, at) == Live(before, at) + n
            && (Live(before, at) > 0 ==> after.Some? && after.value.expiresAt == before.value.expiresAt)
            && AdmittedWithin(limit, window, longer, start, |longer|) ==
               AdmittedWithin(limit, window, times, start, |times|) + n
  {
    hide After, AdmittedWithin, Live;
    if n > 0 {
      RunsUp(limit, window, times, at, n - 1, start);
      var shorter := Repeat(times, at, n - 1);
      assert Repeat(times, at, n) == shorter + [at];
      hide Repeat;
      OneMore(limit, window, shorter, at, start);
    }
  }

  lemma {:induction false} SamePrefix(limit: nat, window: real, a: seq<real>, b: seq<real>, start: real, n: nat)
    requires n <= |a| && n <= |b| && a[..n] == b[..n]
    ensures AdmittedWithin(limit, window, a, start, n) == AdmittedWithin(limit, window, b, start, n)
  {
    if n > 0 {
      assert a[..n - 1] == a[..n][..n - 1] == b[..n][..n - 1] == b[..n - 1];
      assert a[n - 1] == a[..n][n - 1] == b[..n][n - 1] == b[n - 1];
      SamePrefix(limit, window, a, b, start, n - 1);
    }
  }

  /** Some traffic gets all of that in the window from `start`: the bound cannot be lowered. */
  lemma BoundIsAttained(limit: nat, window: real, start: real, late: real)
    requires 0 < limit && 0.0 < start < late < window
    ensures var times := Burst(limit, window, late);
            && TimesAscend(times)
            && AdmittedWithin(limit, window, times, start, |times|) == 2 * limit - 1
  {
    BurstInOrder(limit, window, late);
    hide After, AdmittedWithin, Live, Repeat, TimesAscend;
    var opening := [0.0];
    OpeningRequest(limit, window, start, late);
    QuotaIsAdmitted(limit, window, opening, start, late);
    var quota := Repeat(opening, late, limit - 1);
    QuotaEnds(limit, window, quota);
    RunsUp(limit, window, quota, window, limit, start);
  }

  lemma QuotaIsAdmitted(limit: nat, window: real, opening: seq<real>, start: real, late: real)
    requires 0 < limit && 0.0 < start < late < window
    requires After(limit, window, opening) == Some(Counter(1, window)) && Live(After(limit, window, opening), late) == 1
    requires AdmittedWithin(limit, window, opening, start, |opening|) == 0
    ensures var quota := Repeat(opening, late, limit - 1);
            && AdmittedWithin(limit, window, quota, start, |quota|) == limit - 1
            && After(limit, window, quota).Some?
            && After(limit, window, quota).value.expiresAt == window
  {
    hide After, AdmittedWithin, Live, Repeat;
    RunsUp(limit, window, opening, late, limit - 1, start);
  }

  lemma QuotaEnds(limit: nat, window: real, times: seq<real>)
    requires After(limit, window, times).Some? && After(limit, window, times).value.expiresAt == window
    ensures Live(After(limit, window, times), window) == 0
  {
  }

  lemma OpeningRequest(limit: nat, window: real, start: real, late: real)
    requires 0 < limit && 0.0 < start < late < window
    ensures After(limit, window, [0.0]) == Some(Counter(1, window))
    ensures Live(After(limit, window, [0.0]), late) == 1
    ensures AdmittedWithin(limit, window, [0.0], start, 1) == 0
  {
    assert [0.0][..0] == [];
    assert AdmittedWithin(limit, window, [0.0], start, 0) == 0;
  }
}
