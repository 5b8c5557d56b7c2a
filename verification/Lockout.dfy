/** The lockout of login and MFA: a failure counter in a cache that each failure makes live for 15 more minutes. */
module Lockout {
  import opened Sums
  import opened Caches

  const MAX_ATTEMPTS: nat := 5
  const LOCKOUT_SECONDS: real := 900.0

  /** An attempt and whether its credentials or code would pass. */
  datatype Attempt = Attempt(at: real, valid: bool)
  datatype Outcome = Rejected | Passed | Failed

  /** A locked-out attempt is rejected without looking at its credentials. */
  function Judge(entry: Option<Counter>, a: Attempt): Outcome {
    if Live(entry, a.at) >= MAX_ATTEMPTS then Rejected else if a.valid then Passed else Failed
  }

  function Updated(entry: Option<Counter>, a: Attempt): Option<Counter> {
    match Judge(entry, a)
    case Rejected => entry
    case Passed => None
    case Failed => Some(Counter(Live(entry, a.at) + 1, a.at + LOCKOUT_SECONDS))
  }

  class Throttle {
    var cache: map<(string, string), Counter>

    constructor ()
      ensures cache == map[]
    {
      cache := map[];
    }

    function Entry(scope: string, identifier: string): Option<Counter>
      reads this
    {
      if (scope, identifier) in cache then Some(cache[(scope, identifier)]) else None
    }

    method IsLockedOut(scope: string, identifier: string, now: real) returns (locked: bool)
      ensures locked <==> Live(Entry(scope, identifier), now) >= MAX_ATTEMPTS
    {
      return Live(Entry(scope, identifier), now) >= MAX_ATTEMPTS;
    }

    method RecordFailure(scope: string, identifier: string, now: real) returns (count: nat)
      modifies this
      ensures count == Live(old(Entry(scope, identifier)), now) + 1
      ensures Entry(scope, identifier) == Some(Counter(count, now + LOCKOUT_SECONDS))
      ensures forall s, i :: (s, i) != (scope, identifier) ==> Entry(s, i) == old(Entry(s, i))
    {
      count := Live(Entry(scope, identifier), now) + 1;
      cache := cache[(scope, identifier) := Counter(count, now + LOCKOUT_SECONDS)];
    }

    method Reset(scope: string, identifier: string)
      modifies this
      ensures Entry(scope, identifier) == None
      ensures forall s, i :: (s, i) != (scope, identifier) ==> Entry(s, i) == old(Entry(s, i))
    {
      cache := cache - {(scope, identifier)};
    }

    /** The login form and the MFA form alike. */
    method Post(scope: string, identifier: string, a: Attempt) returns (outcome: Outcome)
      modifies this
      ensures outcome == Judge(old(Entry(scope, identifier)), a)
      ensures Entry(scope, identifier) == Updated(old(Entry(scope, identifier)), a)
      ensures var before := old(Entry(scope, identifier));
              if before.Some? && a.at < before.value.expiresAt && before.value.count >= 5
              then outcome == Rejected && Entry(scope, identifier) == before
              else
                && outcome == (if a.valid then Passed else Failed)
                && Entry(scope, identifier).Some? == !a.valid
                && (!a.valid ==> Entry(scope, identifier).value.expiresAt == a.at + 900.0)
      ensures forall s, i :: (s, i) != (scope, identifier) ==> Entry(s, i) == old(Entry(s, i))
    {
      var locked := IsLockedOut(scope, identifier, a.at);
      if locked {
        return Rejected;
      }
      if a.valid {
        Reset(scope, identifier);
        return Passed;
      }
      var count := RecordFailure(scope, identifier, a.at);
      return Failed;
    }
  }

  // ---------------------------------------------------------------- one identifier's attempts, in order

  predicate AttemptsAscend(attempts: seq<Attempt>) {
    forall j, k :: 0 <= j < k < |attempts| ==> attempts[j].at <= attempts[k].at
  }

  function After(attempts: seq<Attempt>): Option<Counter> {
    if |attempts| == 0 then None else Updated(After(attempts[..|attempts| - 1]), attempts[|attempts| - 1])
  }

  function OutcomeOf(attempts: seq<Attempt>, k: nat): Outcome
    requires k < |attempts|
  {
    Judge(After(attempts[..k]), attempts[k])
  }

  predicate Within(a: Attempt, start: real) {
    start <= a.at < start + LOCKOUT_SECONDS
  }

  /** How many of the first `n` attempts were evaluated and failed in the 15 minutes from `start`. */
  function FailuresWithin(attempts: seq<Attempt>, start: real, n: nat): nat
    requires n <= |attempts|
  {
    if n == 0 then 0
    else
      FailuresWithin(attempts, start, n - 1)
      + (if Within(attempts[n - 1], start) && OutcomeOf(attempts, n - 1) == Failed then 1 else 0)
  }

  predicate NoSuccessWithin(attempts: seq<Attempt>, start: real, n: nat)
    requires n <= |attempts|
  {
    forall k :: 0 <= k < n && Within(attempts[k], start) ==> OutcomeOf(attempts, k) != Passed
  }

  /** While the 15 minutes last, the counter is live and has counted every failure in them. */
  lemma {:induction false} FailuresAreCounted(attempts: seq<Attempt>, start: real, n: nat)
    requires AttemptsAscend(attempts) && n <= |attempts| && NoSuccessWithin(attempts, start, n)
    ensures var entry, failures := After(attempts[..n]), FailuresWithin(attempts, start, n);
            && failures <= MAX_ATTEMPTS
            && (entry.Some? ==> 1 <= entry.value.count <= MAX_ATTEMPTS)
            && (n > 0 && attempts[n - 1].at < start ==> failures == 0)
            && (n > 0 && attempts[n - 1].at < start + LOCKOUT_SECONDS && failures > 0 ==>
                  entry.Some? && failures <= entry.value.count && start + LOCKOUT_SECONDS <= entry.value.expiresAt)
  {
    if n > 0 {
      FailuresAreCounted(attempts, start, n - 1);
      assert attempts[..n][..n - 1] == attempts[..n - 1] && attempts[..n][n - 1] == attempts[n - 1];
      assert After(attempts[..n]) == Updated(After(attempts[..n - 1]), attempts[n - 1]);
      assert n > 1 ==> attempts[n - 2].at <= attempts[n - 1].at;
      assert Within(attempts[n - 1], start) ==> OutcomeOf(attempts, n - 1) != Passed;
      hide AttemptsAscend, NoSuccessWithin, After;
    }
  }

  /** In any 15 minutes without a success, at most five attempts are evaluated and fail. */
  lemma LockoutBound(attempts: seq<Attempt>, start: real)
    requires AttemptsAscend(attempts) && NoSuccessWithin(attempts, start, |attempts|)
    ensures FailuresWithin(attempts, start, |attempts|) <= 5
  {
    FailuresAreCounted(attempts, start, |attempts|);
  }

  /** How many of the first `n` attempts were evaluated and failed since the last success. */
  function FailuresSinceSuccess(attempts: seq<Attempt>, n: nat): nat
    requires n <= |attempts|
  {
    if n == 0 then 0
    else
      match OutcomeOf(attempts, n - 1)
      case Rejected => FailuresSinceSuccess(attempts, n - 1)
      case Passed => 0
      case Failed => FailuresSinceSuccess(attempts, n - 1) + 1
  }

  lemma {:induction false} CounterCountsFailures(attempts: seq<Attempt>, n: nat)
    requires n <= |attempts|
    ensures var entry := After(attempts[..n]);
            && (entry.Some? <==> FailuresSinceSuccess(attempts, n) > 0)
            && (entry.Some? ==> 1 <= entry.value.count <= FailuresSinceSuccess(attempts, n))
  {
    if n > 0 {
      CounterCountsFailures(attempts, n - 1);
      assert attempts[..n][..n - 1] == attempts[..n - 1] && attempts[..n][n - 1] == attempts[n - 1];
    }
  }

  /** Nobody is locked out before five evaluated failures, counted anew from each success on. */
  lemma LockedOutByFiveFailures(attempts: seq<Attempt>, k: nat)
    requires k < |attempts|
    ensures OutcomeOf(attempts, k) == Rejected ==> FailuresSinceSuccess(attempts, k) >= 5
    ensures OutcomeOf(attempts, k) == Passed ==> attempts[k].valid && FailuresSinceSuccess(attempts, k + 1) == 0
    ensures OutcomeOf(attempts, k) == Failed ==> !attempts[k].valid
  {
    CounterCountsFailures(attempts, k);
  }

  lemma {:induction false} CounterStaysSmall(attempts: seq<Attempt>)
    ensures After(attempts).Some? ==> 1 <= After(attempts).value.count <= MAX_ATTEMPTS
  {
    if |attempts| > 0 {
      CounterStaysSmall(attempts[..|attempts| - 1]);
    }
  }

  /** The lock is on from the fifth failure for exactly 15 minutes, however many attempts are rejected meanwhile. */
  lemma {:induction false} LockEndsOnTime(attempts: seq<Attempt>, more: seq<Attempt>, k: nat)
    requires |attempts| > 0 && k < |more|
    requires OutcomeOf(attempts, |attempts| - 1) == Failed && After(attempts).value.count == MAX_ATTEMPTS
    requires forall j :: 0 <= j < k ==> more[j].at < attempts[|attempts| - 1].at + LOCKOUT_SECONDS
    ensures var lockedAt := attempts[|attempts| - 1].at;
            && After(attempts + more[..k]) == Some(Counter(MAX_ATTEMPTS, lockedAt + LOCKOUT_SECONDS))
            && (OutcomeOf(attempts + more, |attempts| + k) == Rejected <==> more[k].at < lockedAt + LOCKOUT_SECONDS)
  {
    var all := attempts + more[..k];
    assert (attempts + more)[..|attempts| + k] == all;
    if k == 0 {
      assert all == attempts;
    } else {
      LockEndsOnTime(attempts, more, k - 1);
      assert all[..|all| - 1] == attempts + more[..k - 1];
      assert all[|all| - 1] == more[k - 1];
    }
  }
}
