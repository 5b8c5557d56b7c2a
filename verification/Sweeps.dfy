/** A service loop over a table, newest row first, that stops at the first error. */
module Sweeps {
  import opened Tables

  function Sweep<S>(visit: (S, nat) -> Result<S>, s: S, n: nat): Result<S> {
    if n == 0 then Ok(s)
    else
      match visit(s, n - 1)
      case Raised(error) => Raised(error)
      case Ok(s1) => Sweep(visit, s1, n - 1)
  }

  /** What one visit hands on from row to row, the whole sweep ends with. */
  lemma {:induction false} SweepKeeps<S(!new)>(visit: (S, nat) -> Result<S>, good: (S, nat) -> bool, s: S, n: nat)
    requires good(s, n)
    requires forall a: S, i: nat :: good(a, i + 1) && visit(a, i).Ok? ==> good(visit(a, i).value, i)
    ensures Sweep(visit, s, n).Ok? ==> good(Sweep(visit, s, n).value, 0)
  {
    if n > 0 && visit(s, n - 1).Ok? {
      SweepKeeps(visit, good, visit(s, n - 1).value, n - 1);
    }
  }

  /** Each visit raises exactly on the bad rows, and otherwise hands on what it should. */
  ghost predicate Decides<S(!new)>(visit: (S, nat) -> Result<S>, good: (S, nat) -> bool, bad: nat -> bool) {
    forall a: S, i: nat :: good(a, i + 1) ==>
                             (visit(a, i).Raised? <==> bad(i)) && (visit(a, i).Ok? ==> good(visit(a, i).value, i))
  }

  ghost predicate SomeBad(bad: nat -> bool, n: nat) {
    exists i: nat :: i < n && bad(i)
  }

  /** Then the sweep raises exactly when there is a bad row, and otherwise ends where it should. */
  lemma {:induction false} SweepDecides<S(!new)>(
    visit: (S, nat) -> Result<S>, good: (S, nat) -> bool, bad: nat -> bool, s: S, n: nat)
    requires good(s, n) && Decides(visit, good, bad)
    ensures Sweep(visit, s, n).Raised? <==> SomeBad(bad, n)
    ensures Sweep(visit, s, n).Ok? ==> good(Sweep(visit, s, n).value, 0)
  {
    if n > 0 && visit(s, n - 1).Ok? {
      SweepDecides(visit, good, bad, visit(s, n - 1).value, n - 1);
      if SomeBad(bad, n) {
        var i: nat :| i < n && bad(i);
        assert i < n - 1;
      }
    } else if n > 0 {
      assert bad(n - 1);
    }
  }

  /** Both raise, or both end related. */
  predicate Matched<S>(related: (S, S) -> bool, r: Result<S>, q: Result<S>) {
    && r.Ok? == q.Ok?
    && (r.Ok? && q.Ok? ==> related(r.value, q.value))
  }

  /** Sweeps whose visits keep two states related keep them related throughout. */
  lemma {:induction false} SweepsMatch<S(!new)>(
    visit: (S, nat) -> Result<S>, related: (S, S) -> bool, s: S, d: S, n: nat)
    requires related(s, d)
    requires forall a: S, b: S, i: nat :: related(a, b) ==> Matched(related, visit(a, i), visit(b, i))
    ensures Matched(related, Sweep(visit, s, n), Sweep(visit, d, n))
  {
    if n > 0 {
      assert Matched(related, visit(s, n - 1), visit(d, n - 1));
      if visit(s, n - 1).Ok? {
        SweepsMatch(visit, related, visit(s, n - 1).value, visit(d, n - 1).value, n - 1);
      }
    }
  }
}
