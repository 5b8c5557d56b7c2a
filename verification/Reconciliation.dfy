/**
  A reconciliation run is sound, complete and stable: its counters and exception
  rows say exactly what the provider disagrees with, it settles UNKNOWN payments
  and touches no other, and running it again finds nothing new.
*/
module Reconciliation {
  import opened Sums
  import opened Sweeps
  import opened Tables
  import opened Services
  import opened Invariants
  import opened MoneyMoves
  import opened Runs

  // ---------------------------------------------------------------- counting rows

  /** How many indices from `i` up to `n` satisfy `holds`. */
  function Count(holds: nat -> bool, i: nat, n: nat): nat
    decreases n - i
  {
    if i >= n then 0 else (if holds(i) then 1 else 0) + Count(holds, i + 1, n)
  }

  /** The rows that the indices from `i` up to `n` call for, highest index first. */
  function Rows<T>(row: nat -> Option<T>, i: nat, n: nat): seq<T>
    decreases n - i
  {
    if i >= n then [] else Rows(row, i + 1, n) + (if row(i).Some? then [row(i).value] else [])
  }

  lemma {:induction false} CountSplits(whole: nat -> bool, left: nat -> bool, right: nat -> bool, i: nat, n: nat)
    requires forall j: nat :: i <= j < n ==> whole(j) == (left(j) || right(j)) && !(left(j) && right(j))
    ensures Count(whole, i, n) == Count(left, i, n) + Count(right, i, n)
    decreases n - i
  {
    if i < n {
      CountSplits(whole, left, right, i + 1, n);
    }
  }

  lemma {:induction false} CountSame(f: nat -> bool, g: nat -> bool, i: nat, n: nat)
    requires forall j: nat :: i <= j < n ==> f(j) == g(j)
    ensures Count(f, i, n) == Count(g, i, n)
    decreases n - i
  {
    if i < n {
      CountSame(f, g, i + 1, n);
    }
  }

  lemma {:induction false} CountNone(f: nat -> bool, i: nat, n: nat)
    requires forall j: nat :: i <= j < n ==> !f(j)
    ensures Count(f, i, n) == 0
    decreases n - i
  {
    if i < n {
      CountNone(f, i + 1, n);
    }
  }

  /** Each index contributes its row once: membership and length of the rows. */
  lemma {:induction false} RowsExact<T>(row: nat -> Option<T>, i: nat, n: nat)
    ensures forall r: T :: r in Rows(row, i, n) <==> exists j: nat :: i <= j < n && row(j) == Some(r)
    ensures |Rows(row, i, n)| == Count((j: nat) => row(j).Some?, i, n)
    decreases n - i
  {
    if i < n {
      RowsExact(row, i + 1, n);
      forall r: T
        ensures r in Rows(row, i, n) <==> exists j: nat :: i <= j < n && row(j) == Some(r)
      {
        if j: nat :| i <= j < n && row(j) == Some(r) {
          if j != i {
            assert i + 1 <= j;
          }
        }
      }
    }
  }

  // ---------------------------------------------------------------- what one run finds

  function UnknownAt(payments: seq<Payment>, t: TenantId): nat -> bool {
    (i: nat) => i < |payments| && payments[i].tenant == t && payments[i].status == Unknown
  }

  /** A query answer that resolves: the provider knows how it ended. */
  predicate Resolves(reply: Reply) {
    reply.Answered? && reply.outcome in {OutcomeSuccessful, OutcomeFailed}
  }

  /** An UNKNOWN payment whose answer raises: no answer at all, or PENDING, which UNKNOWN may not move to. */
  predicate Breaks(reply: Reply) {
    reply.Answered? ==> reply.outcome == OutcomePending
  }

  function BrokenAt(payments: seq<Payment>, t: TenantId, ask: nat -> Reply): nat -> bool {
    (i: nat) => UnknownAt(payments, t)(i) && Breaks(ask(i))
  }

  /** Some UNKNOWN payment has no usable answer. */
  ghost predicate SomeBroken(payments: seq<Payment>, t: TenantId, ask: nat -> Reply) {
    SomeBad(BrokenAt(payments, t, ask), |payments|)
  }

  function ResolvedAt(payments: seq<Payment>, t: TenantId, ask: nat -> Reply): nat -> bool {
    (i: nat) => UnknownAt(payments, t)(i) && Resolves(ask(i))
  }

  function StuckAt(payments: seq<Payment>, t: TenantId, ask: nat -> Reply): nat -> bool {
    (i: nat) => UnknownAt(payments, t)(i) && ask(i).Answered? && ask(i).outcome == OutcomeUnknown
  }

  function StuckRow(payments: seq<Payment>, t: TenantId, ask: nat -> Reply, run: nat): nat -> Option<ReconException> {
    (i: nat) => if StuckAt(payments, t, ask)(i) then Some(ReconException(t, run, i, StuckUnknown)) else None
  }

  /** The payment as its query leaves it. */
  function Answer(p: Payment, reply: Reply, now: Time): Payment {
    if !reply.Answered? then p
    else
      var q := if p.reference == "" then p.(reference := reply.reference) else p;
      match reply.outcome
      case OutcomeSuccessful => q.(status := Successful, completedAt := Some(now))
      case OutcomeFailed => q.(status := Failed, completedAt := Some(now))
      case _ => q
  }

  /** Only the tenant's UNKNOWN payments change, each as its own answer says. */
  function AnswerAll(payments: seq<Payment>, t: TenantId, ask: nat -> Reply, now: Time): (answered: seq<Payment>)
    ensures |answered| == |payments|
    ensures forall i :: 0 <= i < |payments| ==>
              answered[i] == if payments[i].tenant == t && payments[i].status == Unknown
                             then Answer(payments[i], ask(i), now) else payments[i]
  {
    seq(|payments|, i requires 0 <= i < |payments| =>
      if payments[i].tenant == t && payments[i].status == Unknown then Answer(payments[i], ask(i), now) else payments[i])
  }

  function SettledAt(payments: seq<Payment>, t: TenantId): nat -> bool {
    (i: nat) =>
      && i < |payments| && payments[i].tenant == t
      && payments[i].status in {Successful, Failed} && payments[i].reference != ""
  }

  function SilentAt(payments: seq<Payment>, t: TenantId, check: string -> Reply): nat -> bool {
    (i: nat) => SettledAt(payments, t)(i) && !check(payments[i].reference).Answered?
  }

  /** The provider does not answer for some settled payment. */
  ghost predicate SomeSilent(payments: seq<Payment>, t: TenantId, check: string -> Reply) {
    SomeBad(SilentAt(payments, t, check), |payments|)
  }

  function FindingAt(payments: seq<Payment>, t: TenantId, check: string -> Reply): nat -> Option<ExceptionKind> {
    (i: nat) =>
      if SettledAt(payments, t)(i) && check(payments[i].reference).Answered?
      then Verdict(payments[i].status, check(payments[i].reference).outcome) else None
  }

  /** How the provider's view of a settled payment is read. */
  function Verdict(status: PaymentStatus, outcome: ProviderOutcome): Option<ExceptionKind> {
    match outcome
    case OutcomeUnknown => Some(MissingAtProvider)
    case OutcomePending => Some(StatusMismatch)
    case OutcomeSuccessful => if status == Failed then Some(StatusMismatch) else None
    case OutcomeFailed => if status == Successful then Some(StatusMismatch) else None
  }

  function MatchedAt(payments: seq<Payment>, t: TenantId, check: string -> Reply): nat -> bool {
    (i: nat) => SettledAt(payments, t)(i) && FindingAt(payments, t, check)(i).None?
  }

  function FindingRow(payments: seq<Payment>, t: TenantId, check: string -> Reply, run: nat)
    : nat -> Option<ReconException>
  {
    (i: nat) =>
      var finding := FindingAt(payments, t, check)(i);
      if finding.Some? then Some(ReconException(t, run, i, finding.value)) else None
  }

  // ---------------------------------------------------------------- the first pass

  lemma QueryingUnknown(s: Store, i: nat, reply: Reply, now: Time)
    requires Inv(s) && i < |s.payments| && s.payments[i].status == Unknown
    ensures var r := QueryPayment(s, i, reply, now);
            && (r.Raised? <==> Breaks(reply))
            && (r.Ok? ==>
                  && r.value.payments == s.payments[i := Answer(s.payments[i], reply, now)]
                  && r.value.exceptions == s.exceptions
                  && r.value.runs == s.runs)
  {
    if reply.Answered? && reply.outcome == OutcomeSuccessful {
      var s1 := LearnReference(s, i, reply.reference);
      ReferenceKeepsInv(s, i, reply.reference);
      SucceedWrites(s1, i, now);
      hide Succeed, Inv;
    } else {
      QueryingUnpaid(s, i, reply, now);
    }
  }

  lemma QueryingUnpaid(s: Store, i: nat, reply: Reply, now: Time)
    requires KeysResolve(s) && i < |s.payments| && s.payments[i].status == Unknown
    requires reply.Answered? ==> reply.outcome != OutcomeSuccessful
    ensures var r := QueryPayment(s, i, reply, now);
            && (r.Raised? <==> Breaks(reply))
            && (r.Ok? ==>
                  && r.value.payments == s.payments[i := Answer(s.payments[i], reply, now)]
                  && r.value.exceptions == s.exceptions
                  && r.value.runs == s.runs)
  {
  }

  /** What visiting one UNKNOWN payment does to everything the run reports. */
  lemma VisitingUnknown(s: Store, run: nat, tally: ReconRun, ask: nat -> Reply, i: nat, now: Time)
    requires Inv(s) && i < |s.payments| && IsUnknown(s.payments[i], tally.tenant)
    ensures var r := Visit(s, run, tally, ask, i, now);
            && (r.Raised? <==> Breaks(ask(i)))
            && (r.Ok? ==>
                  && Inv(r.value.0)
                  && r.value.0.payments == s.payments[i := Answer(s.payments[i], ask(i), now)]
                  && r.value.0.runs == s.runs
                  && if Resolves(ask(i))
                     then && r.value.0.exceptions == s.exceptions
                          && r.value.1 == tally.(checked := tally.checked + 1, resolved := tally.resolved + 1)
                     else && r.value.0.exceptions == s.exceptions + [ReconException(tally.tenant, run, i, StuckUnknown)]
                          && r.value.1 == tally.(checked := tally.checked + 1, exceptions := tally.exceptions + 1))
  {
    QueryingUnknown(s, i, ask(i), now);
    VisitKeepsInv(s, run, tally, ask, i, now);
  }

  /** Where the first pass stands when the payments from `i` on are done. */
  predicate Answered(s: Store, t: TenantId, ask: nat -> Reply, now: Time, payments: seq<Payment>, i: nat) {
    && |payments| == |s.payments|
    && forall j :: 0 <= j < |s.payments| ==>
                     payments[j] == if i <= j then AnswerAll(s.payments, t, ask, now)[j] else s.payments[j]
  }

  predicate Reported(s: Store, run: nat, t: TenantId, ask: nat -> Reply, pass: Pass, i: nat) {
    var n := |s.payments|;
    && pass.0.exceptions == s.exceptions + Rows(StuckRow(s.payments, t, ask, run), i, n)
    && pass.1 == ReconRun(t, Count(UnknownAt(s.payments, t), i, n), 0, Count(StuckAt(s.payments, t, ask), i, n),
                          Count(ResolvedAt(s.payments, t, ask), i, n), false)
  }

  ghost predicate Resolving(s: Store, run: nat, t: TenantId, ask: nat -> Reply, now: Time, pass: Pass, i: nat) {
    && i <= |s.payments|
    && Inv(pass.0)
    && pass.0.runs == s.runs
    && Answered(s, t, ask, now, pass.0.payments, i)
    && Reported(s, run, t, ask, pass, i)
  }

  lemma VisitResolves(
    s: Store, run: nat, t: TenantId, ask: nat -> Reply, now: Time, pass: Pass, i: nat)
    requires Resolving(s, run, t, ask, now, pass, i + 1)
    ensures var r := Visiting(run, ask, now)(pass, i);
            && (r.Raised? <==> BrokenAt(s.payments, t, ask)(i))
            && (r.Ok? ==> Resolving(s, run, t, ask, now, r.value, i))
  {
    assert pass.0.payments[i] == s.payments[i];
    if IsUnknown(s.payments[i], t) {
      VisitAnswers(s, run, t, ask, now, pass, i);
    } else {
      VisitSkips(s, run, t, ask, now, pass, i);
    }
  }

  lemma AnsweredNext(s: Store, t: TenantId, ask: nat -> Reply, now: Time, payments: seq<Payment>, i: nat)
    requires i < |s.payments| && IsUnknown(s.payments[i], t) && Answered(s, t, ask, now, payments, i + 1)
    ensures Answered(s, t, ask, now, payments[i := Answer(payments[i], ask(i), now)], i)
  {
  }

  /** One more UNKNOWN payment is counted: as resolved, or as stuck with its exception row. */
  predicate CountedNext(run: nat, t: TenantId, reply: Reply, pass: Pass, next: Pass, i: nat) {
    if Resolves(reply)
    then && next.0.exceptions == pass.0.exceptions
         && next.1 == pass.1.(checked := pass.1.checked + 1, resolved := pass.1.resolved + 1)
    else && next.0.exceptions == pass.0.exceptions + [ReconException(t, run, i, StuckUnknown)]
         && next.1 == pass.1.(checked := pass.1.checked + 1, exceptions := pass.1.exceptions + 1)
  }

  lemma ReportedNext(s: Store, run: nat, t: TenantId, ask: nat -> Reply, pass: Pass, next: Pass, i: nat)
    requires i < |s.payments| && IsUnknown(s.payments[i], t) && !Breaks(ask(i))
    requires Reported(s, run, t, ask, pass, i + 1) && CountedNext(run, t, ask(i), pass, next, i)
    ensures Reported(s, run, t, ask, next, i)
  {
  }

  lemma VisitAnswers(
    s: Store, run: nat, t: TenantId, ask: nat -> Reply, now: Time, pass: Pass, i: nat)
    requires Resolving(s, run, t, ask, now, pass, i + 1) && IsUnknown(s.payments[i], t)
    ensures var r := Visiting(run, ask, now)(pass, i);
            && (r.Raised? <==> BrokenAt(s.payments, t, ask)(i))
            && (r.Ok? ==> Resolving(s, run, t, ask, now, r.value, i))
  {
    assert pass.0.payments[i] == s.payments[i];
    VisitingUnknown(pass.0, run, pass.1, ask, i, now);
    assert BrokenAt(s.payments, t, ask)(i) == Breaks(ask(i));
    AnsweredNext(s, t, ask, now, pass.0.payments, i);
    var r := Visiting(run, ask, now)(pass, i);
    hide Visit, Inv, Breaks, Answered, Answer;
    if r.Ok? {
      assert CountedNext(run, t, ask(i), pass, r.value, i);
      ReportedNext(s, run, t, ask, pass, r.value, i);
      hide Reported, CountedNext;
    }
  }

  lemma VisitSkips(
    s: Store, run: nat, t: TenantId, ask: nat -> Reply, now: Time, pass: Pass, i: nat)
    requires Resolving(s, run, t, ask, now, pass, i + 1) && !IsUnknown(s.payments[i], t)
    ensures Visiting(run, ask, now)(pass, i) == Ok(pass) && Resolving(s, run, t, ask, now, pass, i)
  {
    assert pass.0.payments[i] == s.payments[i];
  }

  ghost function ResolvingFrom(s: Store, run: nat, t: TenantId, ask: nat -> Reply, now: Time): (Pass, nat) -> bool {
    (pass: Pass, i: nat) => Resolving(s, run, t, ask, now, pass, i)
  }

  lemma VisitsDecide(s: Store, run: nat, t: TenantId, ask: nat -> Reply, now: Time)
    ensures Decides(Visiting(run, ask, now), ResolvingFrom(s, run, t, ask, now), BrokenAt(s.payments, t, ask))
  {
    hide Visiting, Resolving, BrokenAt;
    var visit, good, bad := Visiting(run, ask, now), ResolvingFrom(s, run, t, ask, now), BrokenAt(s.payments, t, ask);
    forall pass: Pass, i: nat | good(pass, i + 1)
      ensures (visit(pass, i).Raised? <==> bad(i)) && (visit(pass, i).Ok? ==> good(visit(pass, i).value, i))
    {
      VisitResolves(s, run, t, ask, now, pass, i);
    }
  }

  lemma FirstSweep(s: Store, run: nat, t: TenantId, ask: nat -> Reply, now: Time)
    requires Inv(s)
    ensures var r := Sweep(Visiting(run, ask, now), (s, ReconRun(t, 0, 0, 0, 0, false)), |s.payments|);
            && (r.Raised? <==> SomeBad(BrokenAt(s.payments, t, ask), |s.payments|))
            && (r.Ok? ==> Resolving(s, run, t, ask, now, r.value, 0))
  {
    ResolvingStarts(s, run, t, ask, now);
    VisitsDecide(s, run, t, ask, now);
    hide Inv, Resolving, Visiting, BrokenAt, Decides, SomeBad;
    SweepDecides(Visiting(run, ask, now), ResolvingFrom(s, run, t, ask, now), BrokenAt(s.payments, t, ask),
                 (s, ReconRun(t, 0, 0, 0, 0, false)), |s.payments|);
  }

  /** The first pass raises exactly on a broken answer; otherwise it leaves exactly this. */
  lemma FirstPass(s: Store, run: nat, t: TenantId, ask: nat -> Reply, now: Time)
    requires Inv(s)
    ensures var r := Sweep(Visiting(run, ask, now), (s, ReconRun(t, 0, 0, 0, 0, false)), |s.payments|);
            && (r.Raised? <==> SomeBroken(s.payments, t, ask))
            && (r.Ok? ==>
                  && r.value.0.payments == AnswerAll(s.payments, t, ask, now)
                  && r.value.0.runs == s.runs
                  && Reported(s, run, t, ask, r.value, 0))
  {
    FirstSweep(s, run, t, ask, now);
    var r := Sweep(Visiting(run, ask, now), (s, ReconRun(t, 0, 0, 0, 0, false)), |s.payments|);
    if r.Ok? {
      ResolvingEnds(s, run, t, ask, now, r.value);
    }
  }

  lemma ResolvingEnds(s: Store, run: nat, t: TenantId, ask: nat -> Reply, now: Time, pass: Pass)
    requires Resolving(s, run, t, ask, now, pass, 0)
    ensures pass.0.payments == AnswerAll(s.payments, t, ask, now)
    ensures pass.0.runs == s.runs && Reported(s, run, t, ask, pass, 0)
  {
  }

  lemma ResolvingStarts(s: Store, run: nat, t: TenantId, ask: nat -> Reply, now: Time)
    requires Inv(s)
    ensures Resolving(s, run, t, ask, now, (s, ReconRun(t, 0, 0, 0, 0, false)), |s.payments|)
  {
  }

  // ---------------------------------------------------------------- the second pass

  /** Where the second pass stands when the payments from `i` on are compared. */
  predicate Compared(s: Store, run: nat, tally: ReconRun, check: string -> Reply, pass: Pass, i: nat) {
    var t, n := tally.tenant, |s.payments|;
    && i <= n
    && pass.0 == s.(exceptions := s.exceptions + Rows(FindingRow(s.payments, t, check, run), i, n))
    && pass.1 == tally.(
                 checked := tally.checked + Count(SettledAt(s.payments, t), i, n),
                 matched := tally.matched + Count(MatchedAt(s.payments, t, check), i, n),
                 exceptions := tally.exceptions + Count(FoundAt(s.payments, t, check), i, n))
  }

  function FoundAt(payments: seq<Payment>, t: TenantId, check: string -> Reply): nat -> bool {
    (i: nat) => FindingAt(payments, t, check)(i).Some?
  }

  function ComparedFrom(s: Store, run: nat, tally: ReconRun, check: string -> Reply): (Pass, nat) -> bool {
    (pass: Pass, i: nat) => Compared(s, run, tally, check, pass, i)
  }

  lemma ComparisonsDecide(s: Store, run: nat, tally: ReconRun, check: string -> Reply)
    ensures Decides(Comparing(run, check), ComparedFrom(s, run, tally, check), SilentAt(s.payments, tally.tenant, check))
  {
    var compare, good, bad :=
      Comparing(run, check), ComparedFrom(s, run, tally, check), SilentAt(s.payments, tally.tenant, check);
    forall pass: Pass, i: nat | good(pass, i + 1)
      ensures (compare(pass, i).Raised? <==> bad(i)) && (compare(pass, i).Ok? ==> good(compare(pass, i).value, i))
    {
      CompareReports(s, run, tally, check, pass, i);
    }
  }

  /** The second pass raises exactly on a silent provider; otherwise it reports exactly the findings. */
  lemma SecondPass(s: Store, run: nat, tally: ReconRun, check: string -> Reply)
    ensures var r := Sweep(Comparing(run, check), (s, tally), |s.payments|);
            && (r.Raised? <==> SomeSilent(s.payments, tally.tenant, check))
            && (r.Ok? ==> Compared(s, run, tally, check, r.value, 0))
  {
    ComparedStarts(s, run, tally, check);
    ComparisonsDecide(s, run, tally, check);
    hide Compared, Comparing, SilentAt, Decides, SomeBad;
    SweepDecides(Comparing(run, check), ComparedFrom(s, run, tally, check), SilentAt(s.payments, tally.tenant, check),
                 (s, tally), |s.payments|);
  }

  lemma ComparedStarts(s: Store, run: nat, tally: ReconRun, check: string -> Reply)
    ensures Compared(s, run, tally, check, (s, tally), |s.payments|)
  {
  }

  lemma CompareReports(s: Store, run: nat, tally: ReconRun, check: string -> Reply, pass: Pass, i: nat)
    requires Compared(s, run, tally, check, pass, i + 1)
    ensures var r := Comparing(run, check)(pass, i);
            && (r.Raised? <==> SilentAt(s.payments, tally.tenant, check)(i))
            && (r.Ok? ==> Compared(s, run, tally, check, r.value, i))
  {
    var t, n := tally.tenant, |s.payments|;
    var row := FindingRow(s.payments, t, check, run);
    var earlier := Rows(row, i + 1, n);
    var finding := FindingAt(s.payments, t, check)(i);
    if finding.Some? {
      assert row(i) == Some(ReconException(t, run, i, finding.value));
      assert Rows(row, i, n) == earlier + [ReconException(t, run, i, finding.value)];
      assert s.exceptions + earlier + [ReconException(t, run, i, finding.value)] == s.exceptions + Rows(row, i, n);
    } else {
      assert row(i).None?;
      assert Rows(row, i, n) == earlier;
    }
  }

  // ---------------------------------------------------------------- the whole run

  /** Exactly what a completed run leaves behind. */
  predicate RunLeaves(s: Store, t: TenantId, ask: nat -> Reply, check: string -> Reply, now: Time, s': Store) {
    var n, run := |s.payments|, |s.runs|;
    var answered := AnswerAll(s.payments, t, ask, now);
    && s'.payments == answered
    && s'.exceptions == s.exceptions + Rows(StuckRow(s.payments, t, ask, run), 0, n)
                        + Rows(FindingRow(answered, t, check, run), 0, n)
    && s'.runs == s.runs + [ReconRun(
                              t,
                              Count(UnknownAt(s.payments, t), 0, n) + Count(SettledAt(answered, t), 0, n),
                              Count(MatchedAt(answered, t, check), 0, n),
                              Count(StuckAt(s.payments, t, ask), 0, n) + Count(FoundAt(answered, t, check), 0, n),
                              Count(ResolvedAt(s.payments, t, ask), 0, n),
                              true)]
  }

  /** A run fails as a whole exactly when one payment has no usable answer; otherwise it leaves exactly this. */
  lemma ReconcileDecides(s: Store, t: TenantId, ask: nat -> Reply, check: string -> Reply, now: Time)
    requires Inv(s)
    ensures var r := Reconcile(s, t, ask, check, now);
            var answered := AnswerAll(s.payments, t, ask, now);
            && (r.Raised? <==> SomeBroken(s.payments, t, ask) || SomeSilent(answered, t, check))
            && (r.Ok? ==> RunLeaves(s, t, ask, check, now, r.value))
  {
    var run, blank := |s.runs|, ReconRun(t, 0, 0, 0, 0, false);
    var s0 := s.(runs := s.runs + [blank]);
    Preservation.LogKeepsInv(s, s0);
    FirstPass(s0, run, t, ask, now);
    var r1 := Sweep(Visiting(run, ask, now), (s0, blank), |s0.payments|);
    hide Inv, Visiting, Comparing, AnswerAll, SomeBroken, SomeSilent, Count, Rows, Reported, RunLeaves;
    if r1.Ok? {
      SecondPass(r1.value.0, run, r1.value.1, check);
      var r2 := Sweep(Comparing(run, check), r1.value, |r1.value.0.payments|);
      if r2.Ok? {
        RunEnds(s, t, ask, check, now, r1.value, r2.value);
      }
    }
  }

  lemma RunEnds(
    s: Store, t: TenantId, ask: nat -> Reply, check: string -> Reply, now: Time, first: Pass, second: Pass)
    requires first.0.payments == AnswerAll(s.payments, t, ask, now)
    requires Reported(s.(runs := s.runs + [ReconRun(t, 0, 0, 0, 0, false)]), |s.runs|, t, ask, first, 0)
    requires Compared(first.0, |s.runs|, first.1, check, second, 0)
    ensures RunLeaves(s, t, ask, check, now, second.0.(runs := s.runs + [second.1.(completed := true)]))
  {
    hide Count, Rows, AnswerAll;
  }

  /** Every payment that a run checked is matched, an exception, or a resolved one. */
  lemma CountersAddUp(s: Store, t: TenantId, ask: nat -> Reply, check: string -> Reply, now: Time)
    requires Inv(s) && Reconcile(s, t, ask, check, now).Ok?
    ensures RunLeaves(s, t, ask, check, now, Reconcile(s, t, ask, check, now).value)
    ensures var run := Reconcile(s, t, ask, check, now).value.runs[|s.runs|];
            run.checked == run.matched + run.exceptions + run.resolved
  {
    ReconcileDecides(s, t, ask, check, now);
    UnknownSplits(s.payments, t, ask);
    SettledSplits(AnswerAll(s.payments, t, ask, now), t, check);
  }

  lemma UnknownSplits(payments: seq<Payment>, t: TenantId, ask: nat -> Reply)
    requires !SomeBroken(payments, t, ask)
    ensures var n := |payments|;
            Count(UnknownAt(payments, t), 0, n) ==
            Count(ResolvedAt(payments, t, ask), 0, n) + Count(StuckAt(payments, t, ask), 0, n)
  {
    var whole, left, right := UnknownAt(payments, t), ResolvedAt(payments, t, ask), StuckAt(payments, t, ask);
    forall j: nat | 0 <= j < |payments| ensures whole(j) == (left(j) || right(j)) && !(left(j) && right(j)) {
      assert !BrokenAt(payments, t, ask)(j);
    }
    CountSplits(whole, left, right, 0, |payments|);
  }

  lemma SettledSplits(payments: seq<Payment>, t: TenantId, check: string -> Reply)
    ensures var n := |payments|;
            Count(SettledAt(payments, t), 0, n) ==
            Count(MatchedAt(payments, t, check), 0, n) + Count(FoundAt(payments, t, check), 0, n)
  {
    var whole, left, right := SettledAt(payments, t), MatchedAt(payments, t, check), FoundAt(payments, t, check);
    forall j: nat | 0 <= j < |payments| ensures whole(j) == (left(j) || right(j)) && !(left(j) && right(j)) {
      assert FindingAt(payments, t, check)(j).Some? ==> SettledAt(payments, t)(j);
    }
    CountSplits(whole, left, right, 0, |payments|);
  }

  /**
    The exception rows of a run are exactly the UNKNOWN payments that the
    provider could not resolve and the settled ones that it disagrees on, as many
    rows as the run counted.
  */
  lemma ExceptionsAreExact(
    s: Store, t: TenantId, ask: nat -> Reply, check: string -> Reply, now: Time, row: ReconException)
    requires Inv(s) && Reconcile(s, t, ask, check, now).Ok?
    ensures var s' := Reconcile(s, t, ask, check, now).value;
            var answered := AnswerAll(s.payments, t, ask, now);
            && s.exceptions <= s'.exceptions
            && |s'.runs| == |s.runs| + 1
            && |s'.exceptions| == |s.exceptions| + s'.runs[|s.runs|].exceptions
            && (row in s'.exceptions[|s.exceptions|..] <==>
                && row.tenant == t
                && row.run == |s.runs|
                && row.payment < |s.payments|
                && (|| (row.kind == StuckUnknown && StuckAt(s.payments, t, ask)(row.payment))
                    || FindingAt(answered, t, check)(row.payment) == Some(row.kind)))
  {
    hide Inv, KeysResolve, Reconcile, AnswerAll, Rows, Count, SomeBroken, SomeSilent, StuckAt, FindingAt;
    ReconcileDecides(s, t, ask, check, now);
    var s' := Reconcile(s, t, ask, check, now).value;
    var n, run, answered := |s.payments|, |s.runs|, AnswerAll(s.payments, t, ask, now);
    StuckRowsExact(s.payments, t, ask, run, row);
    FindingRowsExact(answered, t, check, run, row);
    var stuck := Rows(StuckRow(s.payments, t, ask, run), 0, n);
    var found := Rows(FindingRow(answered, t, check, run), 0, n);
    assert s'.exceptions[|s.exceptions|..] == stuck + found;
    hide RunLeaves;
  }

  lemma StuckRowsExact(payments: seq<Payment>, t: TenantId, ask: nat -> Reply, run: nat, row: ReconException)
    ensures var rows := Rows(StuckRow(payments, t, ask, run), 0, |payments|);
            && |rows| == Count(StuckAt(payments, t, ask), 0, |payments|)
            && (row in rows <==>
                && row == ReconException(t, run, row.payment, StuckUnknown)
                && row.payment < |payments| && StuckAt(payments, t, ask)(row.payment))
  {
    var stuck := StuckRow(payments, t, ask, run);
    RowsExact(stuck, 0, |payments|);
    CountSame((i: nat) => stuck(i).Some?, StuckAt(payments, t, ask), 0, |payments|);
    if StuckAt(payments, t, ask)(row.payment) {
      assert stuck(row.payment) == Some(ReconException(t, run, row.payment, StuckUnknown));
    }
  }

  lemma FindingRowsExact(payments: seq<Payment>, t: TenantId, check: string -> Reply, run: nat, row: ReconException)
    ensures var rows := Rows(FindingRow(payments, t, check, run), 0, |payments|);
            && |rows| == Count(FoundAt(payments, t, check), 0, |payments|)
            && (row in rows <==>
                && row == ReconException(t, run, row.payment, row.kind)
                && row.payment < |payments| && FindingAt(payments, t, check)(row.payment) == Some(row.kind))
  {
    var found := FindingRow(payments, t, check, run);
    RowsExact(found, 0, |payments|);
    CountSame((i: nat) => found(i).Some?, FoundAt(payments, t, check), 0, |payments|);
    if FindingAt(payments, t, check)(row.payment) == Some(row.kind) {
      assert found(row.payment) == Some(ReconException(t, run, row.payment, row.kind));
    }
  }

  /**
    Written out: a payment is reported as stuck, missing or mismatched exactly when the provider
    does not know how it ended, does not know it at all, or reports another end than the books.
  */
  lemma FindingsWrittenOut(
    s: Store, t: TenantId, ask: nat -> Reply, check: string -> Reply, now: Time, i: nat, kind: ExceptionKind)
    requires Inv(s) && i < |s.payments| && Reconcile(s, t, ask, check, now).Ok?
    ensures var s' := Reconcile(s, t, ask, check, now).value;
            && s.exceptions <= s'.exceptions && |s'.payments| == |s.payments|
            && var p, q := s.payments[i], s'.payments[i];
               var view := check(q.reference);
               ReconException(t, |s.runs|, i, kind) in s'.exceptions[|s.exceptions|..] <==>
                 match kind
                 case StuckUnknown =>
                   && p.tenant == t && p.status == Unknown
                   && ask(i).Answered? && ask(i).outcome == OutcomeUnknown
                 case MissingAtProvider =>
                   && q.tenant == t && q.reference != "" && q.status in {Successful, Failed}
                   && view.Answered? && view.outcome == OutcomeUnknown
                 case StatusMismatch =>
                   && q.tenant == t && q.reference != "" && view.Answered?
                   && (|| (q.status == Successful && view.outcome in {OutcomeFailed, OutcomePending})
                       || (q.status == Failed && view.outcome in {OutcomeSuccessful, OutcomePending}))
  {
    hide Inv, KeysResolve, Reconcile, Rows, Count, SomeBroken, SomeSilent;
    ReconcileDecides(s, t, ask, check, now);
    ExceptionsAreExact(s, t, ask, check, now, ReconException(t, |s.runs|, i, kind));
    hide RunLeaves;
  }

  /** The provider knows the payment and agrees on how it ended. */
  function AgreedAt(payments: seq<Payment>, t: TenantId, check: string -> Reply): nat -> bool {
    (i: nat) =>
      && i < |payments| && payments[i].tenant == t && payments[i].reference != ""
      && var view := check(payments[i].reference);
         && view.Answered?
         && (|| (payments[i].status == Successful && view.outcome == OutcomeSuccessful)
             || (payments[i].status == Failed && view.outcome == OutcomeFailed))
  }

  lemma MatchedIfAgreed(payments: seq<Payment>, t: TenantId, check: string -> Reply, i: nat)
    requires !SilentAt(payments, t, check)(i)
    ensures MatchedAt(payments, t, check)(i) == AgreedAt(payments, t, check)(i)
  {
    if SettledAt(payments, t)(i) {
      var view := check(payments[i].reference);
      assert view.Answered?;
      assert FindingAt(payments, t, check)(i) == Verdict(payments[i].status, view.outcome);
    }
  }

  /** Written out: the matches of a run are the payments that both sides agree on, and no other is counted as one. */
  lemma MatchesWrittenOut(s: Store, t: TenantId, ask: nat -> Reply, check: string -> Reply, now: Time)
    requires Inv(s) && Reconcile(s, t, ask, check, now).Ok?
    ensures var s' := Reconcile(s, t, ask, check, now).value;
            && |s'.runs| == |s.runs| + 1
            && s'.runs[|s.runs|].matched == Count(AgreedAt(s'.payments, t, check), 0, |s.payments|)
  {
    ReconcileDecides(s, t, ask, check, now);
    var answered := AnswerAll(s.payments, t, ask, now);
    hide Inv, KeysResolve, Reconcile, Rows, Count, AnswerAll, SilentAt, MatchedAt, AgreedAt, SomeBroken;
    forall i: nat | i < |s.payments| ensures MatchedAt(answered, t, check)(i) == AgreedAt(answered, t, check)(i) {
      assert !SilentAt(answered, t, check)(i);
      MatchedIfAgreed(answered, t, check, i);
    }
    CountSame(MatchedAt(answered, t, check), AgreedAt(answered, t, check), 0, |s.payments|);
  }

  /** A payment that is not one of the tenant's UNKNOWN ones comes out of the run as it went in. */
  lemma OnlyUnknownPaymentsChange(s: Store, t: TenantId, ask: nat -> Reply, check: string -> Reply, now: Time, i: nat)
    requires Inv(s) && i < |s.payments| && !IsUnknown(s.payments[i], t)
    requires Reconcile(s, t, ask, check, now).Ok?
    ensures |Reconcile(s, t, ask, check, now).value.payments| == |s.payments|
    ensures Reconcile(s, t, ask, check, now).value.payments[i] == s.payments[i]
  {
    ReconcileDecides(s, t, ask, check, now);
  }

  /**
    A second run against an unchanged provider completes, resolves nothing, finds
    the same matches and exceptions, changes no payment, and checks exactly as
    many fewer payments as the first run resolved.
  */
  lemma SecondRunFindsNothingNew(
    s: Store, t: TenantId, ask: nat -> Reply, check: string -> Reply, now: Time, later: Time)
    requires Inv(s) && Reconcile(s, t, ask, check, now).Ok?
    ensures var s1 := Reconcile(s, t, ask, check, now).value;
            && Inv(s1)
            && Reconcile(s1, t, ask, check, later).Ok?
            && var s2 := Reconcile(s1, t, ask, check, later).value;
               && |s1.runs| == |s.runs| + 1 && |s2.runs| == |s.runs| + 2
               && s2.payments == s1.payments
               && var first, second := s1.runs[|s.runs|], s2.runs[|s1.runs|];
                  && second.resolved == 0
                  && second.matched == first.matched
                  && second.exceptions == first.exceptions
                  && second.checked == first.checked - first.resolved
  {
    ReconcileKeepsInv(s, t, ask, check, now);
    CountersAddUp(s, t, ask, check, now);
    ReconcileDecides(s, t, ask, check, now);
    var s1 := Reconcile(s, t, ask, check, now).value;
    ReconcileDecides(s1, t, ask, check, later);
    hide Reconcile, Inv, Count, Rows;
    SecondAnswers(s.payments, t, ask, now, later);
    var s2 := Reconcile(s1, t, ask, check, later).value;
    UnknownSplits(s1.payments, t, ask);
    SettledSplits(s1.payments, t, check);
  }

  lemma SecondAnswers(payments: seq<Payment>, t: TenantId, ask: nat -> Reply, now: Time, later: Time)
    requires !SomeBroken(payments, t, ask)
    ensures var answered, n := AnswerAll(payments, t, ask, now), |payments|;
            && AnswerAll(answered, t, ask, later) == answered
            && !SomeBroken(answered, t, ask)
            && Count(ResolvedAt(answered, t, ask), 0, n) == 0
            && Count(StuckAt(answered, t, ask), 0, n) == Count(StuckAt(payments, t, ask), 0, n)
  {
    var answered, n := AnswerAll(payments, t, ask, now), |payments|;
    AnsweringAgain(payments, t, ask, now, later);
    forall j: nat | j < n
      ensures !BrokenAt(answered, t, ask)(j) && !ResolvedAt(answered, t, ask)(j)
      ensures StuckAt(answered, t, ask)(j) == StuckAt(payments, t, ask)(j)
    {
      assert !BrokenAt(payments, t, ask)(j);
      assert answered[j] == if IsUnknown(payments[j], t) then Answer(payments[j], ask(j), now) else payments[j];
      assert UnknownAt(answered, t)(j) ==> UnknownAt(payments, t)(j);
      assert UnknownAt(payments, t)(j) ==> !Breaks(ask(j));
    }
    CountNone(ResolvedAt(answered, t, ask), 0, n);
    CountSame(StuckAt(answered, t, ask), StuckAt(payments, t, ask), 0, n);
  }

  /** Answering is idempotent: what is still UNKNOWN has learnt all it could. */
  lemma AnsweringAgain(payments: seq<Payment>, t: TenantId, ask: nat -> Reply, now: Time, later: Time)
    ensures AnswerAll(AnswerAll(payments, t, ask, now), t, ask, later) == AnswerAll(payments, t, ask, now)
  {
  }

  // ---------------------------------------------------------------- where a run falls short

  /** A provider that answers every query with PENDING. */
  function StillPending(): nat -> Reply {
    (i: nat) => Reply.Answered(OutcomePending, "P")
  }

  const LOST_INITIATION: seq<Step> :=
    [RequestingNumber(0, ForAccount(0), ["1"], None), Initiating(0, 0, 100, "", TimedOut, 0)]

  lemma FirstNumberIsCreated()
    ensures Inv(EMPTY_STORE)
    ensures var s := After(EMPTY_STORE, LOST_INITIATION[0]);
            |s.numbers| == 1 && s.numbers[0].tenant == 0 && s.payments == []
  {
    EmptyStoreIsSound();
    assert FreshValue([], ["1"]) == Some("1");
    assert Drawn(["1"], MAX_GENERATION_ATTEMPTS) == ["1"];
  }

  lemma InitiationIsLost(s: Store)
    requires Inv(s) && |s.numbers| == 1 && s.numbers[0].tenant == 0 && s.payments == []
    ensures var s' := After(s, LOST_INITIATION[1]);
            |s'.payments| == 1 && IsUnknown(s'.payments[0], 0)
  {
  }

  lemma OnePendingAnswer(s: Store, check: string -> Reply)
    requires Inv(s) && |s.payments| == 1 && IsUnknown(s.payments[0], 0)
    ensures Perform(s, Reconciling(0, StillPending(), check, 1)).Raised?
  {
    ReconcileDecides(s, 0, StillPending(), check, 1);
    hide Reconcile, Inv, SomeSilent;
    assert BrokenAt(s.payments, 0, StillPending())(0);
  }

  lemma TwoSteps(s: Store, a: Step, b: Step)
    requires Inv(s)
    ensures Run(s, [a, b]) == After(After(s, a), b)
  {
    hide Inv, After;
    assert [a, b][1..] == [b] && [b][1..] == [];
    assert Run(s, [a, b]) == Run(After(s, a), [b]) == Run(After(After(s, a), b), []);
  }

  /**
    The specification has a run resolve every UNKNOWN payment or open an exception
    for it. One honest PENDING answer, to a payment whose initiation timed out,
    makes the whole run raise instead: the payment stays UNKNOWN and no exception is opened.
  */
  lemma PendingAnswerSinksTheRun(check: string -> Reply)
    ensures Inv(EMPTY_STORE)
    ensures var s := Run(EMPTY_STORE, LOST_INITIATION);
            var step := Reconciling(0, StillPending(), check, 1);
            && |s.payments| == 1 && IsUnknown(s.payments[0], 0)
            && Perform(s, step).Raised?
            && After(s, step) == s
  {
    FirstNumberIsCreated();
    hide Inv, Perform;
    TwoSteps(EMPTY_STORE, LOST_INITIATION[0], LOST_INITIATION[1]);
    assert LOST_INITIATION == [LOST_INITIATION[0], LOST_INITIATION[1]];
    InitiationIsLost(After(EMPTY_STORE, LOST_INITIATION[0]));
    OnePendingAnswer(Run(EMPTY_STORE, LOST_INITIATION), check);
  }
}
