/**
  Webhook delivery: each run of the task attempts once, then delivers, gives up
  into the dead letters, or asks the queue to run it again after a delay. The
  queue runs one delivery at most seven times.
*/
module Webhooks {
  import opened Sums

  const MAX_RETRIES: nat := 6

  datatype Status = Pending | Delivered | Retrying | DeadLetter
  datatype Delivery = Delivery(
    status: Status,
    attemptCount: nat,
    maxAttempts: nat,
    lastAttemptedAt: Option<int>,
    responseCode: Option<nat>,
    responseBody: string)

  /** When an attempt was made and what came of it: a status code with its body, or no code and the error's text. */
  datatype Response = Response(at: int, code: Option<nat>, text: string)

  const MAX_BODY: nat := 2000

  function Truncated(text: string): string {
    if |text| <= MAX_BODY then text else text[..MAX_BODY]
  }

  predicate Succeeds(response: Response) {
    response.code.Some? && 200 <= response.code.value < 300
  }

  /** The delivery with the attempt counted and the response on file. */
  function Recorded(d: Delivery, response: Response): Delivery {
    d.(attemptCount := d.attemptCount + 1,
       lastAttemptedAt := Some(response.at),
       responseCode := response.code,
       responseBody := Truncated(response.text))
  }

  function PowerOfTwo(n: nat): (p: nat)
    ensures p > 0
  {
    if n == 0 then 1 else 2 * PowerOfTwo(n - 1)
  }

  /** Exponential backoff in seconds, capped at five minutes. */
  function Backoff(attempts: nat): nat {
    if PowerOfTwo(attempts) * 5 < 300 then PowerOfTwo(attempts) * 5 else 300
  }

  /** One run of the task: the delivery it leaves, and the delay of the next run if it asks for one. */
  function Attempted(d: Delivery, response: Response): (Delivery, Option<nat>) {
    if d.status == Delivered then (d, None)
    else
      var d1 := Recorded(d, response);
      if Succeeds(response) then (d1.(status := Delivered), None)
      else if d1.attemptCount >= d1.maxAttempts then (d1.(status := DeadLetter), None)
      else (d1.(status := Retrying), Some(Backoff(d1.attemptCount)))
  }

  class WebhookTask {
    var status: Status
    var attemptCount: nat
    var maxAttempts: nat
    var lastAttemptedAt: Option<int>
    var responseCode: Option<nat>
    var responseBody: string

    constructor (maxAttempts: nat)
      ensures View() == Queued(maxAttempts)
    {
      status, attemptCount, this.maxAttempts := Pending, 0, maxAttempts;
      lastAttemptedAt, responseCode, responseBody := None, None, "";
    }

    function View(): Delivery
      reads this
    {
      Delivery(status, attemptCount, maxAttempts, lastAttemptedAt, responseCode, responseBody)
    }

    /** One HTTP attempt; it decides neither retry nor dead letter. */
    method PerformDelivery(response: Response) returns (success: bool)
      modifies this
      ensures success <==> Succeeds(response)
      ensures View() == Recorded(old(View()), response).(status := if success then Delivered else old(status))
      ensures success <==> response.code.Some? && 200 <= response.code.value < 300
      ensures attemptCount == old(attemptCount) + 1 && lastAttemptedAt == Some(response.at)
      ensures responseCode == response.code && responseBody <= response.text
      ensures |responseBody| == if |response.text| < 2000 then |response.text| else 2000
    {
      attemptCount := attemptCount + 1;
      lastAttemptedAt := Some(response.at);
      if response.code.None? {
        responseCode := None;
        responseBody := Truncated(response.text);
        return false;
      }
      responseCode := response.code;
      responseBody := Truncated(response.text);
      success := 200 <= response.code.value < 300;
      if success {
        status := Delivered;
      }
    }

    method DeliverWebhook(response: Response) returns (countdown: Option<nat>)
      modifies this
      ensures (View(), countdown) == Attempted(old(View()), response)
      ensures old(status) == Delivered ==> View() == old(View()) && countdown == None
      ensures old(status) != Delivered ==>
                && attemptCount == old(attemptCount) + 1
                && (status == Delivered <==> response.code.Some? && 200 <= response.code.value < 300)
                && (status == DeadLetter <==> status != Delivered && attemptCount >= maxAttempts)
                && (status == Retrying <==> countdown.Some?)
    {
      if status == Delivered {
        return None;
      }
      var success := PerformDelivery(response);
      if success {
        return None;
      }
      if attemptCount >= maxAttempts {
        status := DeadLetter;
        return None;
      }
      status := Retrying;
      return Some(Backoff(attemptCount));
    }

    /** The queue: it runs the task again on request, but retries it at most MAX_RETRIES times. */
    method RunToTheEnd(responses: nat -> Response) returns (waited: nat)
      modifies this
      ensures View() == Chain(old(View()), responses, 0).0
      ensures waited == Chain(old(View()), responses, 0).1
    {
      waited := 0;
      for run := 0 to MAX_RETRIES
        invariant Chain(old(View()), responses, 0).0 == Chain(View(), responses, run).0
        invariant Chain(old(View()), responses, 0).1 == waited + Chain(View(), responses, run).1
      {
        var countdown := DeliverWebhook(responses(run));
        if countdown.None? {
          return;
        }
        waited := waited + countdown.value;
      }
      var refused := DeliverWebhook(responses(MAX_RETRIES));
    }
  }

  function Queued(maxAttempts: nat): Delivery {
    Delivery(Pending, 0, maxAttempts, None, None, "")
  }

  /** The delivery after all its runs from the given one on, and the delays between them in total. */
  function Chain(d: Delivery, responses: nat -> Response, run: nat): (Delivery, nat)
    requires run <= MAX_RETRIES
    decreases MAX_RETRIES - run
  {
    var (d1, countdown) := Attempted(d, responses(run));
    if countdown.None? || run == MAX_RETRIES then (d1, 0)
    else
      var (end, waited) := Chain(d1, responses, run + 1);
      (end, countdown.value + waited)
  }

  // ---------------------------------------------------------------- where every chain ends

  /** How many attempts a chain makes at most. */
  function Quota(maxAttempts: nat): nat {
    if maxAttempts == 0 then 1 else if maxAttempts <= MAX_RETRIES then maxAttempts else MAX_RETRIES + 1
  }

  /** The first of the attempts from `run` up to `n` that succeeds, or else `n`. */
  function FirstSuccess(responses: nat -> Response, run: nat, n: nat): (first: nat)
    ensures run <= n ==> run <= first <= n
    decreases n - run
  {
    if run >= n || Succeeds(responses(run)) then run else FirstSuccess(responses, run + 1, n)
  }

  lemma {:induction false} ChainEnds(d: Delivery, responses: nat -> Response, run: nat)
    requires run <= MAX_RETRIES && d.status != Delivered && d.attemptCount == run
    requires run < Quota(d.maxAttempts)
    ensures var end, quota := Chain(d, responses, run).0, Quota(d.maxAttempts);
            var first := FirstSuccess(responses, run, quota);
            if first < quota then end.status == Delivered && end.attemptCount == first + 1
            else end.attemptCount == quota
                 && end.status == if d.maxAttempts <= MAX_RETRIES + 1 then DeadLetter else Retrying
    decreases MAX_RETRIES - run
  {
    var (d1, countdown) := Attempted(d, responses(run));
    if countdown.Some? && run < MAX_RETRIES {
      ChainEnds(d1, responses, run + 1);
    }
  }

  /**
    Every chain ends delivered, at its first success, or in the dead letters, after
    max(1, maxAttempts) attempts, exactly when maxAttempts is at most 7; beyond
    that seven failures leave it waiting for a run that never comes.
  */
  lemma RetriesEndIffQuotaFits(maxAttempts: nat)
    ensures maxAttempts <= 7 <==>
            forall responses: nat -> Response :: Chain(Queued(maxAttempts), responses, 0).0.status in {Delivered, DeadLetter}
    ensures forall responses: nat -> Response ::
              var end := Chain(Queued(maxAttempts), responses, 0).0;
              var first := FirstSuccess(responses, 0, Quota(maxAttempts));
              && (end.status == Delivered <==> first < Quota(maxAttempts))
              && end.attemptCount == (if first < Quota(maxAttempts) then first + 1 else Quota(maxAttempts))
              && end.attemptCount <= Quota(maxAttempts)
  {
    forall responses: nat -> Response
      ensures var end := Chain(Queued(maxAttempts), responses, 0).0;
              var first := FirstSuccess(responses, 0, Quota(maxAttempts));
              && (end.status == Delivered <==> first < Quota(maxAttempts))
              && end.attemptCount == (if first < Quota(maxAttempts) then first + 1 else Quota(maxAttempts))
              && (end.status == Retrying <==> first == Quota(maxAttempts) && maxAttempts > MAX_RETRIES + 1)
              && end.status != Pending
    {
      ChainEnds(Queued(maxAttempts), responses, 0);
    }
    NeverSucceeds(0, Quota(maxAttempts));
    assert Chain(Queued(maxAttempts), Silence(), 0).0.status in {Delivered, DeadLetter} <==> maxAttempts <= MAX_RETRIES + 1;
  }

  /** An endpoint that never answers. */
  function Silence(): nat -> Response {
    (run: nat) => Response(run, None, "")
  }

  lemma {:induction false} NeverSucceeds(run: nat, n: nat)
    requires run <= n
    ensures FirstSuccess(Silence(), run, n) == n
    decreases n - run
  {
    if run < n {
      NeverSucceeds(run + 1, n);
    }
  }

  // ---------------------------------------------------------------- how long a chain waits

  lemma {:induction false} PowersGrow(m: nat, n: nat)
    requires m <= n
    ensures PowerOfTwo(m) <= PowerOfTwo(n)
    decreases n
  {
    if m < n {
      PowersGrow(m, n - 1);
    }
  }

  /** Delays never shrink and never exceed five minutes. */
  lemma BackoffIsMonotoneAndCapped(m: nat, n: nat)
    requires m <= n
    ensures Backoff(m) <= Backoff(n) <= 300
  {
    PowersGrow(m, n);
  }

  lemma Delays()
    ensures Backoff(1) == 10 && Backoff(2) == 20 && Backoff(3) == 40 && Backoff(4) == 80
    ensures Backoff(5) == 160 && Backoff(6) == 300
  {
  }

  /** The delays of a chain that keeps failing, from the given run on. */
  function WaitsFrom(run: nat, quota: nat): nat
    decreases quota - run
  {
    if run + 1 >= quota then 0 else Backoff(run + 1) + WaitsFrom(run + 1, quota)
  }

  lemma {:induction false} ChainWaits(d: Delivery, responses: nat -> Response, run: nat)
    requires run <= MAX_RETRIES && d.status != Delivered && d.attemptCount == run
    requires run < Quota(d.maxAttempts)
    ensures Chain(d, responses, run).1 <= WaitsFrom(run, Quota(d.maxAttempts))
    ensures FirstSuccess(responses, run, Quota(d.maxAttempts)) == Quota(d.maxAttempts) ==>
              Chain(d, responses, run).1 == WaitsFrom(run, Quota(d.maxAttempts))
    decreases MAX_RETRIES - run
  {
    var (d1, countdown) := Attempted(d, responses(run));
    if countdown.Some? && run < MAX_RETRIES {
      ChainWaits(d1, responses, run + 1);
    }
  }

  /** With the default of six attempts a chain waits at most 310 seconds, and exactly that when all fail. */
  lemma DefaultChainWaits(responses: nat -> Response)
    ensures Chain(Queued(6), responses, 0).1 <= 310
    ensures (forall run: nat :: run < 6 ==> !Succeeds(responses(run))) ==> Chain(Queued(6), responses, 0).1 == 310
  {
    ChainWaits(Queued(6), responses, 0);
    Delays();
    assert WaitsFrom(0, 6) == 310;
  }
}
