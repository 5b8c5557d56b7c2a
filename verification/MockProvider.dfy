/** The sandbox provider: a transaction store of its own, and replies that may get lost on the way back. */
module MockProvider {
  import opened Sums
  import opened Tables

  /** A transaction at the provider, filed under the merchant reference: the payment's identity. */
  datatype Txn = Txn(merchant: nat, reference: string, outcome: ProviderOutcome)

  /** What happens at the provider; anything but a failure or a pending one is a success, a timeout too. */
  function ActualOutcome(hint: string): ProviderOutcome {
    if hint == "failed" then OutcomeFailed
    else if hint == "pending" then OutcomePending
    else OutcomeSuccessful
  }

  function TxnFor(merchant: nat, hint: string, reference: string): Txn {
    Txn(merchant, reference, ActualOutcome(hint))
  }

  /** A timeout loses the answer, not the transaction. */
  function ReplyTo(hint: string, reference: string): Reply {
    if hint == "timeout" then TimedOut else Answered(ActualOutcome(hint), reference)
  }

  function FiledUnder(merchant: nat): Txn -> bool {
    (txn: Txn) => txn.merchant == merchant
  }

  function FiledAs(reference: string): Txn -> bool {
    (txn: Txn) => txn.reference == reference
  }

  function QueryReply(txns: seq<Txn>, merchant: nat): Reply {
    match Newest(txns, FiledUnder(merchant))
    case None => Answered(OutcomeUnknown, "")
    case Some(k) => Answered(txns[k].outcome, txns[k].reference)
  }

  function CheckReply(txns: seq<Txn>, reference: string): Reply {
    match Newest(txns, FiledAs(reference))
    case None => Answered(OutcomeUnknown, "")
    case Some(k) => Answered(txns[k].outcome, reference)
  }

  class MockAdapter {
    var transactions: seq<Txn>

    constructor ()
      ensures transactions == []
    {
      transactions := [];
    }

    method Initiate(merchant: nat, hint: string, reference: string) returns (reply: Reply)
      modifies this
      ensures transactions == old(transactions) + [TxnFor(merchant, hint, reference)]
      ensures reply == ReplyTo(hint, reference)
      ensures var txn := transactions[|old(transactions)|];
              && txn.merchant == merchant && txn.reference == reference
              && (txn.outcome == OutcomeFailed <==> hint == "failed")
              && (txn.outcome == OutcomePending <==> hint == "pending")
              && txn.outcome != OutcomeUnknown
              && reply == if hint == "timeout" then TimedOut else Answered(txn.outcome, reference)
    {
      var outcome := OutcomeSuccessful;
      if hint == "failed" {
        outcome := OutcomeFailed;
      } else if hint == "pending" {
        outcome := OutcomePending;
      }
      transactions := transactions + [Txn(merchant, reference, outcome)];
      if hint == "timeout" {
        return TimedOut;
      }
      return Answered(outcome, reference);
    }

    method Query(merchant: nat) returns (reply: Reply)
      ensures reply == QueryReply(transactions, merchant)
      ensures (forall k :: 0 <= k < |transactions| ==> transactions[k].merchant != merchant) ==>
                reply == Answered(OutcomeUnknown, "")
      ensures forall k :: 0 <= k < |transactions| && transactions[k].merchant == merchant
                          && (forall j :: k < j < |transactions| ==> transactions[j].merchant != merchant) ==>
                            reply == Answered(transactions[k].outcome, transactions[k].reference)
    {
      var found := Newest(transactions, FiledUnder(merchant));
      if found.None? {
        return Answered(OutcomeUnknown, "");
      }
      return Answered(transactions[found.value].outcome, transactions[found.value].reference);
    }

    method Reconcile(reference: string) returns (reply: Reply)
      ensures reply == CheckReply(transactions, reference)
      ensures (forall k :: 0 <= k < |transactions| ==> transactions[k].reference != reference) ==>
                reply == Answered(OutcomeUnknown, "")
      ensures forall k :: 0 <= k < |transactions| && transactions[k].reference == reference
                          && (forall j :: k < j < |transactions| ==> transactions[j].reference != reference) ==>
                            reply == Answered(transactions[k].outcome, reference)
    {
      var found := Newest(transactions, FiledAs(reference));
      if found.None? {
        return Answered(OutcomeUnknown, "");
      }
      return Answered(transactions[found.value].outcome, reference);
    }
  }
}
