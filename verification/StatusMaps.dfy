/**
 How the provider's status words become stored statuses. A word outside the map is stored as it is,
 so it can coincide with a status the gateway gives a meaning of its own.
 */
module StatusMaps {
  import opened Prelude
  import opened Ledger
  import opened Requests
  import opened Interleaving

  /** The stored status a word stands for. */
  function Stored(word: string): Status {
    if word == "pending" then Pending
    else if word == "processing" then Processing
    else if word == "requires_action" then RequiresAction
    else if word == "succeeded" then Succeeded
    else if word == "failed" then Failed
    else if word == "canceled" then Canceled
    else if word == "partially_refunded" then PartiallyRefunded
    else if word == "refunded" then Refunded
    else if word == "disputed" then Disputed
    else Unmapped(word)
  }

  function StoredRefund(word: string): RefundStatus {
    if word == "pending" then RefundPending
    else if word == "succeeded" then RefundSucceeded
    else if word == "failed" then RefundFailed
    else RefundUnmapped(word)
  }

  const STRIPE_PAYMENT_STATUS_MAP := map[
    "requires_payment_method" := "pending",
    "requires_confirmation" := "pending",
    "requires_action" := "requires_action",
    "processing" := "processing",
    "requires_capture" := "processing",
    "succeeded" := "succeeded",
    "canceled" := "canceled"]

  const STRIPE_REFUND_STATUS_MAP := map[
    "pending" := "pending",
    "succeeded" := "succeeded",
    "failed" := "failed",
    "canceled" := "failed"]

  function Get(table: map<string, string>, word: string): string {
    if word in table then table[word] else word
  }

  function MapPaymentStatus(word: string): Status {
    Stored(Get(STRIPE_PAYMENT_STATUS_MAP, word))
  }

  function MapRefundStatus(word: string): RefundStatus {
    StoredRefund(Get(STRIPE_REFUND_STATUS_MAP, word))
  }

  /**
   The statuses that only webhooks should give come from the provider's answer exactly for four
   words Stripe does not use for payment intents; `succeeded` and `canceled` come from no other word.
   */
  lemma PaymentWordsAreSafe(word: string)
    ensures MapPaymentStatus(word) in {Failed, PartiallyRefunded, Refunded, Disputed}
       <==> word in {"failed", "partially_refunded", "refunded", "disputed"}
    ensures MapPaymentStatus(word) == Succeeded <==> word == "succeeded"
    ensures MapPaymentStatus(word) == Canceled <==> word == "canceled"
    ensures MapPaymentStatus(word) == Pending <==> word in {"pending", "requires_payment_method", "requires_confirmation"}
    ensures MapPaymentStatus(word) == Processing <==> word in {"processing", "requires_capture"}
    ensures MapPaymentStatus(word) == RequiresAction <==> word == "requires_action"
    ensures MapPaymentStatus(word) == Failed <==> word == "failed"
    ensures MapPaymentStatus(word) == PartiallyRefunded <==> word == "partially_refunded"
    ensures MapPaymentStatus(word) == Refunded <==> word == "refunded"
    ensures MapPaymentStatus(word) == Disputed <==> word == "disputed"
    ensures MapPaymentStatus(word).Unmapped? ==> MapPaymentStatus(word).raw == word
  {
  }

  /** Only `succeeded` makes a refund count; a canceled refund is stored as failed. */
  lemma RefundWordsAreSafe(word: string)
    ensures MapRefundStatus(word) == RefundSucceeded <==> word == "succeeded"
    ensures MapRefundStatus(word) == RefundFailed <==> word in {"failed", "canceled"}
    ensures MapRefundStatus(word) == RefundPending <==> word == "pending"
    ensures MapRefundStatus(word).RefundUnmapped? ==> MapRefundStatus(word).raw == word
  {
  }

  /**
   What the provider contract asks of Stripe's words: a created intent is none of six, a confirmed one
   none of five, a canceled one `canceled`.
   */
  lemma ContractInWords(word: string, call: Call, id: string, amount: int, currency: string,
                        code: Option<string>, message: Option<string>)
    requires !call.CreateProviderRefund?
    ensures
      var never := {"failed", "partially_refunded", "refunded", "disputed"};
      Honours(call, IntentAnswer(id, MapPaymentStatus(word), amount, currency, code, message)) <==>
        match call
        case CreateIntent(a, c) => id != "" && amount == a && currency == c && word !in never + {"succeeded", "canceled"}
        case ConfirmIntent(intent, _) => id == intent && word !in never + {"canceled"}
        case CancelIntent(intent, _) => id == intent && word == "canceled"
        case _ => false
  {
    PaymentWordsAreSafe(word);
  }
}
