/**
 The committed tables of the gateway: payments, refunds, webhook events and the audit log.
 A row of `payments` or `refunds` is identified by its insertion index: such rows are never
 deleted, so the index plays the role of the UUID primary key.
 */
module Ledger {
  import opened Prelude

  // Unmapped is a provider status outside STRIPE_PAYMENT_STATUS_MAP, which is stored unchanged.
  datatype Status =
    | Pending | Processing | RequiresAction | Succeeded | Failed | Canceled
    | PartiallyRefunded | Refunded | Disputed
    | Unmapped(raw: string)

  datatype RefundStatus = RefundPending | RefundSucceeded | RefundFailed | RefundUnmapped(raw: string)

  datatype Payment = Payment(
    externalId: string,
    status: Status,
    amount: int,
    currency: string,
    idempotencyKey: string,
    failureCode: Option<string>,
    failureMessage: Option<string>,
    confirmedAt: Option<Time>,
    canceledAt: Option<Time>)

  datatype Refund = Refund(
    paymentId: nat,
    externalId: string,
    amount: int,
    reason: Option<string>,
    status: RefundStatus,
    idempotencyKey: string)

  datatype EventKind =
    | PaymentSucceeded | PaymentFailed | PaymentCanceled | PaymentProcessing | PaymentRequiresAction
    | ChargeRefunded | DisputeCreated
    | Unhandled(name: string)

  // A row of webhook_events; the table is keyed by the UNIQUE event id.
  datatype EventRow = EventRow(
    kind: EventKind,
    processed: bool,
    processedAt: Option<Time>,
    processingError: Option<string>,
    createdAt: Time)

  datatype Action =
    | LogPaymentCreated(amount: int, currency: string)
    | LogPaymentConfirmed(status: Status)
    | LogPaymentCanceled(reason: Option<string>)
    | LogRefundCreated(paymentId: nat, amount: int, reason: Option<string>)
    | LogConfirmedViaWebhook
    | LogFailedViaWebhook(code: Option<string>)
    | LogCanceledViaWebhook
    | LogRefundCompletedViaWebhook(refundedAmount: int)
    | LogDisputed

  datatype AuditEntry = AuditEntry(timestamp: Time, action: Action, resourceId: nat)

  datatype Db = Db(
    payments: seq<Payment>,
    refunds: seq<Refund>,
    events: map<string, EventRow>,
    audit: seq<AuditEntry>)

  // ---------------------------------------------------------------------------------------
  // Looking a row up by a column: scalar_one_or_none
  // ---------------------------------------------------------------------------------------

  datatype Lookup = Missing | One(row: nat) | Many

  /** The rows whose column holds `x`: none, exactly one, or more than one (which raises). */
  function Find(column: seq<string>, x: string): (r: Lookup)
    ensures r.Missing? <==> x !in column
    ensures r.One? ==> r.row < |column| && column[r.row] == x
    ensures r.One? ==> forall i | 0 <= i < |column| && column[i] == x :: i == r.row
    ensures r.Many? ==> exists i, j | 0 <= i < j < |column| :: column[i] == x && column[j] == x
  {
    if column == [] then Missing
    else
      var last := |column| - 1;
      var rest := Find(column[..last], x);
      assert column == column[..last] + [column[last]];
      if column[last] != x then rest
      else if rest.Missing? then One(last)
      else
        assert exists i | 0 <= i < last :: column[i] == x;
        Many
  }

  /** A null or empty reference finds nothing. */
  function FindReference(column: seq<string>, reference: Option<string>): Lookup {
    if reference.None? || reference.value == "" then Missing else Find(column, reference.value)
  }

  function PaymentIds(payments: seq<Payment>): (r: seq<string>)
    ensures |r| == |payments| && forall i | 0 <= i < |r| :: r[i] == payments[i].externalId
  {
    seq(|payments|, i requires 0 <= i < |payments| => payments[i].externalId)
  }

  function PaymentKeys(payments: seq<Payment>): (r: seq<string>)
    ensures |r| == |payments| && forall i | 0 <= i < |r| :: r[i] == payments[i].idempotencyKey
  {
    seq(|payments|, i requires 0 <= i < |payments| => payments[i].idempotencyKey)
  }

  function RefundIds(refunds: seq<Refund>): (r: seq<string>)
    ensures |r| == |refunds| && forall i | 0 <= i < |r| :: r[i] == refunds[i].externalId
  {
    seq(|refunds|, i requires 0 <= i < |refunds| => refunds[i].externalId)
  }

  function RefundKeys(refunds: seq<Refund>): (r: seq<string>)
    ensures |r| == |refunds| && forall i | 0 <= i < |r| :: r[i] == refunds[i].idempotencyKey
  {
    seq(|refunds|, i requires 0 <= i < |refunds| => refunds[i].idempotencyKey)
  }

  // ---------------------------------------------------------------------------------------
  // Refund arithmetic
  // ---------------------------------------------------------------------------------------

  /** The total amount of the refund rows in `rows`. */
  function Sum(refunds: seq<Refund>, rows: set<nat>): int {
    if refunds == [] then 0
    else
      var last := |refunds| - 1;
      Sum(refunds[..last], rows) + if last in rows then refunds[last].amount else 0
  }

  function RowsOf(refunds: seq<Refund>, pid: nat): set<nat> {
    set i: nat | i < |refunds| && refunds[i].paymentId == pid
  }

  function SettledRowsOf(refunds: seq<Refund>, pid: nat): set<nat> {
    set i: nat | i < |refunds| && refunds[i].paymentId == pid && refunds[i].status == RefundSucceeded
  }

  /** What compute_refunded_amount returns: only succeeded refunds count. */
  function RefundedAmount(refunds: seq<Refund>, pid: nat): int {
    Sum(refunds, SettledRowsOf(refunds, pid))
  }

  /** The total of every refund recorded for the payment, whatever its status. */
  function RecordedAmount(refunds: seq<Refund>, pid: nat): int {
    Sum(refunds, RowsOf(refunds, pid))
  }

  /** The table with one refund row marked succeeded. */
  function Settle(refunds: seq<Refund>, row: Option<nat>): (r: seq<Refund>)
    ensures |r| == |refunds|
    ensures forall i | 0 <= i < |r| :: r[i].amount == refunds[i].amount && r[i].paymentId == refunds[i].paymentId
  {
    if row.Some? && row.value < |refunds| then
      refunds[row.value := refunds[row.value].(status := RefundSucceeded)]
    else
      refunds
  }

  /** A table that keeps every row and amount, picks no fewer rows and has no negative amount sums to no less. */
  lemma {:induction false} SumGrows(before: seq<Refund>, rows: set<nat>, after: seq<Refund>, rows': set<nat>)
    requires |before| <= |after|
    requires forall i | 0 <= i < |before| :: before[i].amount == after[i].amount
    requires forall i | 0 <= i < |after| :: after[i].amount >= 0
    requires forall i: nat | i < |before| && i in rows :: i in rows'
    ensures Sum(before, rows) <= Sum(after, rows')
  {
    if |before| < |after| {
      SumGrows(before, rows, after[..|after| - 1], rows');
    } else if before != [] {
      SumGrows(before[..|before| - 1], rows, after[..|after| - 1], rows');
    }
  }

  /** Only the picked rows matter, and only their amounts. */
  lemma {:induction false} SumDependsOnRows(a: seq<Refund>, rows: set<nat>, b: seq<Refund>, rows': set<nat>)
    requires |a| <= |b|
    requires forall i | 0 <= i < |a| :: a[i].amount == b[i].amount
    requires forall i: nat | i < |a| :: i in rows <==> i in rows'
    requires forall i: nat | |a| <= i < |b| :: i !in rows'
    ensures Sum(a, rows) == Sum(b, rows')
  {
    if |a| < |b| {
      SumDependsOnRows(a, rows, b[..|b| - 1], rows');
    } else if a != [] {
      SumDependsOnRows(a[..|a| - 1], rows, b[..|b| - 1], rows');
    }
  }

  lemma {:induction false} SumOfOne(refunds: seq<Refund>, row: nat)
    requires row < |refunds|
    ensures Sum(refunds, {row}) == refunds[row].amount
  {
    if row == |refunds| - 1 {
      SumDependsOnRows([], {}, refunds[..row], {row});
    } else {
      SumOfOne(refunds[..|refunds| - 1], row);
    }
  }

  lemma {:induction false} SumSplits(refunds: seq<Refund>, a: set<nat>, b: set<nat>)
    requires a !! b
    ensures Sum(refunds, a + b) == Sum(refunds, a) + Sum(refunds, b)
  {
    if refunds != [] {
      SumSplits(refunds[..|refunds| - 1], a, b);
    }
  }

  /** The sum that is subtracted, refund by refund. */
  lemma {:induction false} RefundedSums(refunds: seq<Refund>, refund: Refund, pid: nat)
    ensures RefundedAmount([], pid) == 0
    ensures RefundedAmount(refunds + [refund], pid)
         == RefundedAmount(refunds, pid) + if refund.paymentId == pid && refund.status == RefundSucceeded then refund.amount else 0
  {
    var after := refunds + [refund];
    assert after[..|refunds|] == refunds;
    SumDependsOnRows(refunds, SettledRowsOf(refunds, pid), refunds, SettledRowsOf(after, pid));
  }

  /** At most `k` picked rows, each at most `bound`, sum to at most `k * bound`. */
  lemma {:induction false} SumAtMost(refunds: seq<Refund>, rows: set<nat>, k: nat, bound: int)
    requires forall i | i in rows :: i < |refunds|
    requires |rows| <= k
    requires 0 <= bound
    requires forall i | i in rows :: refunds[i].amount <= bound
    ensures Sum(refunds, rows) <= k * bound
  {
    if refunds != [] {
      var last := |refunds| - 1;
      var front := refunds[..last];
      if last in rows {
        SumAtMost(front, rows - {last}, k - 1, bound);
        SumDependsOnRows(front, rows - {last}, front, rows);
        assert k * bound == (k - 1) * bound + bound;
      } else {
        SumAtMost(front, rows, k, bound);
      }
    }
  }
}
