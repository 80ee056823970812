// The order document shared by every handler, and the refund arithmetic
// frozen into it at creation time.  Money is in integer cents.

module OrderModel {
  import opened Options

  datatype OrderStatus =
    | Pending | Processing | Completed | Canceled | Partial | Failed | ManualReview

  const MAX_RETRY_COUNT: nat := 120

  // What an internal status can be derived from a provider's vocabulary.
  datatype Verdict = Delivered | InFlight | PartlyDelivered | Cancelled | Rejected

  // A persisted provider status, up to what the engine can tell apart: null,
  // the literal PLACEMENT_UNCERTAIN written by the dispatch claim, or any other
  // string together with its mapping.
  datatype ProviderStatus = NoStatus | Uncertain | Reported(verdict: Verdict)

  function VerdictOf(ps: ProviderStatus): Verdict {
    if ps.Reported? then ps.verdict else InFlight
  }

  predicate IsTerminal(ps: ProviderStatus) { VerdictOf(ps) != InFlight }

  predicate RequiresRefund(ps: ProviderStatus) {
    VerdictOf(ps) in {PartlyDelivered, Cancelled, Rejected}
  }

  // walletDeducted, creditUsedAmount and chargedAmount of an order, in cents.
  datatype Charge = Charge(wallet: nat, credit: nat, charged: nat)

  datatype OrderDoc = OrderDoc(
    status: OrderStatus,
    providerOrderId: Option<string>,
    providerStatus: ProviderStatus,
    retryCount: nat,
    refunded: bool,
    refundedAt: Option<nat>,
    remains: nat,
    quantity: nat,
    charge: Charge)

  // -------------------------------------------------------------------------
  // Full refunds
  // -------------------------------------------------------------------------

  // An order written before walletDeducted covered the whole charge: the two
  // portions add up to the charge to within less than one cent.
  predicate IsLegacySplit(c: Charge) {
    c.wallet > 0 && c.credit > 0 && c.charged > 0 && c.wallet + c.credit == c.charged
  }

  // The total computed by both refundFailedOrder and markOrderAsFailed.
  function FullRefund(c: Charge): nat {
    if c.wallet > 0 then
      if IsLegacySplit(c) then c.wallet + c.credit else c.wallet
    else if c.credit > 0 then c.credit
    else c.charged
  }

  // The three shapes of charge the order collection contains.
  predicate NewStyle(c: Charge) { c.wallet == c.charged && c.credit <= c.charged }
  predicate ChargedOnly(c: Charge) { c.wallet == 0 && c.credit == 0 }
  predicate WellFormedCharge(c: Charge) { NewStyle(c) || IsLegacySplit(c) || ChargedOnly(c) }

  // -------------------------------------------------------------------------
  // processOrderRefund: full or proportional, floored to whole currency units
  // -------------------------------------------------------------------------

  // Number(order.chargedAmount || order.walletDeducted || 0)
  function ChargedBasis(c: Charge): nat { if c.charged > 0 then c.charged else c.wallet }

  predicate IsPartialDelivery(remains: nat, quantity: nat) { 0 < remains < quantity }

  // Math.floor of a quotient of non-negative numbers.
  function FloorDiv(a: nat, b: nat): (q: nat)
    requires b > 0
    ensures q * b <= a < q * b + b
  {
    a / b
  }

  function ShareRefund(c: Charge, remains: nat, quantity: nat): nat {
    if IsPartialDelivery(remains, quantity)
    then 100 * FloorDiv(remains * ChargedBasis(c), 100 * quantity)
    else ChargedBasis(c)
  }
}
