// What the two refund formulas pay, relative to what the customer was charged.

module RefundAmounts {
  import opened OrderModel

  // A full refund returns exactly the charge for every shape of charge that
  // order creation, past or present, has written.
  lemma FullRefundIsTheCharge(c: Charge)
    requires WellFormedCharge(c)
    ensures FullRefund(c) == c.charged
    ensures FullRefund(c) == ChargedBasis(c)
  {
    if NewStyle(c) && c.wallet == 0 { assert c.credit == 0; }
  }

  lemma {:induction false} ProductSign(x: int, q: nat)
    requires q > 0
    ensures x >= 0 <==> q * x >= 0
  {
    if q == 1 {
    } else {
      ProductSign(x, q - 1);
      assert q * x == (q - 1) * x + x;
    }
  }

  lemma CancelFactor(a: int, b: int, q: nat)
    requires q > 0
    ensures a <= b <==> q * a <= q * b
  {
    ProductSign(b - a, q);
    assert q * (b - a) == q * b - q * a;
  }

  // The proportional refund never exceeds the exact share of the charge, and
  // falls short of it by less than one currency unit.  Written without
  // division: quantity * refund against remains * charged.
  lemma ShareIsFloored(c: Charge, remains: nat, quantity: nat)
    requires IsPartialDelivery(remains, quantity)
    ensures quantity * ShareRefund(c, remains, quantity) <= remains * ChargedBasis(c)
    ensures remains * ChargedBasis(c) < quantity * (ShareRefund(c, remains, quantity) + 100)
    ensures ShareRefund(c, remains, quantity) % 100 == 0
  {
    var whole := FloorDiv(remains * ChargedBasis(c), 100 * quantity);
    assert whole * (100 * quantity) == quantity * (100 * whole);
    assert quantity * (100 * whole) + 100 * quantity == quantity * (100 * whole + 100);
  }

  lemma ShareIsWithinCharge(c: Charge, remains: nat, quantity: nat)
    ensures 0 <= ShareRefund(c, remains, quantity) <= ChargedBasis(c)
  {
    if IsPartialDelivery(remains, quantity) {
      var charged := ChargedBasis(c);
      if charged == 0 { return; }
      ShareIsFloored(c, remains, quantity);
      ProductSign(quantity - remains, charged);
      assert charged * (quantity - remains) == quantity * charged - remains * charged;
      CancelFactor(ShareRefund(c, remains, quantity), charged, quantity);
    }
  }

  // Fewer units delivered never means a smaller refund.
  lemma ShareIsMonotone(c: Charge, fewer: nat, more: nat, quantity: nat)
    requires 0 < fewer <= more <= quantity
    ensures ShareRefund(c, fewer, quantity) <= ShareRefund(c, more, quantity)
  {
    if more == quantity {
      ShareIsWithinCharge(c, fewer, quantity);
    } else {
      var d := 100 * quantity;
      var low := FloorDiv(fewer * ChargedBasis(c), d);
      var high := FloorDiv(more * ChargedBasis(c), d);
      assert fewer * ChargedBasis(c) <= more * ChargedBasis(c);
      assert d * low < d * (high + 1) == d * high + d;
      CancelFactor(high + 1, low, d);
    }
  }
}
