/** The arithmetic of the scheduler: splitting a total into installments with
    Go's truncating integer division, and surcharging an amount by a fee
    percentage, rounding up. Amounts are unbounded integers. */
module Amounts {
  import opened PaymentTerms

  /** Go's `a / b` and `a % b` for a positive divisor: the quotient rounds
      toward zero, so the remainder takes the sign of `a`. */
  function TruncDivMod(a: int, b: int): (r: (int, int))
    requires b > 0
    ensures r.0 * b + r.1 == a
    ensures a >= 0 ==> 0 <= r.1 < b
    ensures a < 0 ==> -b < r.1 <= 0
  {
    if a >= 0 then (a / b, a % b) else (-((-a) / b), -((-a) % b))
  }

  /** The per-installment amount and the remainder left over when `total` is
      split into `NumInstallments` equal whole parts. */
  function CalculateInstallmentAmount(total: int): (r: (int, int))
    ensures r.0 * NumInstallments + r.1 == total
    ensures total >= 0 ==> 0 <= r.1 < NumInstallments
    ensures total < 0 ==> -(NumInstallments as int) < r.1 <= 0
    ensures total >= NumInstallments ==> r.0 >= 1
  {
    TruncDivMod(total, NumInstallments)
  }

  /** The two conditions in the contract above pin the split down: it is the
      Euclidean quotient and remainder for a non-negative total. */
  lemma SplitIsUnique(total: int, q: int, rem: int)
    requires total >= 0
    requires q * NumInstallments + rem == total && 0 <= rem < NumInstallments
    ensures CalculateInstallmentAmount(total) == (q, rem)
    ensures (q, rem) == (total / NumInstallments, total % NumInstallments)
  {
  }

  /** `amount` surcharged by `feeInPercent` percent, rounded up to a whole unit:
      the least integer not below amount * (100 + fee) / 100. */
  function ApplyVariableFee(amount: int, feeInPercent: int): (r: int)
    ensures amount * (100 + feeInPercent) <= 100 * r < amount * (100 + feeInPercent) + 100
  {
    (amount * (100 + feeInPercent) + 99) / 100
  }

  /** A non-negative fee never lowers a non-negative amount, and the
      surcharge is at most the fee's share of the amount plus one unit. */
  lemma FeeNeverLowers(amount: int, feeInPercent: int)
    requires amount >= 0 && feeInPercent >= 0
    ensures amount <= ApplyVariableFee(amount, feeInPercent)
    ensures 100 * ApplyVariableFee(amount, feeInPercent) < 100 * amount + amount * feeInPercent + 100
  {
    assert amount * (100 + feeInPercent) == 100 * amount + amount * feeInPercent;
    assert amount * feeInPercent >= 0;
  }

  /** A zero fee leaves every amount as it is, and a zero amount stays zero
      whatever the fee (so a NET schedule's remainder adds nothing). */
  lemma FeeIdentities(amount: int, feeInPercent: int)
    ensures ApplyVariableFee(amount, 0) == amount
    ensures ApplyVariableFee(0, feeInPercent) == 0
  {
  }

  /** A larger amount never costs less after the fee. */
  lemma FeeMonotonic(a1: int, a2: int, feeInPercent: int)
    requires a1 <= a2 && feeInPercent >= -100
    ensures ApplyVariableFee(a1, feeInPercent) <= ApplyVariableFee(a2, feeInPercent)
  {
    var f := 100 + feeInPercent;
    assert a1 * f <= a2 * f by {
      assert (a2 - a1) * f >= 0;
      assert (a2 - a1) * f == a2 * f - a1 * f;
    }
  }

  /** Rounding the installment part and the remainder separately, as the
      schedule does, collects at least the fee on the whole total and at most
      three units more (one for each of the four roundings, less the whole's own). */
  lemma SplitFeeBounds(total: int, feeInPercent: int)
    requires total >= 0 && feeInPercent >= 0
    ensures var (q, rem) := CalculateInstallmentAmount(total);
      var charged := NumInstallments * ApplyVariableFee(q, feeInPercent) + ApplyVariableFee(rem, feeInPercent);
      ApplyVariableFee(total, feeInPercent) <= charged <= ApplyVariableFee(total, feeInPercent) + NumInstallments
  {
    var (q, rem) := CalculateInstallmentAmount(total);
    var f := 100 + feeInPercent;
    Distribute(q, rem, f);
    CeilingsOfParts(total * f, q * f, rem * f,
      ApplyVariableFee(total, feeInPercent), ApplyVariableFee(q, feeInPercent),
      ApplyVariableFee(rem, feeInPercent));
  }

  /** Scaling a split total by `f` scales each part by `f`. */
  lemma Distribute(q: int, rem: int, f: int)
    ensures (q * NumInstallments + rem) * f == NumInstallments * (q * f) + rem * f
  {
  }

  /** The counting step of SplitFeeBounds, on the scaled amounts: `t`, `q`, `r`
      are 100 times the exact surcharged amounts and `ct`, `cq`, `cr` their ceilings. */
  lemma CeilingsOfParts(t: int, q: int, r: int, ct: int, cq: int, cr: int)
    requires t == NumInstallments * q + r
    requires t <= 100 * ct < t + 100
    requires q <= 100 * cq < q + 100
    requires r <= 100 * cr < r + 100
    ensures ct <= NumInstallments * cq + cr <= ct + NumInstallments
  {
  }
}
