/** Assembly of a payment schedule: validate, split, apply the fee, then emit
    the evenly spaced installment charges and one final charge anchored at the
    end of the duration, every date deferred off the weekend. */
module PaymentScheduler {
  import opened Calendar
  import opened PaymentTerms
  import opened Amounts

  datatype Option<T> = None | Some(value: T)

  /** The two results of a schedule request: the payments, and the validation
      error if there was one. */
  datatype Schedule = Schedule(payments: seq<ScheduledPayment>, err: Option<ValidationError>)

  /** Each payment is due no earlier than the one before it. */
  predicate Chronological(ps: seq<ScheduledPayment>) {
    forall i, j :: 0 <= i <= j < |ps| ==> ps[i].date <= ps[j].date
  }

  /** The sum of the amounts of `ps`. */
  function TotalAmount(ps: seq<ScheduledPayment>): int {
    if ps == [] then 0 else TotalAmount(ps[..|ps| - 1]) + ps[|ps| - 1].amountInCents
  }

  /** The installment loop: `count` charges of `amount`, the i-th dated `i * increment`
      days after `start` and deferred to a business day. */
  function InstallmentRun(start: Date, increment: int, count: nat, amount: int, currency: Currency)
    : (r: seq<ScheduledPayment>)
    ensures |r| == count
    ensures forall i :: 0 <= i < count ==>
      r[i] == ScheduledPayment(DeferDateToWeekDay(start + i * increment), amount, currency)
  {
    if count == 0 then []
    else
      InstallmentRun(start, increment, count - 1, amount, currency)
        + [ScheduledPayment(DeferDateToWeekDay(start + (count - 1) * increment), amount, currency)]
  }

  /** The number of days between consecutive installment charges: the duration
      split over the gaps between installments, truncated. */
  function TimeIncrement(duration: int): (r: int)
    ensures duration >= 0 ==>
      (NumInstallments - 1) * r <= duration < (NumInstallments - 1) * r + (NumInstallments - 1)
    ensures duration < 0 ==>
      (NumInstallments - 1) * r - (NumInstallments - 1) < duration <= (NumInstallments - 1) * r
  {
    TruncDivMod(duration, NumInstallments - 1).0
  }

  /** The schedule for a request, or its validation error and no payments. */
  function GetPaymentSchedule(p: Params): (s: Schedule)
    // a rejected request yields the first failing check's error and nothing else
    ensures s.err.Some? <==> !ValidParams(p)
    ensures s.err.Some? ==> s.payments == [] && Validate(p) == Fail(s.err.value)
    // the count: three charges for installments, one for any other term type
    ensures s.err.None? && p.terms == TermTypeInstallments ==> |s.payments| == NumInstallments
    ensures s.err.None? && p.terms != TermTypeInstallments ==> |s.payments| == 1
    ensures forall k :: 0 <= k < |s.payments| ==> s.payments[k].currency == p.currency
    // the final charge: anchored at start + duration, carrying the remainder
    ensures s.err.None? ==>
      (|s.payments| >= 1
       && s.payments[|s.payments| - 1].date == DeferDateToWeekDay(p.startDate + p.duration))
    ensures s.err.None? && p.terms == TermTypeInstallments ==>
      s.payments[|s.payments| - 1].amountInCents
        == ApplyVariableFee(p.amountInCents / NumInstallments, p.feePercentage)
         + ApplyVariableFee(p.amountInCents % NumInstallments, p.feePercentage)
    ensures s.err.None? && p.terms != TermTypeInstallments ==>
      s.payments[0].amountInCents == ApplyVariableFee(p.amountInCents, p.feePercentage)
    // the evenly spaced installment charges
    ensures s.err.None? && p.terms == TermTypeInstallments ==>
      forall i :: 0 <= i < NumInstallments - 1 ==>
        s.payments[i] == ScheduledPayment(
          DeferDateToWeekDay(p.startDate + i * (p.duration / (NumInstallments - 1))),
          ApplyVariableFee(p.amountInCents / NumInstallments, p.feePercentage),
          p.currency)
  {
    match Validate(p)
    case Fail(e) => Schedule([], Some(e))
    case Pass =>
      var requiresInstallments := p.terms == TermTypeInstallments;
      var (installment, remainder) :=
        if requiresInstallments then CalculateInstallmentAmount(p.amountInCents)
        else (p.amountInCents, 0);
      var installmentCharge := ApplyVariableFee(installment, p.feePercentage);
      var remainderCharge := ApplyVariableFee(remainder, p.feePercentage);
      var installments :=
        if requiresInstallments then
          InstallmentRun(p.startDate, TimeIncrement(p.duration), NumInstallments - 1,
                         installmentCharge, p.currency)
        else [];
      var endDate := p.startDate + p.duration;
      Schedule(installments + [ScheduledPayment(DeferDateToWeekDay(endDate),
                                                installmentCharge + remainderCharge, p.currency)],
               None)
  }

  /** The schedule is in date order, so the next payment due is always the
      next one in the list. */
  lemma ScheduleIsChronological(p: Params)
    ensures Chronological(GetPaymentSchedule(p).payments)
  {
    var s := GetPaymentSchedule(p);
    var ps := s.payments;
    if s.err.None? && p.terms == TermTypeInstallments {
      var inc := p.duration / (NumInstallments - 1);
      assert 0 <= inc <= p.duration;
      var d0, d1, d2 := p.startDate, p.startDate + inc, p.startDate + p.duration;
      assert ps[0].date == DeferDateToWeekDay(d0);
      assert ps[1].date == DeferDateToWeekDay(d1);
      assert ps[2].date == DeferDateToWeekDay(d2);
      DeferMonotonic(d0, d1);
      DeferMonotonic(d1, d2);
      ThreeInOrder(ps);
    }
  }

  /** Three payments whose consecutive dates are in order are in date order. */
  lemma ThreeInOrder(ps: seq<ScheduledPayment>)
    requires |ps| == 3 && ps[0].date <= ps[1].date <= ps[2].date
    ensures Chronological(ps)
  {
  }

  /** Every payment falls on a business day, no earlier than the start and at
      most two days after the end of the duration. */
  lemma PaymentDatesInRange(p: Params)
    ensures forall k :: 0 <= k < |GetPaymentSchedule(p).payments| ==>
      var d := GetPaymentSchedule(p).payments[k].date;
      p.startDate <= d <= p.startDate + p.duration + 2 && !IsWeekend(d)
  {
    var ps := GetPaymentSchedule(p).payments;
    if ValidParams(p) && p.terms == TermTypeInstallments {
      var inc := p.duration / (NumInstallments - 1);
      assert 0 <= inc <= p.duration;
      assert ps[0].date == DeferDateToWeekDay(p.startDate);
      assert ps[1].date == DeferDateToWeekDay(p.startDate + inc);
    }
  }

  /** What the payer is charged in total. On NET terms it is the fee on the
      whole amount; on installments, rounding the parts separately collects at
      least that and at most three units more. Every charge is positive. */
  lemma TotalCharged(p: Params)
    requires ValidParams(p)
    ensures var s := GetPaymentSchedule(p);
      && (p.terms != TermTypeInstallments ==>
            TotalAmount(s.payments) == ApplyVariableFee(p.amountInCents, p.feePercentage))
      && (p.terms == TermTypeInstallments ==>
            ApplyVariableFee(p.amountInCents, p.feePercentage) <= TotalAmount(s.payments)
              <= ApplyVariableFee(p.amountInCents, p.feePercentage) + NumInstallments)
      && forall k :: 0 <= k < |s.payments| ==> s.payments[k].amountInCents > 0
  {
    var s := GetPaymentSchedule(p);
    var ps := s.payments;
    var total, fee := p.amountInCents, p.feePercentage;
    if p.terms == TermTypeInstallments {
      var q, rem := total / NumInstallments, total % NumInstallments;
      SplitIsUnique(total, q, rem);
      SplitFeeBounds(total, fee);
      FeeNeverLowers(q, fee);
      FeeNeverLowers(rem, fee);
      assert TotalAmount(ps[..1]) == ps[0].amountInCents by {
        assert ps[..1][..0] == [];
      }
      assert TotalAmount(ps[..2]) == ps[0].amountInCents + ps[1].amountInCents by {
        assert ps[..2][..1] == ps[..1];
      }
      assert TotalAmount(ps) == ps[0].amountInCents + ps[1].amountInCents + ps[2].amountInCents;
    } else {
      FeeNeverLowers(total, fee);
    }
  }

  /** Any non-empty term type other than "installments" is scheduled exactly as
      NET terms are. */
  lemma UnrecognisedTermsActAsNet(p: Params)
    requires p.terms != "" && p.terms != TermTypeInstallments
    ensures GetPaymentSchedule(p) == GetPaymentSchedule(p.(terms := TermTypeNet))
  {
  }

  /** An installment request for less than three units is rejected, whatever
      its fee, duration and start, with the message naming the minimum and the
      currency, and no schedule. */
  lemma InstallmentMinimum(p: Params)
    requires p.terms == TermTypeInstallments && 0 < p.amountInCents < NumInstallments
    ensures GetPaymentSchedule(p).payments == []
    ensures GetPaymentSchedule(p).err == Some(InstallmentAmountTooSmall(p.currency))
    ensures ErrorMessage(GetPaymentSchedule(p).err.value)
      == "minimum amount for installments is 3 " + p.currency
  {
    InstallmentMinimumMessage(p.currency);
  }
}
