/** The worked schedules of the scheduler's test suite, stated as lemmas over
    the model, with calendar dates converted to day numbers. */
module SchedulerExamples {
  import opened Calendar
  import opened PaymentTerms
  import opened PaymentScheduler

  /** The day number of the proleptic Gregorian date y-m-d (months 1..12),
      counting 1970-01-01 as day 0; years are grouped into 400-year eras that
      start on March 1st. */
  function CivilDay(y: int, m: int, d: int): Date
    requires 1 <= m <= 12
  {
    var y' := if m <= 2 then y - 1 else y;
    var era := y' / 400;
    var yearOfEra := y' - era * 400;
    var dayOfYear := (153 * (if m > 2 then m - 3 else m + 9) + 2) / 5 + d - 1;
    var dayOfEra := yearOfEra * 365 + yearOfEra / 4 - yearOfEra / 100 + dayOfYear;
    era * 146097 + dayOfEra - 719468
  }

  /** The dates of the test suite, as day numbers. */
  const Jan10: Date := 19002  // 2022-01-10
  const Jan12: Date := 19004  // 2022-01-12
  const Feb9: Date := 19032   // 2022-02-09
  const Feb26: Date := 19049  // 2022-02-26
  const Feb28: Date := 19051  // 2022-02-28
  const Mar11: Date := 19062  // 2022-03-11

  /** The day numbers above are the calendar dates they are named after, and
      fall on the weekdays that calendar gives them. */
  lemma TestDates()
    ensures CivilDay(1970, 1, 1) == 0 && WeekdayOf(0) == Thursday
    ensures CivilDay(2022, 1, 10) == Jan10 && WeekdayOf(Jan10) == Monday
    ensures CivilDay(2022, 1, 12) == Jan12 && WeekdayOf(Jan12) == Wednesday
    ensures CivilDay(2022, 2, 9) == Feb9 && WeekdayOf(Feb9) == Wednesday
    ensures CivilDay(2022, 2, 26) == Feb26 && WeekdayOf(Feb26) == Saturday
    ensures CivilDay(2022, 2, 28) == Feb28 && WeekdayOf(Feb28) == Monday
    ensures CivilDay(2022, 3, 11) == Mar11 && WeekdayOf(Mar11) == Friday
  {
    assert 2022 / 400 == 5;
    assert (153 * 0 + 2) / 5 == 0;
    assert 22 / 4 == 5 && 22 / 100 == 0;
  }

  function Request(terms: TermType, amount: int, duration: int, start: Date): Params {
    Params(terms, amount, 5, duration, start, CurrencyUSD)
  }

  /** Two units on installments: rejected with the minimum-amount message. */
  lemma InvalidInstallmentAmount()
    ensures var s := GetPaymentSchedule(Request(TermTypeInstallments, 2, 60, Jan10));
      s.payments == [] && s.err.Some?
      && ErrorMessage(s.err.value) == "minimum amount for installments is 3 USD"
  {
    InstallmentMinimum(Request(TermTypeInstallments, 2, 60, Jan10));
  }

  /** NET, 3000 at 5% over 60 days from 2022-01-10: one charge of 3150 on 2022-03-11. */
  lemma NetSchedule()
    ensures GetPaymentSchedule(Request(TermTypeNet, 3000, 60, Jan10))
      == Schedule([ScheduledPayment(Mar11, 3150, CurrencyUSD)], None)
  {
    var s := GetPaymentSchedule(Request(TermTypeNet, 3000, 60, Jan10));
    assert s.payments[0] == ScheduledPayment(Mar11, 3150, CurrencyUSD);
  }

  /** Installments of 3000 at 5% over 60 days from 2022-01-10: 1050 on
      2022-01-10, 2022-02-09 and 2022-03-11. */
  lemma InstallmentSchedule()
    ensures GetPaymentSchedule(Request(TermTypeInstallments, 3000, 60, Jan10))
      == Schedule([ ScheduledPayment(Jan10, 1050, CurrencyUSD),
                    ScheduledPayment(Feb9, 1050, CurrencyUSD),
                    ScheduledPayment(Mar11, 1050, CurrencyUSD) ], None)
  {
    var s := GetPaymentSchedule(Request(TermTypeInstallments, 3000, 60, Jan10));
    assert s.payments[0] == ScheduledPayment(Jan10, 1050, CurrencyUSD);
    assert s.payments[1] == ScheduledPayment(Feb9, 1050, CurrencyUSD);
    assert s.payments[2] == ScheduledPayment(Mar11, 1050, CurrencyUSD);
  }

  /** 3001 instead: the remainder of one unit, surcharged and rounded up to 2,
      is folded into the last charge. */
  lemma InstallmentScheduleWithRemainder()
    ensures GetPaymentSchedule(Request(TermTypeInstallments, 3001, 60, Jan10))
      == Schedule([ ScheduledPayment(Jan10, 1050, CurrencyUSD),
                    ScheduledPayment(Feb9, 1050, CurrencyUSD),
                    ScheduledPayment(Mar11, 1052, CurrencyUSD) ], None)
  {
    var s := GetPaymentSchedule(Request(TermTypeInstallments, 3001, 60, Jan10));
    assert s.payments[0] == ScheduledPayment(Jan10, 1050, CurrencyUSD);
    assert s.payments[1] == ScheduledPayment(Feb9, 1050, CurrencyUSD);
    assert s.payments[2] == ScheduledPayment(Mar11, 1052, CurrencyUSD);
  }

  /** NET over 45 days from 2022-01-12 ends on Saturday 2022-02-26 and is
      charged on Monday 2022-02-28. */
  lemma NetScheduleDeferredPastWeekend()
    ensures GetPaymentSchedule(Request(TermTypeNet, 3000, 45, Jan12))
      == Schedule([ScheduledPayment(Feb28, 3150, CurrencyUSD)], None)
  {
    var s := GetPaymentSchedule(Request(TermTypeNet, 3000, 45, Jan12));
    assert Jan12 + 45 == Feb26;
    assert s.payments[0] == ScheduledPayment(Feb28, 3150, CurrencyUSD);
  }
}
