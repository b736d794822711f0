# Payment scheduler, modelled in Dafny

This project models the payment scheduler, a pure calculation written in Go. It
turns a set of payment terms into an ordered list of dated, currency-tagged
charges, or rejects the terms with a validation error. The terms are:

- a term type: NET or installments;
- a total amount in cents;
- a fee percentage;
- a duration in days;
- a start date;
- a currency.

The model follows the source's five parts:

- `calendar.dfy` (module `Calendar`): dates are day numbers counted from
  1970-01-01, which was a Thursday. The module holds the weekday of a date and
  the weekend deferral (`deferDateToWeekDay`).
- `payment_terms.dfy` (module `PaymentTerms`): the constants `NumInstallments`,
  `TermTypeNet`, `TermTypeInstallments` and `CurrencyUSD`. It also holds the
  request and payment records, the six validation errors with their exact
  messages, and `Validate`.
- `amounts.dfy` (module `Amounts`): the installment split, using Go's
  truncating `/` and `%`. It also holds the fee, which surcharges an amount by
  a percentage and rounds up.
- `scheduler.dfy` (module `PaymentScheduler`): `GetPaymentSchedule`. It builds
  N−1 evenly spaced installment charges and one final charge. The final charge
  is anchored at start + duration and carries the fee-adjusted remainder.
- `scheduler_examples.dfy` (module `SchedulerExamples`): the worked schedules
  of the Go test suite, stated as lemmas.

The Go function returns two values: a slice and an error. The model returns
`Schedule(payments, err)`, so "an error comes with no payments" is a proved
property, not something the types force.

`TermType` is a string (payment_scheduler.go:14), and `Validate` accepts any
non-empty one. Any term type other than `"installments"` is scheduled as NET
(`UnrecognisedTermsActAsNet`).

## Model

| member | source | states |
|---|---|---|
| `Calendar.WeekdaySuccession` | payment_scheduler.go:120 | The weekday of a date, as `Weekday()` reads it: day 0 (1970-01-01) is a Thursday, each day falls on the weekday after the previous day's, and the cycle repeats every seven days. |
| `Calendar.DeferDateToWeekDay` | payment_scheduler.go:119-127 | The result is at most two days after the date and is never a Saturday or Sunday. It is the first business day on or after the date: every day it skips is a weekend day. |
| `Calendar.DeferKeepsBusinessDays` | payment_scheduler.go:119-127 | A date is left unchanged exactly when it is a weekday. So deferring twice gives the same date as deferring once. |
| `Calendar.WeekendLandsOnMonday` | payment_scheduler.go:120-125 | A Saturday moves forward two days and a Sunday one day. Both land on a Monday. |
| `Calendar.DeferMonotonic` | payment_scheduler.go:119-127 | Deferral never reverses the order of two dates. |
| `PaymentTerms.Validate` | payment_scheduler.go:37-57 | Validation passes exactly when all six conditions hold. Each error is returned exactly when every earlier check passes and its own check fails. The installment-minimum error carries the request's currency. |
| `PaymentTerms.FirstViolation` | payment_scheduler.go:37-57 | For any ordered list of checks: the result is a pass exactly when every check holds. Otherwise it is the error of a failing check that has no failing check before it. |
| `PaymentTerms.ValidateReportsFirstViolation` | payment_scheduler.go:37-57 | Validation reports the error of the earliest failing check, in the order: term type, amount, installment minimum, fee range, duration, currency. |
| `PaymentTerms.ErrorMessage` | payment_scheduler.go:37-57 | The text each validation error carries; the five fixed ones are those of lines 39, 42, 48, 51 and 54. Every text is non-empty, and the installment-minimum text ends with the request's currency. |
| `PaymentTerms.InstallmentMinimumMessage` | payment_scheduler.go:44-45 | The installment-minimum message is "minimum amount for installments is 3 " followed by the currency. |
| `Amounts.TruncDivMod` | payment_scheduler.go:130-131 | Go's integer `/` and `%`: quotient × divisor + remainder gives back the dividend. The remainder is smaller than the divisor and has the sign of the dividend. |
| `Amounts.CalculateInstallmentAmount` | payment_scheduler.go:129-133 | The split conserves the total: installment × 3 + remainder = total. For a non-negative total the remainder is in [0, 3). A total of at least 3 gives an installment of at least 1. |
| `Amounts.SplitIsUnique` | payment_scheduler.go:129-133 | For a non-negative total, any quotient and remainder that meet the split's contract are the split. They equal floor division and modulo by 3. |
| `Amounts.ApplyVariableFee` | payment_scheduler.go:114-117 | The result is the ceiling of amount × (100 + fee) / 100: the least whole amount not below the surcharged amount. |
| `Amounts.FeeNeverLowers` | payment_scheduler.go:114-117 | With a non-negative amount and fee, the fee never lowers the amount. It raises it by less than the fee's exact share plus one unit. |
| `Amounts.FeeIdentities` | payment_scheduler.go:114-117 | A fee of 0 leaves any amount unchanged. An amount of 0 stays 0 under any fee, so a NET schedule's remainder adds nothing. |
| `Amounts.FeeMonotonic` | payment_scheduler.go:114-117 | A larger amount is never charged less after the fee. |
| `Amounts.SplitFeeBounds` | payment_scheduler.go:79-85 | The fee is rounded separately on the installment and on the remainder. Three installments plus the remainder then come to at least the fee on the whole total, and at most 3 units more. |
| `PaymentScheduler.InstallmentRun` | payment_scheduler.go:89-101 | The installment loop produces exactly `count` payments. Payment i is dated defer(start + i × increment) and carries the given amount and currency. |
| `PaymentScheduler.TimeIncrement` | payment_scheduler.go:90 | The gap between installment dates is the duration divided by 2, truncated toward zero: for a non-negative duration, 2 × gap ≤ duration < 2 × gap + 2. |
| `PaymentScheduler.GetPaymentSchedule` | payment_scheduler.go:68-111 | The call fails exactly when the request is invalid, and then returns the validation error and no payments. Installments give 3 payments and any other term type gives 1, all in the request's currency. Payments 0 and 1 are dated defer(start + i × (duration/2)) and carry fee(total/3). The last payment is dated defer(start + duration) and carries fee(total/3) + fee(total mod 3); for NET it carries fee(total). |
| `PaymentScheduler.ScheduleIsChronological` | payment_scheduler.go:89-109 | Payment dates never decrease along the list, so the next payment due is the next one in the list. |
| `PaymentScheduler.PaymentDatesInRange` | payment_scheduler.go:89-109 | Every payment date is a business day. It is no earlier than the start and at most two days after start + duration. |
| `PaymentScheduler.TotalCharged` | payment_scheduler.go:76-109 | For a valid request every charge is positive. NET charges exactly fee(total) in all. Installments charge between fee(total) and fee(total) + 3 in all. |
| `PaymentScheduler.UnrecognisedTermsActAsNet` | payment_scheduler.go:74-81 | Any non-empty term type other than "installments" gives the same schedule as "net". |
| `PaymentScheduler.InstallmentMinimum` | payment_scheduler.go:37-72 | An installment request for 1 or 2 cents gets no payments, whatever its other fields. Its error reads "minimum amount for installments is 3 <currency>". |
| `SchedulerExamples.TestDates` | payment_scheduler_test.go:10-16 | The day numbers used for the test dates are those calendar dates, and fall on the expected weekdays. |
| `SchedulerExamples.InvalidInstallmentAmount` | payment_scheduler_test.go:25-37 | Installments of 2 USD are rejected with "minimum amount for installments is 3 USD" and no payments. |
| `SchedulerExamples.NetSchedule` | payment_scheduler_test.go:38-55 | NET: 3000 at 5% over 60 days from 2022-01-10 gives one payment of 3150 on 2022-03-11. |
| `SchedulerExamples.InstallmentSchedule` | payment_scheduler_test.go:56-83 | Installments of 3000 give 1050 on 2022-01-10, 2022-02-09 and 2022-03-11. |
| `SchedulerExamples.InstallmentScheduleWithRemainder` | payment_scheduler_test.go:84-111 | Installments of 3001 give 1050, 1050 and 1052 on the same dates. |
| `SchedulerExamples.NetScheduleDeferredPastWeekend` | payment_scheduler_test.go:112-129 | NET over 45 days from 2022-01-12 ends on Saturday 2022-02-26. It is charged 3150 on Monday 2022-02-28. |

## Left out

- Amounts.ApplyVariableFee: computed as the exact integer ceiling of amount × (100 + fee) / 100, while the Go code computes it in `float64` with `math.Ceil`. While amount × (100 + fee) stays well below 2^52, the two can differ by one unit, when the floating-point product lands just above a whole number that the exact product equals. Above 2^53, `float64` cannot represent the amount itself, and the gap can be many units: for amount 2^60 + 100 with fee 0, Go returns 2^60. The fee lemmas (`FeeIdentities`, `FeeNeverLowers`, `FeeMonotonic`, `SplitFeeBounds`) are about the exact ceiling, not about float64 rounding.
- Integer width: amounts, fees and durations are unbounded integers. The wrap-around of Go's `int64`, in amounts and in `time.Duration` nanosecond counts for very long durations, is not modelled.
- `time.Time`: dates are whole day numbers in UTC. Time zones, daylight saving and the time of day carried by a `time.Time` are not modelled. Adding `24 * time.Hour * n` is adding `n` days.
- Error values: an error is a `ValidationError` datatype whose text is `ErrorMessage`. Go's `errors`/`fmt` machinery is not modelled. The only formatting modelled is `%v` of `NumInstallments`, by `DecimalString`.
- Nil versus empty: on a validation error Go returns a nil slice. The model returns an empty sequence.
- JSON struct tags on `ScheduledPayment` and the empty `PaymentScheduler` receiver struct carry no behaviour and are omitted.
- Currency: an opaque string. Only emptiness is checked and no conversion is done, as in the source.
