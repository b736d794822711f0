/** The inputs and outputs of the payment scheduler, and the validation of a
    request: six checks in a fixed order, the first failing one deciding the error. */
module PaymentTerms {
  import opened Calendar

  /** The fixed number of charges an installment plan is split into. */
  const NumInstallments: nat := 3

  /** Term types are plain strings; only these two are named, but validation
      accepts any non-empty one. */
  type TermType = string
  const TermTypeNet: TermType := "net"
  const TermTypeInstallments: TermType := "installments"

  /** Currencies are opaque strings; nothing but non-emptiness is checked. */
  type Currency = string
  const CurrencyUSD: Currency := "USD"

  /** A request for a payment schedule. Amounts are in the smallest currency
      unit (cents), the fee is a percentage, the duration is in days. */
  datatype Params = Params(
    terms: TermType,
    amountInCents: int,
    feePercentage: int,
    duration: int,
    startDate: Date,
    currency: Currency)

  /** One dated, currency-tagged charge of a schedule. */
  datatype ScheduledPayment = ScheduledPayment(date: Date, amountInCents: int, currency: Currency)

  /** The reasons a request is rejected, one per validation check. */
  datatype ValidationError =
    | MissingTermType
    | NonPositiveAmount
    | InstallmentAmountTooSmall(currency: Currency)
    | FeeOutOfRange
    | NonPositiveDuration
    | MissingCurrency

  /** The text of the error returned to the caller. Every text is non-empty,
      and the installment-minimum text ends with the request's currency. */
  function ErrorMessage(e: ValidationError): (m: string)
    ensures |m| > 0
    ensures e.InstallmentAmountTooSmall? ==>
      |m| > |e.currency| && m[|m| - |e.currency|..] == e.currency
  {
    match e
    case MissingTermType => "must specify a term type"
    case NonPositiveAmount => "amount to charge must be greater than 0"
    case InstallmentAmountTooSmall(c) =>
      var prefix := "minimum amount for installments is " + DecimalString(NumInstallments) + " ";
      assert |prefix| > 0;
      prefix + c
    case FeeOutOfRange => "fee (in percent) must be an amount between 0 and 100"
    case NonPositiveDuration => "duration in days must be greater than 0"
    case MissingCurrency => "currency must be specified"
  }

  /** The decimal digits of `n`, as `%v` prints an integer. */
  function DecimalString(n: nat): string {
    if n < 10 then [(48 + n) as char] else DecimalString(n / 10) + DecimalString(n % 10)
  }

  /** Validation either passes or fails with one error. */
  datatype Outcome = Pass | Fail(error: ValidationError)

  /** All six conditions a request must meet, stated independently of their order. */
  predicate ValidParams(p: Params) {
    && p.terms != ""
    && p.amountInCents > 0
    && (p.terms == TermTypeInstallments ==> p.amountInCents >= NumInstallments)
    && 0 <= p.feePercentage <= 100
    && p.duration > 0
    && p.currency != ""
  }

  /** Checks the term type, the amount, the installment minimum, the fee range,
      the duration and the currency, in that order; the first failure is reported. */
  function Validate(p: Params): (r: Outcome)
    ensures r.Pass? <==> ValidParams(p)
    ensures r == Fail(MissingTermType) <==> p.terms == ""
    ensures r == Fail(NonPositiveAmount) <==> p.terms != "" && p.amountInCents <= 0
    ensures r.Fail? && r.error.InstallmentAmountTooSmall? <==>
      p.terms == TermTypeInstallments && 0 < p.amountInCents < NumInstallments
    ensures r.Fail? && r.error.InstallmentAmountTooSmall? ==> r.error.currency == p.currency
    ensures r == Fail(FeeOutOfRange) <==>
      && p.terms != "" && p.amountInCents > 0
      && (p.terms == TermTypeInstallments ==> p.amountInCents >= NumInstallments)
      && !(0 <= p.feePercentage <= 100)
    ensures r == Fail(NonPositiveDuration) <==>
      && p.terms != "" && p.amountInCents > 0
      && (p.terms == TermTypeInstallments ==> p.amountInCents >= NumInstallments)
      && 0 <= p.feePercentage <= 100
      && p.duration <= 0
    ensures r == Fail(MissingCurrency) <==>
      && p.terms != "" && p.amountInCents > 0
      && (p.terms == TermTypeInstallments ==> p.amountInCents >= NumInstallments)
      && 0 <= p.feePercentage <= 100
      && p.duration > 0
      && p.currency == ""
  {
    if p.terms == "" then Fail(MissingTermType)
    else if p.amountInCents <= 0 then Fail(NonPositiveAmount)
    else if p.terms == TermTypeInstallments && p.amountInCents < NumInstallments then
      Fail(InstallmentAmountTooSmall(p.currency))
    else if p.feePercentage < 0 || p.feePercentage > 100 then Fail(FeeOutOfRange)
    else if p.duration <= 0 then Fail(NonPositiveDuration)
    else if p.currency == "" then Fail(MissingCurrency)
    else Pass
  }

  /** One validation check: whether it holds, and the error it reports if not. */
  datatype Rule = Rule(holds: bool, error: ValidationError)

  /** The six checks, in the order they are made. */
  function Rules(p: Params): seq<Rule> {
    [ Rule(p.terms != "", MissingTermType),
      Rule(p.amountInCents > 0, NonPositiveAmount),
      Rule(!(p.terms == TermTypeInstallments && p.amountInCents < NumInstallments),
           InstallmentAmountTooSmall(p.currency)),
      Rule(0 <= p.feePercentage <= 100, FeeOutOfRange),
      Rule(p.duration > 0, NonPositiveDuration),
      Rule(p.currency != "", MissingCurrency) ]
  }

  /** The error of the earliest rule that fails, or Pass when all hold. */
  function FirstViolation(rules: seq<Rule>): (r: Outcome)
    ensures r.Pass? <==> forall k :: 0 <= k < |rules| ==> rules[k].holds
    ensures r.Fail? ==>
      exists k :: 0 <= k < |rules| && !rules[k].holds && rules[k].error == r.error
                  && forall j :: 0 <= j < k ==> rules[j].holds
  {
    if rules == [] then Pass
    else if !rules[0].holds then Fail(rules[0].error)
    else
      var r := FirstViolation(rules[1..]);
      assert r.Fail? ==> exists k :: 1 <= k < |rules| && !rules[k].holds && rules[k].error == r.error
                                     && forall j :: 0 <= j < k ==> rules[j].holds by {
        if r.Fail? {
          var k' :| 0 <= k' < |rules[1..]| && !rules[1..][k'].holds && rules[1..][k'].error == r.error
                    && forall j :: 0 <= j < k' ==> rules[1..][j].holds;
          assert forall j :: 1 <= j < k' + 1 ==> rules[j].holds by {
            forall j | 1 <= j < k' + 1 ensures rules[j].holds {
              assert rules[j] == rules[1..][j - 1];
            }
          }
        }
      }
      r
  }

  /** First failure wins: validation reports exactly the error of the earliest
      failing check, and passes exactly when every check holds. */
  lemma ValidateReportsFirstViolation(p: Params)
    ensures Validate(p) == FirstViolation(Rules(p))
  {
    var rules := Rules(p);
    var r := FirstViolation(rules);
    if r.Fail? {
      var k :| 0 <= k < |rules| && !rules[k].holds && rules[k].error == r.error
               && forall j :: 0 <= j < k ==> rules[j].holds;
      match k
      case 0 =>
      case 1 => assert rules[0].holds;
      case 2 => assert rules[0].holds && rules[1].holds;
      case 3 => assert rules[0].holds && rules[1].holds && rules[2].holds;
      case 4 => assert rules[0].holds && rules[1].holds && rules[2].holds && rules[3].holds;
      case 5 =>
        assert rules[0].holds && rules[1].holds && rules[2].holds && rules[3].holds;
        assert rules[4].holds;
    } else {
      assert rules[0].holds && rules[1].holds && rules[2].holds;
      assert rules[3].holds && rules[4].holds && rules[5].holds;
    }
  }

  /** The installment-minimum message names the minimum and the request's currency. */
  lemma InstallmentMinimumMessage(c: Currency)
    ensures ErrorMessage(InstallmentAmountTooSmall(c)) == "minimum amount for installments is 3 " + c
  {
    assert DecimalString(NumInstallments) == "3";
  }
}
