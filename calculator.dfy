/** The solar savings calculator. Four form fields are read with
    `parseFloat(...) || default`, a negative electric bill or negative sun
    hours is refused, and the figures follow from a system price of 3000 per
    kW, a 30% federal tax credit, the state's incentive rate, twelve months
    of bills saved per year and a 180-month loan without interest. The
    figures are kept as exact reals; their display rounding is not part of
    this model. */
module Calculator {
  import opened Wrappers

  /** What `parseFloat` yields for a field: a number, or NaN (also for a
      missing field). */
  datatype Field = Number(value: real) | NotANumber

  const DefaultBill: real := 150.0
  const DefaultSunHours: real := 5.0
  const DefaultSystemSize: real := 7.0
  const DefaultIncentiveRate: real := 0.08

  const PricePerKw: real := 3000.0
  const FederalCreditRate: real := 0.30
  const LoanMonths: real := 180.0

  /** `x || fallback` for a parsed number: NaN and zero are both falsy, so
      they give the fallback; any other number is kept. The result is zero
      only when the fallback is. */
  function OrDefault(f: Field, fallback: real): (r: real)
    ensures f.Number? && f.value != 0.0 ==> r == f.value
    ensures f.NotANumber? || f.value == 0.0 ==> r == fallback
    ensures r == 0.0 ==> fallback == 0.0
  {
    match f
    case NotANumber => fallback
    case Number(x) => if x == 0.0 then fallback else x
  }

  datatype Figures = Figures(
    systemCost: real,
    federalTaxCredit: real,
    stateIncentiveAmount: real,
    netCost: real,
    annualSavings: real,
    paybackYears: real,
    lifetime25Savings: real,
    monthlyPayment: real)

  /** `calculateSavings`: `None` exactly when a negative bill or negative
      sun hours was entered (zero and unreadable input fall back to the
      defaults first, so they are never refused). Otherwise the credit and
      incentive are shares of the system cost and the net cost is what
      remains; the yearly savings are a year of bills; the payback period is
      the number of years of savings that pays the net cost; the 25-year
      savings are 25 years of savings less the net cost; 180 monthly
      payments pay the net cost. The sun hours only take part in the check. */
  function CalculateSavings(bill: Field, sunHours: Field, systemSize: Field, incentiveRate: Field)
    : (result: Option<Figures>)
    ensures result.None? <==>
      (bill.Number? && bill.value < 0.0) || (sunHours.Number? && sunHours.value < 0.0)
    ensures result.Some? ==>
      var f, size, rate := result.value, OrDefault(systemSize, DefaultSystemSize),
        OrDefault(incentiveRate, DefaultIncentiveRate);
      && f.systemCost == PricePerKw * size
      && f.federalTaxCredit == FederalCreditRate * f.systemCost
      && f.stateIncentiveAmount == rate * f.systemCost
      && f.netCost + f.federalTaxCredit + f.stateIncentiveAmount == f.systemCost
      && f.annualSavings == 12.0 * OrDefault(bill, DefaultBill) && f.annualSavings > 0.0
      && f.paybackYears * f.annualSavings == f.netCost
      && f.lifetime25Savings + f.netCost == 25.0 * f.annualSavings
      && f.monthlyPayment * LoanMonths == f.netCost
  {
    Savings(OrDefault(bill, DefaultBill), OrDefault(sunHours, DefaultSunHours),
      OrDefault(systemSize, DefaultSystemSize), OrDefault(incentiveRate, DefaultIncentiveRate))
  }

  /** The validation and the formulas, on the values after defaulting. */
  function Savings(electricBill: real, sunHours: real, systemSize: real, stateIncentive: real)
    : Option<Figures>
  {
    if electricBill <= 0.0 || sunHours <= 0.0 then None
    else
      var systemCost := systemSize * PricePerKw;
      var federalTaxCredit := systemCost * FederalCreditRate;
      var stateIncentiveAmount := systemCost * stateIncentive;
      var netCost := systemCost - federalTaxCredit - stateIncentiveAmount;
      var annualSavings := electricBill * 12.0;
      Some(Figures(systemCost, federalTaxCredit, stateIncentiveAmount, netCost, annualSavings,
        netCost / annualSavings, annualSavings * 25.0 - netCost, netCost / LoanMonths))
  }

  /** The calculator's preset values (150, 5, 7 kW, 8%) give a 21000 system,
      a 6300 credit, a 1680 incentive, a 13020 net cost and 1800 saved a
      year; an empty form gives the same. */
  lemma PresetFigures()
    ensures var expected := Some(Figures(21000.0, 6300.0, 1680.0, 13020.0, 1800.0,
        13020.0 / 1800.0, 31980.0, 13020.0 / 180.0));
      && CalculateSavings(Number(150.0), Number(5.0), Number(7.0), Number(0.08)) == expected
      && CalculateSavings(NotANumber, NotANumber, NotANumber, NotANumber) == expected
  {
  }

  /** A zero in any field is silently replaced by that field's default
      instead of being refused. */
  lemma ZeroActsAsMissing(bill: Field, sunHours: Field, systemSize: Field, incentiveRate: Field)
    ensures CalculateSavings(Number(0.0), sunHours, systemSize, incentiveRate)
         == CalculateSavings(NotANumber, sunHours, systemSize, incentiveRate)
    ensures CalculateSavings(bill, Number(0.0), systemSize, incentiveRate)
         == CalculateSavings(bill, NotANumber, systemSize, incentiveRate)
    ensures CalculateSavings(bill, sunHours, Number(0.0), incentiveRate)
         == CalculateSavings(bill, sunHours, NotANumber, incentiveRate)
    ensures CalculateSavings(bill, sunHours, systemSize, Number(0.0))
         == CalculateSavings(bill, sunHours, systemSize, NotANumber)
  {
  }

  /** Once accepted, the sun hours do not change any figure. */
  lemma SunHoursOnlyValidated(bill: Field, h1: real, h2: real, systemSize: Field, incentiveRate: Field)
    requires h1 >= 0.0 && h2 >= 0.0
    ensures CalculateSavings(bill, Number(h1), systemSize, incentiveRate)
         == CalculateSavings(bill, Number(h2), systemSize, incentiveRate)
  {
  }
}
