/** Signing a rental contract (frontend/src/RentalContractPage.js): the price summary, the end
    date derived with `Date.setMonth`, the submit guards and the contract record that is sent. */
module RentalContract {

  import opened Common
  import opened JsString

  /** The duration select's options, in months, and the initial choice. */
  const Durations: seq<nat> := [6, 12, 24, 36]
  const DefaultDuration: nat := 12

  lemma DefaultIsOffered()
    ensures DefaultDuration in Durations
  {
  }

  // ---- the price summary ----

  datatype Totals = Totals(monthlyRent: int, securityDeposit: int, totalValue: int, initialPayment: int)

  /** `calculateTotal` */
  function CalculateTotal(space: Option<Space>, contractDuration: int): Totals
  {
    if space.None? then Totals(0, 0, 0, 0)
    else
      var monthlyRent := space.value.pricePerMonth;
      var securityDeposit := monthlyRent * 2;
      Totals(monthlyRent, securityDeposit, monthlyRent * contractDuration, monthlyRent + securityDeposit)
  }

  /** The deposit is two months' rent, the first payment three, the whole contract the rent
      times its duration; without a space every amount is 0. */
  lemma CalculateTotalSpec(space: Option<Space>, contractDuration: int)
    ensures var t := CalculateTotal(space, contractDuration);
      && (space.None? ==> t == Totals(0, 0, 0, 0))
      && (space.Some? ==> t.monthlyRent == space.value.pricePerMonth)
      && t.securityDeposit == 2 * t.monthlyRent
      && t.initialPayment == 3 * t.monthlyRent
      && t.initialPayment == t.monthlyRent + t.securityDeposit
      && t.totalValue == t.monthlyRent * contractDuration
  {
  }

  /** For any offered duration, the contract's value is at least the first payment. */
  lemma {:induction false} TotalCoversInitialPayment(space: Option<Space>, contractDuration: nat)
    requires contractDuration in Durations
    requires space.Some? ==> space.value.pricePerMonth >= 0
    ensures CalculateTotal(space, contractDuration).totalValue >= CalculateTotal(space, contractDuration).initialPayment
  {
    if space.Some? {
      var rent := space.value.pricePerMonth;
      assert contractDuration >= 3;
      assert rent * contractDuration == rent * 3 + rent * (contractDuration - 3);
      assert rent * (contractDuration - 3) >= 0;
    }
  }

  // ---- the calendar ----

  predicate IsLeapYear(y: int)
  {
    (y % 4 == 0 && y % 100 != 0) || y % 400 == 0
  }

  /** The length of month `m` (0 for January, as `getMonth` counts) of year `y`. */
  function DaysInMonth(y: int, m: int): (n: int)
    requires 0 <= m < 12
    ensures 28 <= n <= 31
    ensures m == 1 ==> (n == 29 <==> IsLeapYear(y))
  {
    if m == 1 then (if IsLeapYear(y) then 29 else 28)
    else if m == 3 || m == 5 || m == 8 || m == 10 then 30
    else 31
  }

  /** A calendar date: `month` counts from 0 as in JavaScript. */
  datatype Date = Date(year: int, month: int, day: int)

  predicate ValidDate(d: Date)
  {
    0 <= d.month < 12 && 1 <= d.day <= DaysInMonth(d.year, d.month)
  }

  /** Months since month 0 of year 0. */
  function MonthIndex(d: Date): int
  {
    d.year * 12 + d.month
  }

  /** The length of the month with the given index. */
  function MonthDays(k: int): int
  {
    DaysInMonth(k / 12, k % 12)
  }

  /** A date object, as `new Date(startDate)` creates one (local time). */
  class JsDate {
    var year: int
    var month: int
    var day: int

    function Value(): Date
      reads this
    {
      Date(year, month, day)
    }

    constructor (d: Date)
      ensures Value() == d
    {
      year, month, day := d.year, d.month, d.day;
    }

    method GetMonth() returns (m: int)
      ensures m == month
    {
      m := month;
    }

    /** `setMonth(m)`: month `m` counted from month 0 of the current year (so 12 is January
        of the next year), keeping the day of the month; a day the target month does not have
        runs on into the month after, as JavaScript's date arithmetic makes it. */
    method SetMonth(m: int)
      requires ValidDate(Value())
      modifies this
      ensures MonthsOn(Date(old(year), 0, old(day)), m, Value())
      ensures ValidDate(Value())
    {
      var y := year + m / 12;
      var mo := m % 12;
      var dim := DaysInMonth(y, mo);
      assert y * 12 + mo == old(year) * 12 + m;
      if day <= dim {
        year, month := y, mo;
      } else if mo == 11 {
        year, month, day := y + 1, 0, day - dim;
      } else {
        year, month, day := y, mo + 1, day - dim;
      }
    }
  }

  /** `to` is `n` months on from `from` in JavaScript's sense: the month `n` after, on the same
      day, or, when that month is too short, in the month after it, by the days that overran. */
  predicate MonthsOn(from: Date, n: int, to: Date)
  {
    var k := MonthIndex(from) + n;
    && (from.day <= MonthDays(k) ==> MonthIndex(to) == k && to.day == from.day)
    && (from.day > MonthDays(k) ==> MonthIndex(to) == k + 1 && to.day == from.day - MonthDays(k))
  }

  /** Counting `month + n` months from January is counting `n` months from `month`. */
  lemma MonthsOnFromJanuary(from: Date, n: int, to: Date)
    requires MonthsOn(Date(from.year, 0, from.day), from.month + n, to)
    ensures MonthsOn(from, n, to)
  {
    assert MonthIndex(Date(from.year, 0, from.day)) + (from.month + n) == MonthIndex(from) + n;
  }

  /** A valid date moved on lands on the same day of the month, or on one of the first three
      days of a month. */
  lemma {:induction false} MonthsOnDay(from: Date, n: int, to: Date)
    requires ValidDate(from) && MonthsOn(from, n, to)
    ensures to.day == from.day || 1 <= to.day <= 3
  {
    var k := MonthIndex(from) + n;
    assert 28 <= MonthDays(k);
  }

  /** `parseInt(contractDuration)`: once an option is chosen the duration is held as that
      option's text, which reads back as the number of months. */
  method ParseDuration(contractDuration: nat) returns (months: int)
    ensures months == contractDuration
  {
    ParseIntOfIntToString(contractDuration);
    months := ParseInt(IntToString(contractDuration)).value;
  }

  /** `endDate`: a copy of the start date with `setMonth(getMonth() + parseInt(contractDuration))`
      applied. The end date lies `contractDuration` months after the start on the same day of
      the month, or, when that month is too short, on the first days of the month after. */
  method EndDate(start: Date, contractDuration: nat) returns (end: Date)
    requires ValidDate(start)
    ensures ValidDate(end)
    ensures MonthsOn(start, contractDuration, end)
  {
    var endDate := new JsDate(start);
    var m := endDate.GetMonth();
    var months := ParseDuration(contractDuration);
    endDate.SetMonth(m + months);
    end := endDate.Value();
    MonthsOnFromJanuary(start, contractDuration, end);
  }

  /** Twelve months on, a date whose day exists in every month is the same day and month of
      the next year; so is a twelve-month contract's end date. */
  lemma OneYearLater(start: Date, end: Date)
    requires ValidDate(start) && ValidDate(end) && start.day <= 28
    requires MonthsOn(start, 12, end)
    ensures end == Date(start.year + 1, start.month, start.day)
  {
    assert 28 <= MonthDays(MonthIndex(start) + 12);
  }

  // ---- submission ----

  /** Why `handleSubmit` returned without sending anything. */
  datatype SubmitError = TermsNotAccepted | MissingPaymentMethod | MissingSignature

  datatype Result<T> = Ok(value: T) | Err(error: SubmitError)

  /** The `tenant` part of the contract: the user's identity and contact fields. */
  datatype TenantInfo = TenantInfo(id: int, name: string, email: string, phone: string)

  /** `contractData`, with the dates as calendar days. */
  datatype ContractData = ContractData(
    space: Option<Space>,
    tenant: TenantInfo,
    startDate: Date,
    endDate: Date,
    monthlyRent: int,
    securityDeposit: int,
    status: string,
    isPaid: bool,
    dateCreated: Date,
    contractNumber: string,
    notes: string,
    paymentMethod: string,
    signature: string)

  /** The fields of the signing form. */
  datatype SigningForm = SigningForm(
    contractDuration: nat,
    termsAccepted: bool,
    paymentMethod: string,
    signatureData: string)

  const InitialForm := SigningForm(DefaultDuration, false, "", "")

  /** The three early returns of `handleSubmit`, in the order the source tests them. */
  function Guard(form: SigningForm): Option<SubmitError>
  {
    if !form.termsAccepted then Some(TermsNotAccepted)
    else if form.paymentMethod == "" then Some(MissingPaymentMethod)
    else if Trim(form.signatureData) == [] then Some(MissingSignature)
    else None
  }

  /** The contract record `handleSubmit` builds once the guards pass. `now` is `Date.now()`,
      `start` today's date and `end` the end date shown on the page. */
  function BuildContract(space: Option<Space>, user: User, form: SigningForm,
                         start: Date, end: Date, now: nat): ContractData
  {
    var totals := CalculateTotal(space, form.contractDuration);
    ContractData(
      space,
      TenantInfo(user.id, user.name, user.email, user.phone),
      start, end,
      totals.monthlyRent, totals.securityDeposit,
      "ACTIVE", true, start,
      "RENT-" + NatToString(now),
      "Contract încheiat electronic. Metodă de plată: " + form.paymentMethod
        + ". Durata: " + NatToString(form.contractDuration) + " luni.",
      form.paymentMethod,
      form.signatureData)
  }

  /** `handleSubmit` up to the request: the first failing guard, or the record to send. */
  function Submit(space: Option<Space>, user: User, form: SigningForm,
                  start: Date, end: Date, now: nat): Result<ContractData>
  {
    match Guard(form)
    case Some(e) => Err(e)
    case None => Ok(BuildContract(space, user, form, start, end, now))
  }

  /** A record is sent exactly when the terms are accepted, a payment method is chosen and the
      signature is not blank; otherwise the first failing guard, in source order, is reported. */
  lemma {:induction false} SubmitGuards(space: Option<Space>, user: User, form: SigningForm,
                                        start: Date, end: Date, now: nat)
    ensures Submit(space, user, form, start, end, now).Ok? <==>
      form.termsAccepted && form.paymentMethod != "" && !IsBlank(form.signatureData)
    ensures !form.termsAccepted ==> Submit(space, user, form, start, end, now) == Err(TermsNotAccepted)
    ensures form.termsAccepted && form.paymentMethod == "" ==>
      Submit(space, user, form, start, end, now) == Err(MissingPaymentMethod)
    ensures form.termsAccepted && form.paymentMethod != "" && IsBlank(form.signatureData) ==>
      Submit(space, user, form, start, end, now) == Err(MissingSignature)
  {
    GuardSpec(form);
  }

  /** The guards in source order, each reached only when the ones before it pass. */
  lemma GuardSpec(form: SigningForm)
    ensures Guard(form).None? <==> form.termsAccepted && form.paymentMethod != "" && !IsBlank(form.signatureData)
    ensures !form.termsAccepted ==> Guard(form) == Some(TermsNotAccepted)
    ensures form.termsAccepted && form.paymentMethod == "" ==> Guard(form) == Some(MissingPaymentMethod)
    ensures form.termsAccepted && form.paymentMethod != "" && IsBlank(form.signatureData) ==>
      Guard(form) == Some(MissingSignature)
  {
    TrimEmptyIffBlank(form.signatureData);
  }

  /** The page's whole path to the request: the end date is derived from today's date and the
      chosen duration as the page renders it, then `handleSubmit` builds the record. */
  method SubmitFromPage(space: Option<Space>, user: User, form: SigningForm, today: Date, now: nat)
    returns (r: Result<ContractData>)
    requires ValidDate(today)
    ensures r.Ok? <==> Guard(form).None?
    ensures Guard(form).Some? ==> r == Err(Guard(form).value)
    ensures r.Ok? ==>
      && r.value.startDate == today && r.value.dateCreated == today
      && ValidDate(r.value.endDate)
      && MonthsOn(today, form.contractDuration, r.value.endDate)
  {
    var end := EndDate(today, form.contractDuration);
    r := Submit(space, user, form, today, end, now);
  }

  /** The initial form cannot be submitted: the terms are not yet accepted. */
  lemma InitialFormRejected(space: Option<Space>, user: User, start: Date, end: Date, now: nat)
    ensures Submit(space, user, InitialForm, start, end, now) == Err(TermsNotAccepted)
  {
  }

  /** The record sent is an active, paid contract for this tenant whose rent and deposit are the
      summary's amounts and whose number is "RENT-" followed by the timestamp. */
  lemma {:induction false} ContractDataSpec(space: Option<Space>, user: User, form: SigningForm,
                                            start: Date, end: Date, now: nat)
    requires Submit(space, user, form, start, end, now).Ok?
    ensures var c := Submit(space, user, form, start, end, now).value;
      && c.status == "ACTIVE" && c.isPaid
      && c.tenant.id == user.id
      && c.monthlyRent == CalculateTotal(space, form.contractDuration).monthlyRent
      && c.securityDeposit == 2 * c.monthlyRent
      && c.startDate == start && c.endDate == end && c.dateCreated == start
      && c.paymentMethod == form.paymentMethod && c.signature == form.signatureData
      && |c.contractNumber| > 5 && c.contractNumber[..5] == "RENT-"
      && ParseInt(c.contractNumber[5..]) == Some(now)
  {
    var c := Submit(space, user, form, start, end, now).value;
    assert c.contractNumber[5..] == NatToString(now);
    ParseIntOfIntToString(now);
  }
}
