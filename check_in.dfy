/** The check-in form: the daily amount shown for the chosen vehicle type and
    number of days, the ordered input checks run on submit, the three
    mutually exclusive dropdowns, and the reset after a successful check-in. */
module CheckIn {
  import opened Values
  import opened JsNumber
  import opened StoreRules
  import opened Store

  const RequiredMessage := "Vehicle number and mobile are required"
  const LengthMessage := "Mobile must be 10 digits"
  const MobileMessage := "Enter a valid mobile number."
  const AmountMessage := "Could not determine amount. Please check prices."
  const FailedMessage := "Check In Failed"

  /** The form's reset values for the vehicle type, payment method and days. */
  const DefaultVehicleType := "cycle"
  const DefaultPayment := "cash"
  const DefaultDays := "1"

  /** `Number(priceData?.dailyPrices?.[vehicleType] || 0) * Number(days)`:
      a missing or empty rate counts as 0, and `None` is `NaN`, which any
      unparsable operand makes the product (even when the rate is 0). */
  function DailyAmount(priceData: PriceData, vehicleType: string, days: string): (r: Option<nat>)
    ensures r.Some? <==> AllDigits(days) && (RateText(priceData, vehicleType) == "" || AllDigits(RateText(priceData, vehicleType)))
    ensures RateText(priceData, vehicleType) == "" && AllDigits(days) ==> r == Some(0)
    ensures r.Some? ==> r.value == DigitsValue(RateText(priceData, vehicleType)) * DigitsValue(days)
  {
    var rate := if RateText(priceData, vehicleType) == "" then Some(0) else NumberOf(RateText(priceData, vehicleType));
    var count := NumberOf(days);
    if rate.Some? && count.Some? then Some(rate.value * count.value) else None
  }

  /** For one day, the form's reset value, the amount is the daily rate itself,
      and 0 when the vehicle type has no rate. */
  lemma OneDayAmountIsRate(priceData: PriceData, vehicleType: string)
    requires AllDigits(RateText(priceData, vehicleType))
    ensures DailyAmount(priceData, vehicleType, DefaultDays) == Some(DigitsValue(RateText(priceData, vehicleType)))
  {
    assert DefaultDays[..0] == "";
    assert DigitsValue(DefaultDays) == 1;
  }

  /** The stored daily rate of a vehicle type, `""` when there is none. */
  function RateText(priceData: PriceData, vehicleType: string): string {
    if priceData.dailyPrices.Some? && vehicleType in priceData.dailyPrices.value
    then priceData.dailyPrices.value[vehicleType] else ""
  }

  /** `/^[6-9]/` */
  predicate StartsLikeMobile(mobile: string) {
    mobile != [] && '6' <= mobile[0] <= '9'
  }

  /** The message of the first failing check of `handleSubmit`, `None` when all pass. */
  function SubmitError(vehicleNo: string, mobile: string, amount: Option<nat>): Option<string> {
    if vehicleNo == "" || mobile == "" then Some(RequiredMessage)
    else if |mobile| != 10 then Some(LengthMessage)
    else if !StartsLikeMobile(mobile) then Some(MobileMessage)
    else if amount.None? || amount.value == 0 then Some(AmountMessage)
    else None
  }

  /** A form `handleSubmit` sends, stated without the order of the checks. */
  predicate Submittable(vehicleNo: string, mobile: string, amount: Option<nat>) {
    vehicleNo != "" && |mobile| == 10 && StartsLikeMobile(mobile) && amount.Some? && amount.value > 0
  }

  lemma SubmitErrorIff(vehicleNo: string, mobile: string, amount: Option<nat>)
    ensures SubmitError(vehicleNo, mobile, amount).None? <==> Submittable(vehicleNo, mobile, amount)
  {
  }

  /** The first failure wins: each message is reported exactly when its check
      fails and every earlier one passes. */
  lemma FirstFailureWins(vehicleNo: string, mobile: string, amount: Option<nat>)
    ensures SubmitError(vehicleNo, mobile, amount) == Some(RequiredMessage) <==> (vehicleNo == "" || mobile == "")
    ensures SubmitError(vehicleNo, mobile, amount) == Some(LengthMessage)
            <==> (vehicleNo != "" && mobile != "" && |mobile| != 10)
    ensures SubmitError(vehicleNo, mobile, amount) == Some(MobileMessage)
            <==> (vehicleNo != "" && |mobile| == 10 && !StartsLikeMobile(mobile))
    ensures SubmitError(vehicleNo, mobile, amount) == Some(AmountMessage)
            <==> (vehicleNo != "" && |mobile| == 10 && StartsLikeMobile(mobile) && (amount.None? || amount.value == 0))
  {
  }

  /** Only the length and the first character of the mobile number are
      checked: two numbers that agree on those are treated alike. */
  lemma MobileTailUnchecked(vehicleNo: string, m1: string, m2: string, amount: Option<nat>)
    requires |m1| == |m2| == 10 && m1[0] == m2[0]
    ensures SubmitError(vehicleNo, m1, amount) == SubmitError(vehicleNo, m2, amount)
  {
  }

  /** The dropdown flags after `handleOpen(dropdown, open)`. */
  datatype Dropdowns = Dropdowns(vehicleTypeOpen: bool, daysOpen: bool, paymentOpen: bool)

  function OpenDropdown(dropdown: string, open: bool): (d: Dropdowns)
    ensures !(d.vehicleTypeOpen && d.daysOpen) && !(d.vehicleTypeOpen && d.paymentOpen) && !(d.daysOpen && d.paymentOpen)
    ensures dropdown == "vehicle" ==> (d.vehicleTypeOpen <==> open)
    ensures dropdown == "days" ==> (d.daysOpen <==> open)
    ensures dropdown == "payment" ==> (d.paymentOpen <==> open)
    ensures !open ==> d == Dropdowns(false, false, false)
  {
    Dropdowns(dropdown == "vehicle" && open, dropdown == "days" && open, dropdown == "payment" && open)
  }

  /** The component's state variables. */
  datatype Form = Form(name: string, vehicleNo: string, vehicleType: string, mobile: string,
                       paymentMethod: string, isLoading: bool, days: string, amount: Option<nat>,
                       dropdowns: Dropdowns)

  const InitialForm := Form("", "", DefaultVehicleType, "", DefaultPayment, false, DefaultDays, Some(0), Dropdowns(false, false, false))

  /** `clearForm`: every state variable except `amount` is reset. */
  function Cleared(f: Form): Form {
    Form("", "", DefaultVehicleType, "", DefaultPayment, false, DefaultDays, f.amount, Dropdowns(false, false, false))
  }

  /** Clearing returns the form to its initial state except for `amount`,
      which the amount effect recomputes from the reset type and days. */
  lemma ClearedIsInitialButAmount(f: Form)
    ensures Cleared(f) == InitialForm.(amount := f.amount)
    ensures Cleared(Cleared(f)) == Cleared(f)
  {
  }

  /** The body `checkIn` posts. */
  datatype CheckInRequest = CheckInRequest(name: string, vehicleNo: string, vehicleType: string, mobile: string,
                                           paymentMethod: string, days: Option<nat>, amount: nat)

  class CheckInForm {
    var name: string
    var vehicleNo: string
    var vehicleType: string
    var mobile: string
    var paymentMethod: string
    var isLoading: bool
    var days: string
    var amount: Option<nat>
    var vehicleTypeOpen: bool
    var daysOpen: bool
    var paymentOpen: bool

    function Snapshot(): Form
      reads this
    {
      Form(name, vehicleNo, vehicleType, mobile, paymentMethod, isLoading, days, amount,
           Dropdowns(vehicleTypeOpen, daysOpen, paymentOpen))
    }

    constructor ()
      ensures Snapshot() == InitialForm
    {
      name, vehicleNo, vehicleType, mobile, paymentMethod := "", "", DefaultVehicleType, "", DefaultPayment;
      isLoading, days, amount := false, DefaultDays, Some(0);
      vehicleTypeOpen, daysOpen, paymentOpen := false, false, false;
    }

    /** The amount effect, run when the vehicle type, the days or the prices change. */
    method RefreshAmount(priceData: PriceData)
      modifies this
      ensures Snapshot() == old(Snapshot()).(amount := DailyAmount(priceData, vehicleType, days))
    {
      var rate := if RateText(priceData, vehicleType) == "" then Some(0) else NumberOf(RateText(priceData, vehicleType));
      var count := NumberOf(days);
      amount := if rate.Some? && count.Some? then Some(rate.value * count.value) else None;
    }

    method ClearForm()
      modifies this
      ensures Snapshot() == Cleared(old(Snapshot()))
    {
      name, vehicleNo, vehicleType, mobile := "", "", DefaultVehicleType, "";
      paymentMethod, days := DefaultPayment, DefaultDays;
      vehicleTypeOpen, daysOpen, paymentOpen, isLoading := false, false, false, false;
    }

    method HandleOpen(dropdown: string, open: bool)
      modifies this
      ensures Snapshot() == old(Snapshot()).(dropdowns := OpenDropdown(dropdown, open))
    {
      vehicleTypeOpen := dropdown == "vehicle" && open;
      daysOpen := dropdown == "days" && open;
      paymentOpen := dropdown == "payment" && open;
    }

    /** `handleSubmit` with `reply` the outcome of the check-in request:
        `outcome` is the error shown (`Done` for success) and `sent` the
        request posted, `None` when a check stopped the submission. */
    method HandleSubmit(store: AuthStore, reply: Result<string>) returns (outcome: Status, sent: Option<CheckInRequest>)
      modifies this, store
      ensures var err := SubmitError(old(vehicleNo), old(mobile), old(amount));
        err.Some? ==> outcome == Failed(err.value) && sent.None?
                      && Snapshot() == old(Snapshot()).(isLoading := false)
                      && store.Snapshot() == old(store.Snapshot())
      ensures SubmitError(old(vehicleNo), old(mobile), old(amount)).None? ==>
        && sent == Some(CheckInRequest(old(name), old(vehicleNo), old(vehicleType), old(mobile),
                                       old(paymentMethod), NumberOf(old(days)), old(amount).value))
        && store.Snapshot() == old(store.Snapshot()).(isLoading := false)
        && (reply.Ok? ==> outcome == Done && Snapshot() == Cleared(old(Snapshot())))
        && (reply.Err? ==> outcome == Failed(OrElse(reply.error, FailedMessage))
                           && Snapshot() == old(Snapshot()).(isLoading := false))
    {
      isLoading := true;
      if vehicleNo == "" || mobile == "" {
        isLoading := false;
        return Failed(RequiredMessage), None;
      }
      if |mobile| != 10 {
        isLoading := false;
        return Failed(LengthMessage), None;
      }
      if !StartsLikeMobile(mobile) {
        isLoading := false;
        return Failed(MobileMessage), None;
      }
      if amount.None? || amount.value == 0 {
        isLoading := false;
        return Failed(AmountMessage), None;
      }
      sent := Some(CheckInRequest(name, vehicleNo, vehicleType, mobile, paymentMethod, NumberOf(days), amount.value));
      var result := store.CheckIn(reply);
      isLoading := false;
      if result.Err? {
        return Failed(OrElse(result.error, FailedMessage)), sent;
      }
      outcome := Done;
      ClearForm();
    }
  }
}
