/** The create-monthly-pass dialog: the amount it computes from the monthly
    price table, its own required-field check, and the hand-off to the store's
    `createMonthlyPass`. */
module MonthlyPassModal {
  import opened Values
  import opened JsNumber
  import opened StoreRules
  import opened Store

  const FillMessage := "Please fill all required fields"
  const NoAmountMessage := "Could not determine amount"
  const ApiErrorMessage := "Error in API"

  /** The dialog's form when it opens and after a pass was created. */
  const EmptyForm := PassForm("", "", "", "", "", "", "", "cash", None)

  /** `parseInt(duration || "0")` */
  function Months(duration: string): Option<nat> {
    ParseInt(if duration == "" then "0" else duration)
  }

  /** `calculateAmount`: 0 without a monthly price table, a vehicle type or a
      non-zero duration, 0 when the rate is not a number (a missing entry
      included), and otherwise rate × months. */
  function CalculateAmount(priceData: PriceData, vehicleType: string, duration: string): (r: nat)
    ensures priceData.monthlyPrices.None? || vehicleType == "" || Months(duration) in {None, Some(0)} ==> r == 0
    ensures priceData.monthlyPrices.Some? && vehicleType !in priceData.monthlyPrices.value ==> r == 0
    ensures r != 0 ==> && priceData.monthlyPrices.Some? && vehicleType in priceData.monthlyPrices.value
                       && AllDigits(priceData.monthlyPrices.value[vehicleType])
                       && Months(duration).Some?
                       && r == NumberOf(priceData.monthlyPrices.value[vehicleType]).value * Months(duration).value
    ensures && priceData.monthlyPrices.Some? && vehicleType != "" && vehicleType in priceData.monthlyPrices.value
            && AllDigits(priceData.monthlyPrices.value[vehicleType]) && Months(duration).Some? ==>
              r == NumberOf(priceData.monthlyPrices.value[vehicleType]).value * Months(duration).value
  {
    var months := Months(duration);
    if priceData.monthlyPrices.None? || vehicleType == "" || months.None? || months.value == 0 then 0
    else
      var rate := if vehicleType in priceData.monthlyPrices.value
                  then NumberOf(priceData.monthlyPrices.value[vehicleType]) else None;
      if rate.None? then 0 else rate.value * months.value
  }

  /** For the durations the dialog offers ("3", "6", "9", "12" months) and a
      numeric rate, the amount is rate × months. */
  lemma OfferedDurationAmount(priceData: PriceData, vehicleType: string, duration: string)
    requires duration in {"3", "6", "9", "12"}
    requires vehicleType != "" && priceData.monthlyPrices.Some? && vehicleType in priceData.monthlyPrices.value
    requires AllDigits(priceData.monthlyPrices.value[vehicleType])
    ensures CalculateAmount(priceData, vehicleType, duration)
            == NumberOf(priceData.monthlyPrices.value[vehicleType]).value * NumberOf(duration).value
  {
    assert duration != "" && AllDigits(duration);
    ParseIntAgreesWithNumber(duration);
  }

  /** The dialog's check: any of seven fields empty. `endDate` is not among them. */
  predicate MissingModalField(f: PassForm) {
    f.name == "" || f.vehicleNo == "" || f.mobile == "" || f.vehicleType == "" ||
    f.duration == "" || f.paymentMethod == "" || f.startDate == ""
  }

  /** The store's check is the dialog's plus `endDate`. */
  lemma StoreCheckExtendsModalCheck(f: PassForm)
    ensures MissingStoreField(f) <==> MissingModalField(f) || f.endDate == ""
  {
  }

  /** A form the dialog lets through with an empty `endDate` is refused by
      the store before any request, with the store untouched. */
  lemma ModalAcceptsStoreRejects(s: StoreState, f: PassForm, amount: nat, reply: Result<Json>)
    requires !MissingModalField(f) && f.endDate == ""
    ensures CreatePassStep(s, f.(amount := Some(amount)), reply) == (s, Err(MissingFieldsMessage), None)
  {
  }

  /** A form the dialog lets through has a payment method, so the store's
      `"cash"` default for `paymentMode` never applies to it. */
  lemma PaymentDefaultUnused(f: PassForm)
    requires !MissingModalField(f)
    ensures PassRequestOf(f).paymentMode == f.paymentMethod
  {
  }

  class PassModal {
    var formData: PassForm
    var isLoading: bool

    constructor ()
      ensures formData == EmptyForm && !isLoading
    {
      formData, isLoading := EmptyForm, false;
    }

    /** `handleCreatePass` with `reply` the server's answer to the create
        request; `outcome` is the toast shown (`Done` for success). */
    method HandleCreatePass(store: AuthStore, reply: Result<Json>) returns (outcome: Status)
      modifies this, store
      ensures !isLoading
      ensures MissingModalField(old(formData)) ==>
        outcome == Failed(FillMessage) && formData == old(formData) && store.Snapshot() == old(store.Snapshot())
      ensures var amount := CalculateAmount(old(store.priceData), old(formData).vehicleType, old(formData).duration);
        !MissingModalField(old(formData)) && amount == 0 ==>
          outcome == Failed(NoAmountMessage) && formData == old(formData) && store.Snapshot() == old(store.Snapshot())
      ensures var amount := CalculateAmount(old(store.priceData), old(formData).vehicleType, old(formData).duration);
        var (after, result, _) := CreatePassStep(old(store.Snapshot()), old(formData).(amount := Some(amount)), reply);
        !MissingModalField(old(formData)) && amount != 0 ==>
          && store.Snapshot() == after
          && (result.Ok? ==> outcome == Done && formData == EmptyForm)
          && (result.Err? ==> outcome == Failed(OrElse(result.error, ApiErrorMessage)) && formData == old(formData))
    {
      isLoading := true;
      if MissingModalField(formData) {
        isLoading := false;
        return Failed(FillMessage);
      }
      var amount := CalculateAmount(store.priceData, formData.vehicleType, formData.duration);
      if amount == 0 {
        isLoading := false;
        return Failed(NoAmountMessage);
      }
      var result, _ := store.CreateMonthlyPass(formData.(amount := Some(amount)), reply);
      isLoading := false;
      if result.Err? {
        return Failed(OrElse(result.error, ApiErrorMessage));
      }
      outcome := Done;
      formData := EmptyForm;
    }
  }
}
