/** The plan form: the schema that validates its values and the values it is
    prefilled with. Number coercion from text fields is not modelled: the form
    values are already numbers. */
module PlanForm {
  import opened Wrappers
  import opened Types

  /** The values the form holds; `interval` is whatever the select produced */
  datatype Values = Values(
    name: string,
    interval: string,
    basePrice: real,
    usageRate: Option<real>,
    freeTrialDays: real)

  /** One schema check that failed */
  datatype FieldError =
    | NameRequired
    | NameTooLong
    | IntervalInvalid
    | PriceNegative
    | PriceTooHigh
    | RateNegative
    | RateTooHigh
    | TrialNegative
    | TrialTooLong

  /** The message shown under the field; the interval check uses the schema
      library's own enum message, which is not modelled */
  function Message(e: FieldError): string {
    match e
    case NameRequired => "Plan name is required"
    case NameTooLong => "Name must be less than 50 characters"
    case IntervalInvalid => "Invalid enum value"
    case PriceNegative => "Price must be positive"
    case PriceTooHigh => "Price too high"
    case RateNegative => "Usage rate must be positive"
    case RateTooHigh => "Rate too high"
    case TrialNegative => "Trial days must be positive"
    case TrialTooLong => "Trial too long"
  }

  /** The condition under which the schema reports `e` */
  predicate Fails(v: Values, e: FieldError) {
    match e
    case NameRequired => |v.name| < 1
    case NameTooLong => |v.name| > 50
    case IntervalInvalid => v.interval != "monthly" && v.interval != "yearly"
    case PriceNegative => v.basePrice < 0.0
    case PriceTooHigh => v.basePrice > 100000.0
    case RateNegative => v.usageRate.Some? && v.usageRate.value < 0.0
    case RateTooHigh => v.usageRate.Some? && v.usageRate.value > 10.0
    case TrialNegative => v.freeTrialDays < 0.0
    case TrialTooLong => v.freeTrialDays > 365.0
  }

  function Check(v: Values, e: FieldError): seq<FieldError> {
    if Fails(v, e) then [e] else []
  }

  /** Every failing check of `planSchema`, in field order */
  function Errors(v: Values): (r: seq<FieldError>)
    ensures forall e :: e in r <==> Fails(v, e)
  {
    var r := Check(v, NameRequired) + Check(v, NameTooLong) + Check(v, IntervalInvalid)
      + Check(v, PriceNegative) + Check(v, PriceTooHigh)
      + Check(v, RateNegative) + Check(v, RateTooHigh)
      + Check(v, TrialNegative) + Check(v, TrialTooLong);
    assert forall e :: Fails(v, e) ==> e in Check(v, e);
    r
  }

  datatype Validation = Valid(data: CreatePlanData) | Invalid(errors: seq<FieldError>)

  /** `planSchema`: the form is submitted with its values exactly when the name
      has 1 to 50 characters, the interval is "monthly" or "yearly", the base
      price is in [0, 100000], the usage rate is absent or in [0, 10] and the
      trial length is in [0, 365]; trial days need not be whole. Otherwise every
      failed check is reported and no other. */
  function Validate(v: Values): (r: Validation)
    ensures r.Valid? <==>
              && 1 <= |v.name| <= 50
              && (v.interval == "monthly" || v.interval == "yearly")
              && 0.0 <= v.basePrice <= 100000.0
              && (v.usageRate.None? || 0.0 <= v.usageRate.value <= 10.0)
              && 0.0 <= v.freeTrialDays <= 365.0
    ensures r.Valid? ==> r.data.name == v.name && r.data.basePrice == v.basePrice
    ensures r.Valid? ==> IntervalName(r.data.interval) == v.interval
    ensures r.Valid? ==> r.data.usageRate == v.usageRate && r.data.freeTrialDays == v.freeTrialDays
    ensures r.Invalid? ==> |r.errors| > 0 && forall e :: e in r.errors <==> Fails(v, e)
  {
    var errors := Errors(v);
    if |errors| == 0 then
      assert !Fails(v, IntervalInvalid);
      Valid(CreatePlanData(v.name, ParseInterval(v.interval).value, v.basePrice, v.usageRate, v.freeTrialDays))
    else
      Invalid(errors)
  }

  /** A fractional trial length passes the schema */
  lemma FractionalTrialAccepted()
    ensures Validate(Values("Basic", "monthly", 0.0, None, 1.5)).Valid?
  {
  }

  /** The plan data the schema accepts */
  predicate Acceptable(d: CreatePlanData) {
    && 1 <= |d.name| <= 50
    && 0.0 <= d.basePrice <= 100000.0
    && (d.usageRate.None? || 0.0 <= d.usageRate.value <= 10.0)
    && 0.0 <= d.freeTrialDays <= 365.0
  }

  /** JavaScript `a || b` for a string: `b` when `a` is empty */
  function OrString(a: string, b: string): string {
    if a == "" then b else a
  }

  /** JavaScript `a || b` for a number: `b` when `a` is 0 */
  function OrNumber(a: real, b: real): real {
    if a == 0.0 then b else a
  }

  /** `defaultValues`: fixed defaults for a new plan, the plan's own values when
      editing, except that every falsy value is replaced by its default */
  function Defaults(initial: Option<Plan>): Values {
    match initial
    case None => Values("", "monthly", 0.0, None, 14.0)
    case Some(p) =>
      Values(OrString(p.name, ""),
             OrString(IntervalName(p.interval), "monthly"),
             OrNumber(p.basePrice, 0.0),
             if p.usageRate == Some(0.0) then None else p.usageRate,
             OrNumber(p.freeTrialDays, 14.0))
  }

  /** An untouched create form fails only because the name is empty */
  lemma NewFormNeedsOnlyName()
    ensures Defaults(None) == Values("", "monthly", 0.0, None, 14.0)
    ensures Validate(Defaults(None)) == Invalid([NameRequired])
  {
  }

  /** Submitting an untouched edit form gives back the plan's own data when the
      plan is acceptable and has a non-zero trial and no zero usage rate */
  lemma EditPrefillRoundTrip(p: Plan)
    requires Acceptable(DataOf(p))
    requires p.freeTrialDays != 0.0 && p.usageRate != Some(0.0)
    ensures Validate(Defaults(Some(p))) == Valid(DataOf(p))
  {
  }

  /** Because the defaults use `||`, an untouched edit form for a plan without a
      trial submits a 14-day trial, and a zero usage rate becomes no rate,
      each independently of the other field */
  lemma EditPrefillReplacesFalsyValues(p: Plan)
    requires Acceptable(DataOf(p))
    ensures Validate(Defaults(Some(p))).Valid?
    ensures Validate(Defaults(Some(p))).data.freeTrialDays
              == if p.freeTrialDays == 0.0 then 14.0 else p.freeTrialDays
    ensures p.usageRate == Some(0.0) ==> Validate(Defaults(Some(p))).data.usageRate.None?
    ensures p.usageRate != Some(0.0) ==> Validate(Defaults(Some(p))).data.usageRate == p.usageRate
  {
  }
}
