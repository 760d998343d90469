/** The customer form: its schema, its defaults, and the plan selector it
    offers. Email syntax is decided by the schema library; it is a parameter
    here. */
module CustomerForm {
  import opened Wrappers
  import opened Types

  /** `CustomerFormData`: the creation payload plus the optional chosen plan id */
  datatype Values = Values(email: string, companyName: string, planId: Option<string>)

  datatype FieldError = InvalidEmail | CompanyRequired | CompanyTooLong

  function Message(e: FieldError): string {
    match e
    case InvalidEmail => "Please enter a valid email address"
    case CompanyRequired => "Company name is required"
    case CompanyTooLong => "Name too long"
  }

  /** The condition under which the schema reports `e` */
  predicate Fails(v: Values, isEmail: string -> bool, e: FieldError) {
    match e
    case InvalidEmail => !isEmail(v.email)
    case CompanyRequired => |v.companyName| < 1
    case CompanyTooLong => |v.companyName| > 100
  }

  function Check(v: Values, isEmail: string -> bool, e: FieldError): seq<FieldError> {
    if Fails(v, isEmail, e) then [e] else []
  }

  /** Every failing check of `customerSchema`, in field order */
  function Errors(v: Values, isEmail: string -> bool): (r: seq<FieldError>)
    ensures forall e :: e in r <==> Fails(v, isEmail, e)
  {
    var r := Check(v, isEmail, InvalidEmail) + Check(v, isEmail, CompanyRequired)
      + Check(v, isEmail, CompanyTooLong);
    assert forall e :: Fails(v, isEmail, e) ==> e in Check(v, isEmail, e);
    r
  }

  datatype Validation = Valid(data: Values) | Invalid(errors: seq<FieldError>)

  /** `customerSchema`: the values are submitted unchanged exactly when the
      email is an email and the company name has 1 to 100 characters; the plan
      id may be absent. Otherwise every failed check is reported and no other. */
  function Validate(v: Values, isEmail: string -> bool): (r: Validation)
    ensures r.Valid? <==> isEmail(v.email) && 1 <= |v.companyName| <= 100
    ensures r.Valid? ==> r.data == v
    ensures r.Invalid? ==> |r.errors| > 0 && forall e :: e in r.errors <==> Fails(v, isEmail, e)
  {
    var errors := Errors(v, isEmail);
    if |errors| == 0 then Valid(v) else Invalid(errors)
  }

  /** `defaultValues` */
  const Defaults := Values("", "", None)

  /** The untouched form is rejected for its empty company name, whatever counts as an email */
  lemma DefaultsRejected(isEmail: string -> bool)
    ensures Validate(Defaults, isEmail).Invalid?
    ensures CompanyRequired in Validate(Defaults, isEmail).errors
  {
  }

  /** The plan selector is rendered only when requested and there are plans to choose */
  predicate PlanSelectorVisible(showPlanSelection: bool, plans: Option<seq<Plan>>) {
    showPlanSelection && plans.Some? && |plans.value| > 0
  }

  /** One entry of the plan selector; `trialDays` is the "(N day trial)" suffix */
  datatype PlanOption = PlanOption(
    value: string,
    name: string,
    basePrice: real,
    interval: string,
    trialDays: Option<real>)

  function OptionOf(p: Plan): PlanOption {
    PlanOption(p.id, p.name, p.basePrice, IntervalName(p.interval),
               if p.freeTrialDays > 0.0 then Some(p.freeTrialDays) else None)
  }

  /** The selector's entries: one per plan, in order, valued by plan id, with the
      trial suffix exactly for plans with a positive trial */
  function OptionsOf(plans: seq<Plan>): (r: seq<PlanOption>)
    ensures |r| == |plans|
    ensures forall i :: 0 <= i < |plans| ==> r[i].value == plans[i].id
    ensures forall i :: 0 <= i < |plans| ==>
              r[i].name == plans[i].name && r[i].basePrice == plans[i].basePrice
              && r[i].interval == IntervalName(plans[i].interval)
    ensures forall i :: 0 <= i < |plans| ==> (r[i].trialDays.Some? <==> plans[i].freeTrialDays > 0.0)
    ensures forall i :: 0 <= i < |plans| && r[i].trialDays.Some? ==> r[i].trialDays.value == plans[i].freeTrialDays
    decreases |plans|
  {
    if |plans| == 0 then [] else [OptionOf(plans[0])] + OptionsOf(plans[1..])
  }
}
