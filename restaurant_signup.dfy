/**
 * The three-step restaurant sign-up wizard: the form record and its field
 * updates, the per-step checks, the step counter and the plan table.
 */
module RestaurantSignup {
  import opened Wrappers
  import opened Text

  /** The wizard's form. */
  datatype SignupData = SignupData(
    restaurantName: string, restaurantType: string, address: string, city: string, state: string,
    zipCode: string, country: string,
    headChefName: string, headChefEmail: string, headChefPassword: string, confirmPassword: string,
    planType: string, billingCycle: string)

  /** The names of the form's fields (`keyof SignupData`). */
  datatype Field =
    | RestaurantName | RestaurantType | Address | City | State | ZipCode | Country
    | HeadChefName | HeadChefEmail | HeadChefPassword | ConfirmPassword | PlanType | BillingCycle

  /** The form before any input. */
  const InitialData := SignupData("", "other", "", "", "", "", "US", "", "", "", "", "trial", "monthly")

  /** `data[field]`. */
  function Get(d: SignupData, f: Field): string
  {
    match f
    case RestaurantName => d.restaurantName
    case RestaurantType => d.restaurantType
    case Address => d.address
    case City => d.city
    case State => d.state
    case ZipCode => d.zipCode
    case Country => d.country
    case HeadChefName => d.headChefName
    case HeadChefEmail => d.headChefEmail
    case HeadChefPassword => d.headChefPassword
    case ConfirmPassword => d.confirmPassword
    case PlanType => d.planType
    case BillingCycle => d.billingCycle
  }

  /** `{ ...prev, [field]: value }`: the named field takes the value and no other field changes. */
  function With(d: SignupData, f: Field, v: string): (e: SignupData)
    ensures forall g :: Get(e, g) == if g == f then v else Get(d, g)
  {
    match f
    case RestaurantName => d.(restaurantName := v)
    case RestaurantType => d.(restaurantType := v)
    case Address => d.(address := v)
    case City => d.(city := v)
    case State => d.(state := v)
    case ZipCode => d.(zipCode := v)
    case Country => d.(country := v)
    case HeadChefName => d.(headChefName := v)
    case HeadChefEmail => d.(headChefEmail := v)
    case HeadChefPassword => d.(headChefPassword := v)
    case ConfirmPassword => d.(confirmPassword := v)
    case PlanType => d.(planType := v)
    case BillingCycle => d.(billingCycle := v)
  }

  /** Two forms that agree on every field are the same form. */
  lemma FieldsDetermineData(d: SignupData, e: SignupData)
    requires forall g :: Get(d, g) == Get(e, g)
    ensures d == e
  {
    assert Get(d, RestaurantName) == Get(e, RestaurantName);
    assert Get(d, RestaurantType) == Get(e, RestaurantType);
    assert Get(d, Address) == Get(e, Address);
    assert Get(d, City) == Get(e, City);
    assert Get(d, State) == Get(e, State);
    assert Get(d, ZipCode) == Get(e, ZipCode);
    assert Get(d, Country) == Get(e, Country);
    assert Get(d, HeadChefName) == Get(e, HeadChefName);
    assert Get(d, HeadChefEmail) == Get(e, HeadChefEmail);
    assert Get(d, HeadChefPassword) == Get(e, HeadChefPassword);
    assert Get(d, ConfirmPassword) == Get(e, ConfirmPassword);
    assert Get(d, PlanType) == Get(e, PlanType);
    assert Get(d, BillingCycle) == Get(e, BillingCycle);
  }

  /** Writing back a field's own value changes nothing, and of two writes to one field the last wins. */
  lemma WithLaws(d: SignupData, f: Field, v: string, w: string)
    ensures With(d, f, Get(d, f)) == d
    ensures With(With(d, f, v), f, w) == With(d, f, w)
  {
    FieldsDetermineData(With(d, f, Get(d, f)), d);
    FieldsDetermineData(With(With(d, f, v), f, w), With(d, f, w));
  }

  /**
   * `validateCurrentStep`: the message of the first failing check of the step,
   * none when it passes. Step 1 needs a restaurant name; step 2 a name, an email,
   * a password of at least six characters and a matching confirmation; every
   * other step passes.
   */
  function StepError(step: int, d: SignupData): (e: Option<string>)
    ensures step == 1 ==> (e.None? <==> !IsBlank(d.restaurantName))
    ensures step == 2 ==> (e.None? <==>
      !IsBlank(d.headChefName) && !IsBlank(d.headChefEmail) &&
      |d.headChefPassword| >= 6 && d.headChefPassword == d.confirmPassword)
    ensures step != 1 && step != 2 ==> e.None?
  {
    if step == 1 then
      if IsBlank(d.restaurantName) then Some("Restaurant name is required") else None
    else if step == 2 then
      if IsBlank(d.headChefName) then Some("Head chef name is required")
      else if IsBlank(d.headChefEmail) then Some("Email is required")
      else if |d.headChefPassword| < 6 then Some("Password must be at least 6 characters")
      else if d.headChefPassword != d.confirmPassword then Some("Passwords do not match")
      else None
    else None
  }

  /** Step 2 reports the first failing check: name, then email, then length, then confirmation. */
  lemma StepTwoOrder(d: SignupData)
    ensures IsBlank(d.headChefName) ==> StepError(2, d) == Some("Head chef name is required")
    ensures !IsBlank(d.headChefName) && IsBlank(d.headChefEmail) ==> StepError(2, d) == Some("Email is required")
    ensures !IsBlank(d.headChefName) && !IsBlank(d.headChefEmail) && |d.headChefPassword| < 6 ==>
      StepError(2, d) == Some("Password must be at least 6 characters")
  {
  }

  /** Submitting at step 3 passes whatever steps 1 and 2 hold: they are not checked again. */
  lemma SubmitSkipsEarlierChecks(d: SignupData)
    ensures StepError(3, d) == None
  {
  }

  /** The wizard's state. */
  class Wizard {
    var currentStep: int
    var data: SignupData

    /** The step counter stays within the three steps. */
    predicate Valid()
      reads this
    {
      1 <= currentStep <= 3
    }

    constructor ()
      ensures Valid() && currentStep == 1 && data == InitialData
    {
      currentStep := 1;
      data := InitialData;
    }

    /** `updateData`. */
    method UpdateData(f: Field, v: string)
      modifies this
      ensures data == With(old(data), f, v) && currentStep == old(currentStep)
    {
      data := With(data, f, v);
    }

    /** `nextStep`: forward by one, at most to 3, and only when the current step passes. */
    method NextStep() returns (toast: Option<string>)
      requires Valid()
      modifies this
      ensures Valid() && data == old(data)
      ensures toast == StepError(old(currentStep), old(data))
      ensures currentStep == if toast.None? then (if old(currentStep) == 3 then 3 else old(currentStep) + 1)
                             else old(currentStep)
    {
      toast := StepError(currentStep, data);
      if toast.None? {
        currentStep := if currentStep + 1 < 3 then currentStep + 1 else 3;
      }
    }

    /** `prevStep`: back by one, at least to 1. */
    method PrevStep()
      requires Valid()
      modifies this
      ensures Valid() && data == old(data)
      ensures currentStep == if old(currentStep) == 1 then 1 else old(currentStep) - 1
    {
      currentStep := if currentStep - 1 > 1 then currentStep - 1 else 1;
    }

    /** The guard of `handleSubmit`: the sign-up request goes out only when the current step passes. */
    method Submit() returns (proceeds: bool, toast: Option<string>)
      modifies {}
      ensures toast == StepError(currentStep, data) && proceeds == toast.None?
    {
      toast := StepError(currentStep, data);
      proceeds := toast.None?;
    }
  }

  /** A plan of the plan step: its type and its monthly and yearly prices. */
  datatype Plan = Plan(kind: string, name: string, monthly: nat, yearly: nat)

  const Plans: seq<Plan> := [
    Plan("trial", "Free Trial", 0, 0),
    Plan("pro", "Pro", 49, 490),
    Plan("enterprise", "Enterprise", 99, 990)
  ]

  /** Every plan's yearly price is ten months of its monthly price. */
  lemma YearlyIsTenMonths()
    ensures forall i :: 0 <= i < |Plans| ==> Plans[i].yearly == 10 * Plans[i].monthly
  {
  }
}
