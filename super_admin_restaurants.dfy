/**
 * The super-admin restaurants page: one fetch of every restaurant, the status
 * and plan badge colours, and the trial cell with its days left.
 */
module SuperAdminRestaurants {
  import opened Wrappers
  import opened Text
  import opened Wire
  import AdminDashboard

  const Blue := "#3b82f6"
  const Green := "#10b981"
  const Amber := "#f59e0b"
  const Red := "#ef4444"
  const Purple := "#8b5cf6"
  const Orange := "#f97316"
  const Grey := "#6b7280"

  /** `getStatusColor`: each known status its own colour, anything else grey. */
  function StatusColor(status: string): (c: string)
    ensures c != Grey <==> status in {"trial", "active", "suspended", "cancelled"}
  {
    match status
    case "trial" => Blue
    case "active" => Green
    case "suspended" => Amber
    case "cancelled" => Red
    case _ => Grey
  }

  /** `getPlanColor`: the trial plan shares the trial status's blue. */
  function PlanColor(plan: string): (c: string)
    ensures c != Grey <==> plan in {"trial", "pro", "enterprise"}
    ensures plan == "trial" ==> c == StatusColor("trial")
  {
    match plan
    case "trial" => Blue
    case "pro" => Purple
    case "enterprise" => Orange
    case _ => Grey
  }

  const DayMs := 1000 * 60 * 60 * 24

  /**
   * `Math.ceil((end - now) / day)`, with both instants as milliseconds since
   * the epoch: the least whole number of days that covers the time remaining.
   */
  function DaysLeft(end: int, now: int): (d: int)
    ensures (d - 1) * DayMs < end - now <= d * DayMs
  {
    -((now - end) / DayMs)
  }

  /** Time running on never adds days. */
  lemma DaysLeftMonotone(end: int, now: int, later: int)
    requires now <= later
    ensures DaysLeft(end, later) <= DaysLeft(end, now)
  {
  }

  /** Red for three days or fewer, amber up to a week, green beyond. */
  function TrialColor(daysLeft: int): (c: string)
    ensures c == Red <==> daysLeft <= 3
    ensures c == Green <==> daysLeft > 7
    ensures c == Red || c == Amber || c == Green
  {
    if daysLeft <= 3 then Red else if daysLeft <= 7 then Amber else Green
  }

  /** How alarming a trial colour is. */
  function Urgency(c: string): nat
  {
    if c == Red then 2 else if c == Amber then 1 else 0
  }

  /** Fewer days left never shows a calmer colour; red means the dashboard's trial warning. */
  lemma TrialColorBands(daysLeft: int, fewer: int)
    requires fewer <= daysLeft
    ensures Urgency(TrialColor(fewer)) >= Urgency(TrialColor(daysLeft))
    ensures TrialColor(daysLeft) == Red <==> AdminDashboard.IsTrialExpiring("trial", daysLeft)
  {
  }

  /** `${n} days left` while days remain, `Expired` once none do. */
  function TrialLabel(daysLeft: int): (s: string)
    ensures s == "Expired" <==> daysLeft <= 0
    ensures daysLeft > 0 ==> s == NatToString(daysLeft) + " days left"
  {
    if daysLeft > 0 then
      var s := NatToString(daysLeft) + " days left";
      assert |s| > 7;
      s
    else "Expired"
  }

  datatype TrialBadge = TrialBadge(colour: string, text: string)

  /** The trial cell: shown for a restaurant on trial only. */
  function TrialCell(status: string, daysLeft: int): (b: Option<TrialBadge>)
    ensures b.Some? <==> status == "trial"
    ensures b.Some? ==> b.value.colour == TrialColor(daysLeft) && b.value.text == TrialLabel(daysLeft)
  {
    if status == "trial" then Some(TrialBadge(TrialColor(daysLeft), TrialLabel(daysLeft))) else None
  }

  /** An expired trial is always shown red. */
  lemma ExpiredIsRed(status: string, daysLeft: int)
    requires TrialCell(status, daysLeft).Some? && TrialCell(status, daysLeft).value.text == "Expired"
    ensures TrialCell(status, daysLeft).value.colour == Red
  {
  }

  const FetchFailed := "Failed to fetch restaurants"
  const LoadFailed := "Failed to load restaurants"
  /** The message of the `TypeError` that reading `data` of a `null` or `undefined` body throws, in V8's wording. */
  function NullBodyMessage(body: Json): string
  {
    "Cannot read properties of " + (if body.JNull? then "null" else "undefined") + " (reading 'data')"
  }

  /**
   * How the request ended: a response with its status flag and parsed body, or
   * a thrown value, `Some(message)` when it was an `Error`.
   */
  datatype Outcome = Responded(ok: bool, body: Json) | Threw(message: Option<string>)

  /** The page's state. */
  class RestaurantsPage {
    var restaurants: Json
    var loading: bool
    var error: Option<string>

    constructor ()
      ensures restaurants == JArr([]) && loading && error == None
    {
      restaurants := JArr([]);
      loading := true;
      error := None;
    }

    /**
     * `fetchRestaurants` once the request has ended: a good response stores
     * `data.data || []`; a bad status is reported as a failed fetch, a `null`
     * body by the `TypeError` that reading its `data` throws, any other throw by
     * its message; loading ends either way.
     */
    method Fetched(outcome: Outcome)
      modifies this
      ensures !loading
      ensures outcome.Responded? && outcome.ok && !IsNullish(outcome.body) ==>
        restaurants == Or(Get(outcome.body, "data"), JArr([])) && error == old(error)
      ensures outcome.Responded? && outcome.ok && !IsNullish(outcome.body) && !Truthy(Get(outcome.body, "data")) ==>
        ShowsNoRestaurants()
      ensures outcome.Responded? && outcome.ok && IsNullish(outcome.body) ==>
        restaurants == old(restaurants) && error == Some(NullBodyMessage(outcome.body))
      ensures outcome.Responded? && !outcome.ok ==>
        restaurants == old(restaurants) && error == Some(FetchFailed)
      ensures outcome.Threw? ==>
        restaurants == old(restaurants) && error == Some(outcome.message.GetOr(LoadFailed))
    {
      if outcome.Responded? {
        if outcome.ok && IsNullish(outcome.body) {
          error := Some(NullBodyMessage(outcome.body));
        } else if outcome.ok {
          restaurants := Or(Get(outcome.body, "data"), JArr([]));
        } else {
          error := Some(FetchFailed);
        }
      } else {
        error := Some(outcome.message.GetOr(LoadFailed));
      }
      loading := false;
    }

    /** `restaurants.length === 0` on a fetched list: the empty-table notice. */
    predicate ShowsNoRestaurants()
      reads this
    {
      restaurants.JArr? && |restaurants.items| == 0
    }
  }
}
