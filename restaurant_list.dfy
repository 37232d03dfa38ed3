/**
 * The admin restaurant list's chips: status and plan colours looked up in a
 * table, and the trial-expiry cell. The same screens exist on the super-admin
 * page as switch statements; the lemmas here show the two always agree.
 */
module RestaurantList {
  import opened Wrappers
  import opened Wire
  import SuperAdminRestaurants

  const StatusPalette: map<string, string> := map[
    "trial" := SuperAdminRestaurants.Blue,
    "active" := SuperAdminRestaurants.Green,
    "suspended" := SuperAdminRestaurants.Amber,
    "cancelled" := SuperAdminRestaurants.Red
  ]

  const PlanPalette: map<string, string> := map[
    "trial" := SuperAdminRestaurants.Blue,
    "pro" := SuperAdminRestaurants.Purple,
    "enterprise" := SuperAdminRestaurants.Orange
  ]

  /**
   * `colors[key] || grey`: the key is coerced to a property name, and a
   * missing or empty entry falls back to grey.
   */
  function ChipColor(palette: map<string, string>, key: Json): (c: string)
    ensures ToStr(key) in palette && palette[ToStr(key)] != "" ==> c == palette[ToStr(key)]
    ensures ToStr(key) !in palette ==> c == SuperAdminRestaurants.Grey
  {
    var k := ToStr(key);
    if k in palette && palette[k] != "" then palette[k] else SuperAdminRestaurants.Grey
  }

  /** `StatusChip`: the colour of `record?.status`. */
  function StatusChip(record: Json): (c: string)
    ensures c == SuperAdminRestaurants.Grey || c in StatusPalette.Values
    ensures !Has(record, "status") ==> c == SuperAdminRestaurants.Grey
  {
    ChipColor(StatusPalette, Get(record, "status"))
  }

  /** `PlanChip`: the colour of `record?.settings?.planType`. */
  function PlanChip(record: Json): (c: string)
    ensures c == SuperAdminRestaurants.Grey || c in PlanPalette.Values
    ensures !Has(record, "settings") ==> c == SuperAdminRestaurants.Grey
  {
    ChipColor(PlanPalette, Get(Get(record, "settings"), "planType"))
  }

  /** For a string status or plan the tables give the super-admin page's colours. */
  lemma {:induction false} ChipsAgree(record: Json, status: string, plan: string)
    requires Get(record, "status") == JStr(status)
    requires Get(Get(record, "settings"), "planType") == JStr(plan)
    ensures StatusChip(record) == SuperAdminRestaurants.StatusColor(status)
    ensures PlanChip(record) == SuperAdminRestaurants.PlanColor(plan)
  {
  }

  /** A record with no status, or no plan, shows grey. */
  lemma MissingKeysAreGrey(record: Json)
    ensures !Has(record, "status") ==> StatusChip(record) == SuperAdminRestaurants.Grey
    ensures !Has(Get(record, "settings"), "planType") ==> PlanChip(record) == SuperAdminRestaurants.Grey
  {
    assert ToStr(JUndefined) == "undefined";
  }

  /**
   * `TrialExpiry`: nothing unless the status is exactly the string `trial`;
   * otherwise the trial colour and label for the days left.
   */
  function TrialExpiry(record: Json, daysLeft: int): (b: Option<SuperAdminRestaurants.TrialBadge>)
    ensures b.Some? <==> Get(record, "status") == JStr("trial")
  {
    if Get(record, "status") != JStr("trial") then None
    else Some(SuperAdminRestaurants.TrialBadge(
      SuperAdminRestaurants.TrialColor(daysLeft), SuperAdminRestaurants.TrialLabel(daysLeft)))
  }

  /** The list's trial cell is the super-admin page's trial cell for a string status. */
  lemma TrialExpiryAgrees(record: Json, status: string, daysLeft: int)
    requires Get(record, "status") == JStr(status)
    ensures TrialExpiry(record, daysLeft) == SuperAdminRestaurants.TrialCell(status, daysLeft)
  {
  }
}
