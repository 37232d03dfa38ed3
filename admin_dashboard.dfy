/**
 * The super-admin dashboard's restaurant table: the query of a page of
 * restaurants, the pager, the status and plan badges, the trial warning and
 * the recipe limit.
 */
module AdminDashboard {
  import opened Wrappers
  import opened Text
  import opened Wire

  /**
   * `new URLSearchParams({page, limit: '10', ...search, ...status})`: the search
   * term only when non-empty, the status only when it is not `all`.
   */
  function RestaurantsQuery(page: int, search: string, status: string): (q: seq<(string, string)>)
    ensures |q| >= 2 && q[0] == ("page", IntToString(page)) && q[1] == ("limit", "10")
    ensures ("search", search) in q <==> search != ""
    ensures ("status", status) in q <==> status != "all"
    ensures forall i :: 2 <= i < |q| ==> q[i].0 == "search" || q[i].0 == "status"
  {
    [("page", IntToString(page)), ("limit", "10")]
    + (if search != "" then [("search", search)] else [])
    + (if status != "all" then [("status", status)] else [])
  }

  /**
   * How the restaurants request ended: a response with its status flag and
   * parsed body, or a throw before there was one (the fetch, or `json()`).
   */
  datatype FetchOutcome = Replied(ok: bool, body: Json) | Failed

  const LoadFailed := "Failed to load restaurants"

  /** The pager shows only when there is more than one page. */
  predicate ShowsPagination(totalPages: int)
  {
    totalPages > 1
  }

  /** The table's filters, paging and the page of restaurants last fetched. */
  class RestaurantTable {
    var searchTerm: string
    var statusFilter: string
    var currentPage: int
    var totalPages: int
    var restaurants: Json

    constructor ()
      ensures searchTerm == "" && statusFilter == "all"
      ensures currentPage == 1 && totalPages == 1 && restaurants == JArr([])
    {
      searchTerm := "";
      statusFilter := "all";
      currentPage := 1;
      totalPages := 1;
      restaurants := JArr([]);
    }

    /** The query the next fetch sends. */
    function Query(): seq<(string, string)>
      reads this
    {
      RestaurantsQuery(currentPage, searchTerm, statusFilter)
    }

    /** Typing in the search box; the page is kept. */
    method SetSearch(term: string)
      modifies this
      ensures searchTerm == term
      ensures statusFilter == old(statusFilter) && currentPage == old(currentPage)
      ensures totalPages == old(totalPages) && restaurants == old(restaurants)
      ensures ("search", term) in Query() <==> term != ""
    {
      searchTerm := term;
    }

    /** Choosing a status; the page is kept. */
    method SetStatus(status: string)
      modifies this
      ensures statusFilter == status
      ensures searchTerm == old(searchTerm) && currentPage == old(currentPage)
      ensures totalPages == old(totalPages) && restaurants == old(restaurants)
      ensures ("status", status) in Query() <==> status != "all"
    {
      statusFilter := status;
    }

    /**
     * `fetchRestaurants` once the request has ended. An ok response stores
     * `result.data`, then `result.pagination.pages`; a throw anywhere on the
     * way (the fetch itself, a `null` body, a missing `pagination`) is caught
     * with the toast `LoadFailed`, leaving what was already set. A response that
     * is not ok changes nothing and shows nothing.
     */
    method Loaded(outcome: FetchOutcome) returns (toast: Option<string>)
      modifies this
      ensures outcome.Failed? ==>
        toast == Some(LoadFailed) && restaurants == old(restaurants) && totalPages == old(totalPages)
      ensures outcome.Replied? && !outcome.ok ==>
        toast == None && restaurants == old(restaurants) && totalPages == old(totalPages)
      ensures outcome.Replied? && outcome.ok && IsNullish(outcome.body) ==>
        toast == Some(LoadFailed) && restaurants == old(restaurants) && totalPages == old(totalPages)
      ensures outcome.Replied? && outcome.ok && !IsNullish(outcome.body) ==>
        restaurants == Get(outcome.body, "data")
      ensures outcome.Replied? && outcome.ok && !IsNullish(outcome.body)
              && IsNullish(Get(outcome.body, "pagination")) ==>
        toast == Some(LoadFailed) && totalPages == old(totalPages)
      ensures outcome.Replied? && outcome.ok && !IsNullish(outcome.body)
              && !IsNullish(Get(outcome.body, "pagination")) ==>
        toast == None
        && totalPages == (if Get(Get(outcome.body, "pagination"), "pages").JNum?
                          then Get(Get(outcome.body, "pagination"), "pages").n else old(totalPages))
      ensures currentPage == old(currentPage) && searchTerm == old(searchTerm)
      ensures statusFilter == old(statusFilter)
    {
      toast := None;
      match outcome
      case Failed =>
        toast := Some(LoadFailed);
      case Replied(ok, body) =>
        if ok {
          if IsNullish(body) {
            toast := Some(LoadFailed);
          } else {
            restaurants := Get(body, "data");
            var pagination := Get(body, "pagination");
            if IsNullish(pagination) {
              toast := Some(LoadFailed);
            } else if Get(pagination, "pages").JNum? {
              totalPages := Get(pagination, "pages").n;
            }
          }
        }
    }

    /** `Previous`: one page back, never below the first; the button lives inside the pager. */
    method PreviousPage()
      requires ShowsPagination(totalPages)
      modifies this
      ensures currentPage == if old(currentPage) - 1 > 1 then old(currentPage) - 1 else 1
      ensures searchTerm == old(searchTerm) && statusFilter == old(statusFilter)
      ensures totalPages == old(totalPages) && restaurants == old(restaurants)
      ensures currentPage >= 1
      ensures 1 <= old(currentPage) <= totalPages ==> 1 <= currentPage <= totalPages
    {
      currentPage := if currentPage - 1 > 1 then currentPage - 1 else 1;
    }

    /** `Next`: one page on, never past the last; the button lives inside the pager. */
    method NextPage()
      requires ShowsPagination(totalPages)
      modifies this
      ensures currentPage == if old(currentPage) + 1 < totalPages then old(currentPage) + 1 else totalPages
      ensures searchTerm == old(searchTerm) && statusFilter == old(statusFilter)
      ensures totalPages == old(totalPages) && restaurants == old(restaurants)
      ensures currentPage <= totalPages
      ensures 1 <= old(currentPage) <= totalPages ==> 1 <= currentPage <= totalPages
    {
      currentPage := if currentPage + 1 < totalPages then currentPage + 1 else totalPages;
    }
  }

  const Grey := "text-gray-600 bg-gray-100"

  /** `getStatusColor`. */
  function StatusClass(status: string): (c: string)
    ensures c != Grey <==> status in {"active", "trial", "suspended", "cancelled"}
  {
    match status
    case "active" => "text-green-600 bg-green-100"
    case "trial" => "text-blue-600 bg-blue-100"
    case "suspended" => "text-yellow-600 bg-yellow-100"
    case "cancelled" => "text-red-600 bg-red-100"
    case _ => Grey
  }

  /** `getPlanColor`. */
  function PlanClass(plan: string): (c: string)
    ensures c != Grey <==> plan in {"trial", "pro", "enterprise"}
  {
    match plan
    case "trial" => "text-blue-600 bg-blue-100"
    case "pro" => "text-purple-600 bg-purple-100"
    case "enterprise" => "text-orange-600 bg-orange-100"
    case _ => Grey
  }

  /**
   * `isTrialExpiring`, with the whole days left until the trial ends: only a
   * trial, and then when at most three days are left, an ended trial included.
   */
  predicate IsTrialExpiring(status: string, daysLeft: int)
    ensures IsTrialExpiring(status, daysLeft) ==> status == "trial"
    ensures status == "trial" && daysLeft <= 0 ==> IsTrialExpiring(status, daysLeft)
  {
    status == "trial" && daysLeft <= 3
  }

  /** The recipe limit as shown: `Unlimited` exactly for -1, otherwise the number. */
  function RecipeLimit(maxRecipes: int): (s: string)
    ensures s == "Unlimited" <==> maxRecipes == -1
    ensures maxRecipes != -1 ==> s == IntToString(maxRecipes)
  {
    if maxRecipes == -1 then "Unlimited"
    else
      var r := IntToString(maxRecipes);
      assert r[0] != 'U' by {
        if maxRecipes >= 0 {
          assert '0' <= NatToString(maxRecipes)[0] <= '9';
        }
      }
      r
  }
}
