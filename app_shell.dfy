/**
 * The application shell: the landing path per role, the permission-gated tab
 * switch, the content each tab renders, the permission-gated routes and the
 * persisted interface language.
 */
module AppShell {
  import opened Wrappers
  import opened Domain

  /** `getDashboardPath`: super admins land on their console, everybody else on the dashboard. */
  function DashboardPath(user: Option<User>): (path: string)
    ensures path == "/super-admin" <==> user.Some? && user.value.role == "super-admin"
    ensures path == "/super-admin" || path == "/dashboard"
  {
    if user.Some? && user.value.role == "super-admin" then "/super-admin" else "/dashboard"
  }

  /** The view permission a tab needs, if any: `profile` and unknown tabs need none. */
  function TabPermission(tab: string): Option<Flag>
  {
    if tab == "home" then Some(CanViewPanels)
    else if tab == "add-recipe" || tab == "workstation" then Some(CanViewRecipes)
    else if tab == "plate-up" then Some(CanViewPlateups)
    else if tab == "alerts" then Some(CanViewNotifications)
    else None
  }

  /** The guard of `handleTabChange`: a tab is refused when the user lacks its view permission. */
  predicate TabAllowed(user: Option<User>, tab: string)
    ensures tab == "profile" ==> TabAllowed(user, tab)
    ensures user.None? ==> (TabAllowed(user, tab) <==> tab !in {"home", "add-recipe", "workstation", "plate-up", "alerts"})
  {
    TabPermission(tab).None? || Can(user, TabPermission(tab).value)
  }

  /** The path an accepted tab navigates to. */
  function TabPath(tab: string): (path: string)
    ensures path == "/workstation" <==> tab == "workstation"
    ensures path == "/workstation" || path == "/dashboard"
  {
    if tab == "workstation" then "/workstation" else "/dashboard"
  }

  /** What the dashboard area shows. */
  datatype Content = Home | AddRecipe | PlateupFolders | WorkStation | Notifications | Profile | Blank

  /** `renderDashboardContent`: a tab renders only under its view permission; unknown tabs fall back to home. */
  function RenderedContent(user: Option<User>, tab: string): (c: Content)
    ensures tab == "profile" ==> c == Profile
    ensures c == Blank <==>
      (if TabPermission(tab).Some? then !Can(user, TabPermission(tab).value)
       else tab != "profile" && !Can(user, CanViewPanels))
  {
    match tab
    case "home" => if Can(user, CanViewPanels) then Home else Blank
    case "add-recipe" => if Can(user, CanViewRecipes) then AddRecipe else Blank
    case "plate-up" => if Can(user, CanViewPlateups) then PlateupFolders else Blank
    case "workstation" => if Can(user, CanViewRecipes) then WorkStation else Blank
    case "alerts" => if Can(user, CanViewNotifications) then Notifications else Blank
    case "profile" => Profile
    case _ => if Can(user, CanViewPanels) then Home else Blank
  }

  /** For the six named tabs, the tab switch accepts a tab exactly when that tab then renders something. */
  lemma AcceptedTabsRender(user: Option<User>, tab: string)
    requires tab in ["home", "add-recipe", "plate-up", "workstation", "alerts", "profile"]
    ensures TabAllowed(user, tab) <==> RenderedContent(user, tab) != Blank
  {
  }

  /** The routes guarded by a condition on the signed-in user. */
  const ConditionalRoutes: set<string> := {
    "/workstation", "/recipe/:id", "/manage-panels", "/create-panel", "/panels/:id", "/plateups",
    "/plateups/folder/:id", "/create-notification", "/team-management"
  }

  /** The routes that exist only under a condition on the signed-in user; every other route always exists. */
  predicate RouteExists(user: Option<User>, path: string)
    ensures user.None? ==> (RouteExists(user, path) <==> path !in ConditionalRoutes)
  {
    match path
    case "/workstation" => Can(user, CanViewRecipes)
    case "/recipe/:id" => Can(user, CanViewRecipes)
    case "/manage-panels" => Can(user, CanViewPanels)
    case "/create-panel" => Can(user, CanViewPanels)
    case "/panels/:id" => Can(user, CanViewPanels)
    case "/plateups" => Can(user, CanViewPlateups)
    case "/plateups/folder/:id" => Can(user, CanViewPlateups)
    case "/create-notification" => IsHeadChef(user) && Can(user, CanCreateNotifications)
    case "/team-management" => IsHeadChef(user) || Can(user, CanManageTeam)
    case _ => true
  }

  /** The team screen is reachable by head chefs and by members granted canManageTeam. */
  lemma TeamManagementRoute(user: Option<User>)
    ensures RouteExists(user, "/team-management") <==> IsHeadChef(user) || Can(user, CanManageTeam)
  {
  }

  /** The notification composer is reachable only by a head chef who may create notifications. */
  lemma CreateNotificationRoute(user: Option<User>)
    ensures RouteExists(user, "/create-notification") <==> IsHeadChef(user) && Can(user, CanCreateNotifications)
  {
  }

  /** The initial language: the stored 'locale' when it is a non-empty string, else 'en'. */
  function InitialLocale(storage: map<string, string>): (locale: string)
    ensures locale != ""
    ensures "locale" in storage && storage["locale"] != "" ==> locale == storage["locale"]
  {
    if "locale" in storage && storage["locale"] != "" then storage["locale"] else "en"
  }

  /** The shell's own state: the active tab, the language, browser storage and the last navigation. */
  class Shell {
    var activeTab: string
    var locale: string
    var storage: map<string, string>
    var location: Option<string>

    constructor (stored: map<string, string>)
      ensures activeTab == "home" && locale == InitialLocale(stored)
      ensures storage == stored && location == None
    {
      activeTab := "home";
      locale := InitialLocale(stored);
      storage := stored;
      location := None;
    }

    /** `handleTabChange`: a refused tab changes nothing; an accepted one becomes active and navigates. */
    method TabChange(user: Option<User>, tab: string)
      modifies this
      ensures !TabAllowed(user, tab) ==> activeTab == old(activeTab) && location == old(location)
      ensures TabAllowed(user, tab) ==> activeTab == tab && location == Some(TabPath(tab))
      ensures locale == old(locale) && storage == old(storage)
    {
      if !TabAllowed(user, tab) {
        return;
      }
      activeTab := tab;
      location := Some(TabPath(tab));
    }

    /** `handleLanguageSelect`: the language is kept, persisted under 'locale', and the login page opens. */
    method LanguageSelect(l: string)
      modifies this
      ensures locale == l && storage == old(storage)["locale" := l] && location == Some("/login")
      ensures activeTab == old(activeTab)
    {
      locale := l;
      storage := storage["locale" := l];
      location := Some("/login");
    }
  }

  /** An accepted tab change never navigates to a route the user lacks. */
  lemma AcceptedTabLandsOnRoute(user: Option<User>, tab: string)
    requires TabAllowed(user, tab)
    ensures RouteExists(user, TabPath(tab))
  {
  }

  /** A language chosen on the selection page is what the next start-up reads back. */
  lemma LanguageSurvivesReload(storage: map<string, string>, l: string)
    requires l != ""
    ensures InitialLocale(storage["locale" := l]) == l
  {
  }
}
