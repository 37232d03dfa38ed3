/**
 * The two navigation bars: the desktop sidebar, built from the signed-in user
 * of the session store, and the mobile bottom bar, built from the user stored
 * in browser storage. Both show an unread dot on the alerts tab.
 */
module Navigation {
  import opened Wrappers
  import opened Domain
  import opened UserCodec
  import opened AuthSlice
  import opened AppShell

  /** A navigation tab, in the bars' fixed order. */
  datatype Tab = HomeTab | AddRecipeTab | PlateUpTab | WorkstationTab | AlertsTab | ProfileTab
  {
    /** The id the bar passes to the shell's tab switch. */
    function Id(): string
    {
      match this
      case HomeTab => "home"
      case AddRecipeTab => "add-recipe"
      case PlateUpTab => "plate-up"
      case WorkstationTab => "workstation"
      case AlertsTab => "alerts"
      case ProfileTab => "profile"
    }

    /** The position in the fixed order. */
    function Rank(): nat
    {
      match this
      case HomeTab => 0
      case AddRecipeTab => 1
      case PlateUpTab => 2
      case WorkstationTab => 3
      case AlertsTab => 4
      case ProfileTab => 5
    }
  }

  /** The bars' fixed order. */
  const Order: seq<Tab> := [HomeTab, AddRecipeTab, PlateUpTab, WorkstationTab, AlertsTab, ProfileTab]

  /** Tabs listed in strictly increasing fixed order, so none appears twice. */
  predicate Increasing(tabs: seq<Tab>)
  {
    forall i, j :: 0 <= i < j < |tabs| ==> tabs[i].Rank() < tabs[j].Rank()
  }

  lemma OrderIncreasing()
    ensures Increasing(Order)
  {
  }

  /** Every tab has its place in the fixed order. */
  lemma InOrder(t: Tab)
    ensures t in Order
  {
  }

  /** The two bars. */
  datatype Bar = Sidebar | Bottom

  /**
   * Whether a bar shows a tab. The bars differ only on add-recipe: the sidebar
   * needs head chef or canManageTeam, the bottom bar a head chef; workstation
   * needs a user who is not a head chef.
   */
  predicate Shows(bar: Bar, user: Option<User>, t: Tab)
  {
    match t
    case HomeTab => Can(user, CanViewPanels)
    case AddRecipeTab =>
      (if bar == Sidebar then IsHeadChef(user) || Can(user, CanManageTeam) else IsHeadChef(user))
      && Can(user, CanViewRecipes)
    case PlateUpTab => Can(user, CanViewPlateups)
    case WorkstationTab => !IsHeadChef(user) && Can(user, CanViewRecipes)
    case AlertsTab => Can(user, CanViewNotifications)
    case ProfileTab => true
  }

  /** The tabs of `s` the bar shows, in the order of `s` (the chain of conditional spreads). */
  function Keep(s: seq<Tab>, bar: Bar, user: Option<User>): (r: seq<Tab>)
    ensures forall t :: t in r <==> t in s && Shows(bar, user, t)
  {
    if s == [] then []
    else
      assert forall t :: t in s <==> t == s[0] || t in s[1..];
      if Shows(bar, user, s[0]) then [s[0]] + Keep(s[1..], bar, user) else Keep(s[1..], bar, user)
  }

  /** Filtering keeps the fixed order. */
  lemma {:induction false} KeepIncreasing(s: seq<Tab>, bar: Bar, user: Option<User>)
    requires Increasing(s)
    ensures Increasing(Keep(s, bar, user))
  {
    if |s| > 0 {
      KeepIncreasing(s[1..], bar, user);
      var rest := Keep(s[1..], bar, user);
      if Shows(bar, user, s[0]) {
        forall t | t in rest
          ensures s[0].Rank() < t.Rank()
        {
          var j :| 0 <= j < |s[1..]| && s[1..][j] == t;
          assert s[j + 1] == t;
        }
        PrependIncreasing(s[0], rest);
      }
    }
  }

  /** A tab ranked before every tab of an increasing list keeps it increasing when put first. */
  lemma PrependIncreasing(t: Tab, rest: seq<Tab>)
    requires Increasing(rest)
    requires forall u :: u in rest ==> t.Rank() < u.Rank()
    ensures Increasing([t] + rest)
  {
    var r := [t] + rest;
    forall i, j | 0 <= i < j < |r|
      ensures r[i].Rank() < r[j].Rank()
    {
      assert r[j] == rest[j - 1];
      if i > 0 {
        assert r[i] == rest[i - 1];
      }
    }
  }

  /** A last tab that is always shown stays last. */
  lemma {:induction false} KeepLast(s: seq<Tab>, bar: Bar, user: Option<User>)
    requires |s| > 0 && Shows(bar, user, s[|s| - 1])
    ensures |Keep(s, bar, user)| > 0 && Keep(s, bar, user)[|Keep(s, bar, user)| - 1] == s[|s| - 1]
  {
    if |s| > 1 {
      KeepLast(s[1..], bar, user);
    }
  }

  /** A bar's `tabs`: the fixed order filtered by what the bar shows, so profile is always last. */
  function Tabs(bar: Bar, user: Option<User>): (tabs: seq<Tab>)
    ensures |tabs| > 0 && tabs[|tabs| - 1] == ProfileTab
    ensures forall t :: t in tabs <==> Shows(bar, user, t)
  {
    KeepLast(Order, bar, user);
    KeepOrder(bar, user);
    Keep(Order, bar, user)
  }

  /** Filtering the fixed order keeps exactly the tabs the bar shows. */
  lemma KeepOrder(bar: Bar, user: Option<User>)
    ensures forall t :: t in Keep(Order, bar, user) <==> Shows(bar, user, t)
  {
    forall t ensures t in Order { InOrder(t); }
  }

  /** A bar lists its tabs in the fixed order. */
  lemma TabsIncreasing(bar: Bar, user: Option<User>)
    ensures Increasing(Tabs(bar, user))
  {
    OrderIncreasing();
    KeepIncreasing(Order, bar, user);
  }

  /** The sidebar's tabs, one condition per tab. */
  lemma SidebarConditions(user: Option<User>)
    ensures HomeTab in Tabs(Sidebar, user) <==> Can(user, CanViewPanels)
    ensures AddRecipeTab in Tabs(Sidebar, user) <==>
      (IsHeadChef(user) || Can(user, CanManageTeam)) && Can(user, CanViewRecipes)
    ensures PlateUpTab in Tabs(Sidebar, user) <==> Can(user, CanViewPlateups)
    ensures WorkstationTab in Tabs(Sidebar, user) <==> !IsHeadChef(user) && Can(user, CanViewRecipes)
    ensures AlertsTab in Tabs(Sidebar, user) <==> Can(user, CanViewNotifications)
  {
  }

  /** The bottom bar's tabs: add-recipe and workstation never appear together. */
  lemma BottomConditions(user: Option<User>)
    ensures AddRecipeTab in Tabs(Bottom, user) <==> IsHeadChef(user) && Can(user, CanViewRecipes)
    ensures !(AddRecipeTab in Tabs(Bottom, user) && WorkstationTab in Tabs(Bottom, user))
  {
  }

  /** Without a user the bottom bar offers profile alone. */
  lemma BottomTabsWithoutUser()
    ensures Tabs(Bottom, None) == [ProfileTab]
  {
    TabsIncreasing(Bottom, None);
    var tabs := Tabs(Bottom, None);
    if |tabs| > 1 {
      assert false;
    }
  }

  /** Every bottom-bar tab is also a sidebar tab for the same user. */
  lemma BottomTabsInSidebar(user: Option<User>)
    ensures forall t :: t in Tabs(Bottom, user) ==> t in Tabs(Sidebar, user)
  {
  }

  /**
   * The sidebar can offer both add-recipe and workstation: a member who is not a
   * head chef but holds canManageTeam and canViewRecipes sees both.
   */
  lemma SidebarCanShowBoth(u: User)
    requires u.role != HeadChef && u.permissions.Some?
    requires Read(u.permissions.value, CanManageTeam) && Read(u.permissions.value, CanViewRecipes)
    ensures AddRecipeTab in Tabs(Sidebar, Some(u)) && WorkstationTab in Tabs(Sidebar, Some(u))
  {
  }

  /** No tab of either bar is one the shell's tab switch refuses. */
  lemma OfferedTabsAccepted(user: Option<User>)
    ensures forall t :: t in Tabs(Sidebar, user) ==> TabAllowed(user, t.Id())
    ensures forall t :: t in Tabs(Bottom, user) ==> TabAllowed(user, t.Id())
  {
    forall t | t in Tabs(Sidebar, user) ensures TabAllowed(user, t.Id()) {
      ShownTabAllowed(Sidebar, user, t);
    }
    forall t | t in Tabs(Bottom, user) ensures TabAllowed(user, t.Id()) {
      ShownTabAllowed(Bottom, user, t);
    }
  }

  /** A tab either bar shows carries the permission the shell's tab switch asks for. */
  lemma ShownTabAllowed(bar: Bar, user: Option<User>, t: Tab)
    requires Shows(bar, user, t)
    ensures TabAllowed(user, t.Id())
  {
  }

  /**
   * The bottom bar's user: `JSON.parse(localStorage.getItem('user') ?? 'null')`,
   * with `null` when the value is missing or does not parse.
   */
  function StoredUser(storage: map<string, string>): (user: Option<User>)
    ensures "user" !in storage ==> user == None
    ensures "user" in storage && DecodeStoredUser(storage["user"]).None? ==> user == None
    ensures "user" in storage && DecodeStoredUser(storage["user"]).Some? ==> user == DecodeStoredUser(storage["user"]).value
  {
    if "user" !in storage then None
    else match DecodeStoredUser(storage["user"])
      case None => None
      case Some(u) => u
  }

  /** After sign-in stores credentials, the bottom bar sees the session's user. */
  lemma StoredUserAfterSetCredentials(storage: map<string, string>, c: Credentials)
    ensures StoredUser(StoreCredentials(storage, c)) == c.user
  {
    DecodeEncodeStoredUser(c.user);
  }

  /** After logout clears storage, the bottom bar shows only profile. */
  lemma BottomTabsAfterLogout()
    ensures Tabs(Bottom, StoredUser(map[])) == [ProfileTab]
  {
    BottomTabsWithoutUser();
  }

  /** The stored unread flag: exactly the text 'true'. */
  predicate UnreadIn(storage: map<string, string>)
  {
    "unreadNotifications" in storage && storage["unreadNotifications"] == "true"
  }

  /** The unread dot is drawn on the alerts tab only. */
  predicate Dot(tab: Tab, unread: bool)
  {
    tab == AlertsTab && unread
  }

  /**
   * In either bar the dot sits on no tab but alerts, and on alerts exactly when
   * the stored flag is 'true' and the user may view notifications.
   */
  lemma DotPlacement(bar: Bar, user: Option<User>, storage: map<string, string>)
    ensures forall i :: 0 <= i < |Tabs(bar, user)| && Dot(Tabs(bar, user)[i], UnreadIn(storage)) ==>
      Tabs(bar, user)[i] == AlertsTab
    ensures forall i, j :: 0 <= i < j < |Tabs(bar, user)| ==>
      !(Dot(Tabs(bar, user)[i], UnreadIn(storage)) && Dot(Tabs(bar, user)[j], UnreadIn(storage)))
    ensures (exists i :: 0 <= i < |Tabs(bar, user)| && Dot(Tabs(bar, user)[i], UnreadIn(storage))) <==>
      UnreadIn(storage) && Can(user, CanViewNotifications)
  {
    TabsIncreasing(bar, user);
    var tabs := Tabs(bar, user);
    if UnreadIn(storage) && Can(user, CanViewNotifications) {
      assert AlertsTab in tabs;
      var i :| 0 <= i < |tabs| && tabs[i] == AlertsTab;
      assert Dot(tabs[i], UnreadIn(storage));
    } else {
      forall i | 0 <= i < |tabs| ensures !Dot(tabs[i], UnreadIn(storage)) {
        if tabs[i] == AlertsTab {
          assert AlertsTab in tabs;
        }
      }
    }
  }

  /** The unread flag both bars hold: read from storage on mount and kept up to date by storage events. */
  class UnreadFlag {
    var unread: bool

    /** The first render, before the effect has run. */
    constructor ()
      ensures !unread
    {
      unread := false;
    }

    /** The mount effect. */
    method Mount(storage: map<string, string>)
      modifies this
      ensures unread == UnreadIn(storage)
    {
      unread := "unreadNotifications" in storage && storage["unreadNotifications"] == "true";
    }

    /** A `storage` event from another tab: only the 'unreadNotifications' key matters. */
    method StorageEvent(key: Option<string>, newValue: Option<string>)
      modifies this
      ensures key == Some("unreadNotifications") ==> unread == (newValue == Some("true"))
      ensures key != Some("unreadNotifications") ==> unread == old(unread)
    {
      if key == Some("unreadNotifications") {
        unread := newValue == Some("true");
      }
    }
  }
}
