/**
 * The head chef's dashboard: the restaurant name behind the staff login link,
 * the link itself, the category list, the three search filters and the panel
 * rename and delete handlers.
 */
module Dashboard {
  import opened Wrappers
  import opened Text
  import opened Wire
  import opened Domain
  import opened Lists
  import opened PanelOrder

  /**
   * `getRestaurantName`: the stored 'organizationName' unless it is missing,
   * empty, 'Organization' or 'restaurant'; then the user's organization unless it
   * is missing, empty or 'restaurant'; then 'my-restaurant'.
   */
  function RestaurantName(stored: Option<string>, user: Option<User>): (name: string)
    ensures name != "" && name != "restaurant"
    ensures name == "my-restaurant" || (Some(name) == stored && name != "Organization") ||
      (user.Some? && Some(name) == user.value.organization)
  {
    if stored.Some? && stored.value != "" && stored.value != "Organization" && stored.value != "restaurant" then
      stored.value
    else if user.Some? && user.value.organization.Some? && user.value.organization.value != ""
      && user.value.organization.value != "restaurant" then
      user.value.organization.value
    else "my-restaurant"
  }

  /** A usable stored name always wins over the user's organization. */
  lemma StoredNameWins(name: string, user: Option<User>)
    requires name != "" && name != "Organization" && name != "restaurant"
    ensures RestaurantName(Some(name), user) == name
  {
  }

  /** Without a usable stored name, a usable organization of the signed-in user is the result. */
  lemma OrganisationUsed(stored: Option<string>, user: Option<User>)
    requires stored.None? || stored.value in {"", "Organization", "restaurant"}
    requires user.Some? && user.value.organization.Some?
    requires user.value.organization.value !in {"", "restaurant"}
    ensures RestaurantName(stored, user) == user.value.organization.value
  {
  }

  /** Without a usable stored name or organization the fallback is 'my-restaurant'. */
  lemma RestaurantNameFallback(stored: Option<string>, user: Option<User>)
    requires stored.None? || stored.value in {"", "Organization", "restaurant"}
    requires user.None? || user.value.organization.None? || user.value.organization.value in {"", "restaurant"}
    ensures RestaurantName(stored, user) == "my-restaurant"
  {
  }

  /** `name.toLowerCase().replace(/\s+/g, '-')`. */
  function Slug(name: string): (slug: string)
    ensures |slug| <= |name|
    ensures forall c :: c in slug ==> !IsSpace(c) && !('A' <= c <= 'Z')
  {
    CollapseRunsChars(ToLower(name), IsSpace, '-');
    LowerNoCapitals(name);
    CollapseRuns(ToLower(name), IsSpace, '-')
  }

  /** A slug is its own slug, so the link is stable under re-formatting. */
  lemma SlugIdempotent(name: string)
    ensures Slug(Slug(name)) == Slug(name)
  {
    var s := Slug(name);
    ToLowerOfLower(s);
    CollapseRunsFixed(s, IsSpace, '-');
  }

  /** `restaurantLoginUrl`: the page origin, '/login/' and the slug. */
  function LoginUrl(origin: string, name: string): (url: string)
    ensures |url| == |origin| + 7 + |Slug(name)|
    ensures url[..|origin|] == origin && url[|origin|..|origin| + 7] == "/login/"
    ensures url[|origin| + 7..] == Slug(name)
  {
    origin + "/login/" + Slug(name)
  }

  /** A category card. */
  datatype Category = Category(id: string, name: string, recipeCount: Number, icon: string)

  function CategoryOf(p: Panel): Category
  {
    Category(p.id, p.name, p.recipeCount, "utensils")
  }

  /** `categories`: the fetched panels, copied and sorted by order, as cards; no panels give none. */
  function Categories(panels: Option<seq<Panel>>): (cs: seq<Category>)
    ensures panels.None? ==> cs == []
    ensures panels.Some? ==> |cs| == |panels.value|
    ensures panels.Some? ==> forall i :: 0 <= i < |cs| ==> cs[i] == CategoryOf(SortPanels(panels.value)[i])
  {
    var sorted := SortPanels(panels.GetOr([]));
    seq(|sorted|, i requires 0 <= i < |sorted| => CategoryOf(sorted[i]))
  }

  /** The cards are exactly the panels' cards, ascending by order, all with the utensils icon. */
  lemma CategoriesOfPanels(panels: seq<Panel>)
    ensures forall c :: c in Categories(Some(panels)) <==> exists p :: p in panels && c == CategoryOf(p)
    ensures forall i :: 0 <= i < |Categories(Some(panels))| ==> Categories(Some(panels))[i].icon == "utensils"
    ensures forall i, j :: 0 <= i < j < |panels| ==>
      OrderKey(SortPanels(panels)[i]) <= OrderKey(SortPanels(panels)[j])
  {
    SortPanelsAscending(panels);
    var sorted := SortPanels(panels);
    var cs := Categories(Some(panels));
    forall c
      ensures c in cs <==> exists p :: p in panels && c == CategoryOf(p)
    {
      if c in cs {
        var i :| 0 <= i < |cs| && cs[i] == c;
        assert sorted[i] in multiset(sorted);
      }
      if exists p :: p in panels && c == CategoryOf(p) {
        var p :| p in panels && c == CategoryOf(p);
        assert p in multiset(sorted);
        var i :| 0 <= i < |sorted| && sorted[i] == p;
        assert cs[i] == c;
      }
    }
  }

  /** `text.toLowerCase().includes(q.toLowerCase())`. */
  predicate Matches(text: string, q: string)
  {
    Contains(ToLower(text), ToLower(q))
  }

  /** Every text matches the empty query. */
  lemma EmptyQueryMatches(text: string)
    ensures Matches(text, "")
  {
  }

  /** `filteredCategories`. */
  function FilterCategories(cs: seq<Category>, q: string): (r: seq<Category>)
    ensures forall c :: c in r <==> c in cs && Matches(c.name, q)
  {
    Filter(cs, (c: Category) => Matches(c.name, q))
  }

  /** An empty query keeps every category, in order. */
  lemma FilterCategoriesEmptyQuery(cs: seq<Category>)
    ensures FilterCategories(cs, "") == cs
  {
    forall i | 0 <= i < |cs| ensures Matches(cs[i].name, "") {
      EmptyQueryMatches(cs[i].name);
    }
    FilterAll(cs, (c: Category) => Matches(c.name, ""));
  }

  /** `panelMap`: panels by id, a later panel replacing an earlier one with the same id. */
  function PanelIndex(panels: seq<Panel>): (m: map<string, Panel>)
    ensures forall id :: id in m <==> exists i :: 0 <= i < |panels| && panels[i].id == id
    ensures forall id :: id in m ==> m[id] in panels && m[id].id == id
  {
    if panels == [] then map[]
    else
      var last := panels[|panels| - 1];
      var m := PanelIndex(panels[..|panels| - 1]);
      assert forall i :: 0 <= i < |panels| - 1 ==> panels[..|panels| - 1][i] == panels[i];
      m[last.id := last]
  }

  /** The panel an id maps to is the last panel with that id. */
  lemma {:induction false} PanelIndexLast(panels: seq<Panel>, i: nat)
    requires i < |panels|
    requires forall j :: i < j < |panels| ==> panels[j].id != panels[i].id
    ensures PanelIndex(panels)[panels[i].id] == panels[i]
  {
    if i < |panels| - 1 {
      PanelIndexLast(panels[..|panels| - 1], i);
    }
  }

  /** The `forEach` that fills `panelMap`. */
  method BuildPanelIndex(panels: seq<Panel>) returns (m: map<string, Panel>)
    ensures m == PanelIndex(panels)
  {
    m := map[];
    var k := 0;
    while k < |panels|
      invariant k <= |panels|
      invariant m == PanelIndex(panels[..k])
    {
      assert panels[..k + 1][..k] == panels[..k];
      m := m[panels[k].id := panels[k]];
      k := k + 1;
    }
    assert panels[..k] == panels;
  }

  /** A recipe matches when its title does, or when the panel it names exists and that panel's name does. */
  predicate RecipeMatches(r: Recipe, index: map<string, Panel>, q: string)
  {
    Matches(r.title, q) || (r.panel in index && Matches(index[r.panel].name, q))
  }

  /** `filteredRecipes`: no recipes give none. */
  function FilterRecipes(recipes: Option<seq<Recipe>>, panels: seq<Panel>, q: string): (r: seq<Recipe>)
    ensures recipes.None? ==> r == []
    ensures recipes.Some? ==> forall x :: x in r <==> x in recipes.value && RecipeMatches(x, PanelIndex(panels), q)
  {
    if recipes.None? then []
    else
      var index := PanelIndex(panels);
      Filter(recipes.value, (x: Recipe) => RecipeMatches(x, index, q))
  }

  /** A recipe whose title does not match is still found through the name of its panel. */
  lemma RecipeFoundByPanelName(r: Recipe, recipes: seq<Recipe>, p: Panel, panels: seq<Panel>, q: string)
    requires r in recipes && p in panels && r.panel == p.id
    requires forall j :: 0 <= j < |panels| && panels[j].id == p.id ==> panels[j] == p
    requires Matches(p.name, q)
    ensures r in FilterRecipes(Some(recipes), panels, q)
  {
    assert p.id in PanelIndex(panels);
  }

  /** `filteredPlateups`: no plate-ups give none. */
  function FilterPlateups(plateups: Option<seq<Plateup>>, q: string): (r: seq<Plateup>)
    ensures plateups.None? ==> r == []
    ensures plateups.Some? ==> forall x :: x in r <==> x in plateups.value && Matches(x.name, q)
  {
    if plateups.None? then [] else Filter(plateups.value, (x: Plateup) => Matches(x.name, q))
  }

  /** `showSearchResults`: the results replace the dashboard exactly when the query has a non-blank character. */
  function ShowSearchResults(q: string): (show: bool)
    ensures show <==> !IsBlank(q)
  {
    |Trim(q)| > 0
  }

  /** The panel update the rename sends: a form with the trimmed name. */
  datatype PanelRequest = RenamePanel(id: string, name: string) | DeletePanel(id: string)

  /** A panel as the menu hands it to the handlers. */
  datatype PanelRef = PanelRef(id: string, name: string)

  /** The dashboard's panel menu state. */
  class PanelMenu {
    var openMenuId: Option<string>
    var deletingId: Option<string>
    var showDeleteConfirm: bool
    var panelToDelete: Option<PanelRef>
    var showEditForm: bool
    var editingPanel: Option<PanelRef>
    var editTitle: string
    var editError: Option<string>
    var editLoading: bool

    constructor ()
      ensures openMenuId == None && deletingId == None && !showDeleteConfirm && panelToDelete == None
      ensures !showEditForm && editingPanel == None && editTitle == "" && editError == None && !editLoading
    {
      openMenuId := None;
      deletingId := None;
      showDeleteConfirm := false;
      panelToDelete := None;
      showEditForm := false;
      editingPanel := None;
      editTitle := "";
      editError := None;
      editLoading := false;
    }

    /** `handlePanelDeleteClick`: the panel awaits confirmation and the menu closes. */
    method PanelDeleteClick(panel: PanelRef)
      modifies this
      ensures panelToDelete == Some(panel) && showDeleteConfirm && openMenuId == None
      ensures deletingId == old(deletingId) && showEditForm == old(showEditForm)
      ensures editingPanel == old(editingPanel) && editTitle == old(editTitle)
      ensures editError == old(editError) && editLoading == old(editLoading)
    {
      panelToDelete := Some(panel);
      showDeleteConfirm := true;
      openMenuId := None;
    }

    /** `handlePanelEdit`: the form opens on the panel's current name and the menu closes. */
    method PanelEdit(panel: PanelRef)
      modifies this
      ensures editingPanel == Some(panel) && editTitle == panel.name && showEditForm && openMenuId == None
      ensures editError == old(editError) && editLoading == old(editLoading)
      ensures deletingId == old(deletingId) && showDeleteConfirm == old(showDeleteConfirm)
      ensures panelToDelete == old(panelToDelete)
    {
      editingPanel := Some(panel);
      editTitle := panel.name;
      showEditForm := true;
      openMenuId := None;
    }

    /**
     * `handlePanelEditSave`: nothing without a panel being edited; a blank title
     * gives 'Title is required.' and sends nothing; otherwise the trimmed title is
     * sent, and success (`ok`) closes and clears the form while failure sets the
     * failure message.
     */
    method PanelEditSave(ok: bool) returns (sent: Option<PanelRequest>)
      modifies this
      ensures old(editingPanel).None? || IsBlank(old(editTitle)) ==> sent == None
      ensures old(editingPanel).None? ==> editError == old(editError)
      ensures old(editingPanel).Some? && IsBlank(old(editTitle)) ==> editError == Some("Title is required.")
      ensures old(editingPanel).Some? && !IsBlank(old(editTitle)) ==>
        sent == Some(RenamePanel(old(editingPanel).value.id, Trim(old(editTitle))))
      ensures old(editingPanel).Some? && !IsBlank(old(editTitle)) && ok ==>
        !showEditForm && editingPanel == None && editTitle == "" && editError == None
      ensures old(editingPanel).Some? && !IsBlank(old(editTitle)) && !ok ==>
        editError == Some("Update panel failed. Please try again.")
      ensures old(editingPanel).None? || IsBlank(old(editTitle)) || !ok ==>
        showEditForm == old(showEditForm) && editingPanel == old(editingPanel) && editTitle == old(editTitle)
      ensures editLoading == old(editLoading) || !editLoading
      ensures openMenuId == old(openMenuId) && deletingId == old(deletingId)
      ensures showDeleteConfirm == old(showDeleteConfirm) && panelToDelete == old(panelToDelete)
    {
      if editingPanel.None? {
        sent := None;
      } else if IsBlank(editTitle) {
        editError := Some("Title is required.");
        sent := None;
      } else {
        editError := None;
        editLoading := true;
        sent := Some(RenamePanel(editingPanel.value.id, Trim(editTitle)));
        if ok {
          PanelEditCancel();
        } else {
          editError := Some("Update panel failed. Please try again.");
        }
        editLoading := false;
      }
    }

    /** `handlePanelEditCancel`. */
    method PanelEditCancel()
      modifies this
      ensures !showEditForm && editingPanel == None && editTitle == "" && editError == None
      ensures editLoading == old(editLoading) && openMenuId == old(openMenuId) && deletingId == old(deletingId)
      ensures showDeleteConfirm == old(showDeleteConfirm) && panelToDelete == old(panelToDelete)
    {
      showEditForm := false;
      editingPanel := None;
      editTitle := "";
      editError := None;
    }

    /**
     * `handlePanelDeleteConfirm`: nothing without a pending panel; otherwise the
     * delete is sent and, whatever its outcome, the pending panel and the deleting
     * marker are cleared and the confirmation is closed.
     */
    method PanelDeleteConfirm() returns (sent: Option<PanelRequest>)
      modifies this
      ensures old(panelToDelete).None? ==>
        sent == None && showDeleteConfirm == old(showDeleteConfirm) && deletingId == old(deletingId)
      ensures old(panelToDelete).Some? ==>
        sent == Some(DeletePanel(old(panelToDelete).value.id)) && !showDeleteConfirm && deletingId == None
      ensures panelToDelete == None
      ensures showEditForm == old(showEditForm) && editingPanel == old(editingPanel) && editTitle == old(editTitle)
      ensures editError == old(editError) && editLoading == old(editLoading) && openMenuId == old(openMenuId)
    {
      if panelToDelete.None? {
        return None;
      }
      deletingId := Some(panelToDelete.value.id);
      showDeleteConfirm := false;
      sent := Some(DeletePanel(panelToDelete.value.id));
      deletingId := None;
      panelToDelete := None;
    }

    /** `handlePanelDeleteCancel`. */
    method PanelDeleteCancel()
      modifies this
      ensures !showDeleteConfirm && panelToDelete == None
      ensures deletingId == old(deletingId) && showEditForm == old(showEditForm) && editingPanel == old(editingPanel)
      ensures editTitle == old(editTitle) && editError == old(editError) && editLoading == old(editLoading)
      ensures openMenuId == old(openMenuId)
    {
      showDeleteConfirm := false;
      panelToDelete := None;
    }
  }
}
