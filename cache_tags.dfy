/**
 * The cache-tag relation of the data-access layer: the `(type, id)` tags each
 * query's cached result provides and the tags each mutation invalidates. A
 * cached result is stale after a mutation when the two share a tag.
 */
module CacheTags {
  import opened Wrappers

  datatype TagType = PanelTag | RecipeTag | UserTag | ChefTag | AuthTag | NotificationTag
                   | PlateupTag | PlateupFolderTag | RestaurantTag

  /** A tag; the fixed ids `LIST`, `SAVED`, `UNREAD`, `PENDING_LIST`, `SESSION`, `REQUESTS`, `MY_RESTAURANT` are plain strings. */
  datatype Tag = Tag(kind: TagType, id: string)

  datatype Query =
    | GetRecipes | GetRecipe(id: string) | GetChefRequest(id: string)
    | GetPanels | GetPanel(id: string)
    | GetPlateups | GetPlateupFolders | GetPlateupsByFolder(folderId: string)
    | GetTeamMembers | GetNotifications | GetUnreadCount | GetMyRestaurant
    | GetPendingRequests | GetSavedRecipes

  datatype Mutation =
    | CreateRecipe | UpdateRecipe(id: string) | DeleteRecipe(id: string) | UploadIngredientImage
    | Login | LoginChef | QrAuth | Register | RefreshToken | Logout | ForgotPassword | ResetPassword
    | RequestChefAccess
    | CreatePanel | UpdatePanel(id: string) | DeletePanel(id: string) | ReorderPanels
    | CreatePlateup | CreatePlateupInFolder(folderId: string) | DeletePlateup(id: string)
    | UpdatePlateup(id: string)
    | CreatePlateupFolder | UpdatePlateupFolder(id: string) | DeletePlateupFolder(id: string)
    | UpdateTeamMember(id: string) | DeleteTeamMember(id: string)
    | MarkNotificationRead(id: string) | MarkAllNotificationsRead | SendNotification
    | DeleteNotification(id: string)
    | UpdatePendingRequest(id: string) | SaveRecipe(recipeId: string) | UnsaveRecipe(recipeId: string)

  /**
   * The tags of a list query: one per returned record plus the list tag, or the
   * list tag alone when the query has no result.
   */
  function ListTags(kind: TagType, listId: string, ids: Option<seq<string>>): (tags: seq<Tag>)
    ensures forall t :: t in tags <==> t == Tag(kind, listId) || (ids.Some? && t.kind == kind && t.id in ids.value)
  {
    if ids.None? then [Tag(kind, listId)]
    else
      var tags := seq(|ids.value|, i requires 0 <= i < |ids.value| => Tag(kind, ids.value[i])) + [Tag(kind, listId)];
      assert forall x :: x in ids.value ==> Tag(kind, x) in tags by {
        forall x | x in ids.value ensures Tag(kind, x) in tags {
          var i :| 0 <= i < |ids.value| && ids.value[i] == x;
          assert tags[i] == Tag(kind, x);
        }
      }
      tags
  }

  /** The tags a query's cached result provides; `ids` are the ids of the records it returned, if any. */
  function Provides(q: Query, ids: Option<seq<string>>): (tags: seq<Tag>)
    ensures |tags| > 0
  {
    match q
    case GetRecipes => ListTags(RecipeTag, "LIST", ids)
    case GetRecipe(id) => [Tag(RecipeTag, id)]
    case GetChefRequest(id) => [Tag(ChefTag, id)]
    case GetPanels => ListTags(PanelTag, "LIST", ids)
    case GetPanel(id) => [Tag(PanelTag, id)]
    case GetPlateups => ListTags(PlateupTag, "LIST", ids)
    case GetPlateupFolders => ListTags(PlateupFolderTag, "LIST", ids)
    case GetPlateupsByFolder(folderId) => [Tag(PlateupFolderTag, folderId), Tag(PlateupTag, "LIST")]
    case GetTeamMembers => ListTags(UserTag, "LIST", ids)
    case GetNotifications => [Tag(NotificationTag, "LIST")]
    case GetUnreadCount => [Tag(NotificationTag, "UNREAD")]
    case GetMyRestaurant => [Tag(RestaurantTag, "MY_RESTAURANT")]
    case GetPendingRequests => ListTags(UserTag, "PENDING_LIST", ids)
    case GetSavedRecipes => [Tag(RecipeTag, "SAVED")]
  }

  /** The tags a mutation invalidates. */
  function Invalidates(m: Mutation): (tags: seq<Tag>)
    ensures |tags| == 0 <==> m == ForgotPassword || m == ResetPassword
  {
    match m
    case CreateRecipe => [Tag(RecipeTag, "LIST")]
    case UpdateRecipe(id) => [Tag(RecipeTag, id), Tag(RecipeTag, "LIST")]
    case DeleteRecipe(_) => [Tag(RecipeTag, "LIST")]
    case UploadIngredientImage => [Tag(RecipeTag, "LIST")]
    case Login => [Tag(AuthTag, "SESSION")]
    case LoginChef => [Tag(AuthTag, "SESSION")]
    case QrAuth => [Tag(AuthTag, "SESSION")]
    case Register => [Tag(AuthTag, "SESSION")]
    case RefreshToken => [Tag(AuthTag, "SESSION")]
    case Logout => [Tag(AuthTag, "SESSION")]
    case ForgotPassword => []
    case ResetPassword => []
    case RequestChefAccess => [Tag(ChefTag, "REQUESTS")]
    case CreatePanel => [Tag(PanelTag, "LIST")]
    case UpdatePanel(id) => [Tag(PanelTag, id)]
    case DeletePanel(id) => [Tag(PanelTag, id)]
    case ReorderPanels => [Tag(PanelTag, "LIST")]
    case CreatePlateup => [Tag(PlateupTag, "LIST")]
    case CreatePlateupInFolder(folderId) => [Tag(PlateupTag, "LIST"), Tag(PlateupFolderTag, folderId)]
    case DeletePlateup(id) => [Tag(PlateupTag, id), Tag(PlateupTag, "LIST")]
    case UpdatePlateup(id) => [Tag(PlateupTag, id), Tag(PlateupTag, "LIST")]
    case CreatePlateupFolder => [Tag(PlateupFolderTag, "LIST")]
    case UpdatePlateupFolder(id) => [Tag(PlateupFolderTag, id)]
    case DeletePlateupFolder(id) => [Tag(PlateupFolderTag, id), Tag(PlateupFolderTag, "LIST")]
    case UpdateTeamMember(id) => [Tag(UserTag, id)]
    case DeleteTeamMember(id) => [Tag(UserTag, id)]
    case MarkNotificationRead(id) =>
      [Tag(NotificationTag, id), Tag(NotificationTag, "LIST"), Tag(NotificationTag, "UNREAD")]
    case MarkAllNotificationsRead => [Tag(NotificationTag, "LIST"), Tag(NotificationTag, "UNREAD")]
    case SendNotification => [Tag(NotificationTag, "LIST")]
    case DeleteNotification(id) =>
      [Tag(NotificationTag, id), Tag(NotificationTag, "LIST"), Tag(NotificationTag, "UNREAD")]
    case UpdatePendingRequest(id) => [Tag(UserTag, id), Tag(UserTag, "PENDING_LIST"), Tag(UserTag, "LIST")]
    case SaveRecipe(_) => [Tag(RecipeTag, "SAVED")]
    case UnsaveRecipe(_) => [Tag(RecipeTag, "SAVED")]
  }

  /** A cached query result is refetched after a mutation when they share a tag. */
  predicate Stale(m: Mutation, q: Query, ids: Option<seq<string>>)
  {
    exists t :: t in Provides(q, ids) && t in Invalidates(m)
  }

  /** The record a mutation changes or removes, as `(type, id)`. */
  function Target(m: Mutation): Option<(TagType, string)>
  {
    match m
    case UpdateRecipe(id) => Some((RecipeTag, id))
    case DeleteRecipe(id) => Some((RecipeTag, id))
    case UpdatePanel(id) => Some((PanelTag, id))
    case DeletePanel(id) => Some((PanelTag, id))
    case DeletePlateup(id) => Some((PlateupTag, id))
    case UpdatePlateup(id) => Some((PlateupTag, id))
    case UpdatePlateupFolder(id) => Some((PlateupFolderTag, id))
    case DeletePlateupFolder(id) => Some((PlateupFolderTag, id))
    case UpdateTeamMember(id) => Some((UserTag, id))
    case DeleteTeamMember(id) => Some((UserTag, id))
    case MarkNotificationRead(id) => Some((NotificationTag, id))
    case DeleteNotification(id) => Some((NotificationTag, id))
    case UpdatePendingRequest(id) => Some((UserTag, id))
    case _ => None
  }

  /** The record type a list query returns. */
  function ListKind(q: Query): Option<TagType>
  {
    match q
    case GetRecipes => Some(RecipeTag)
    case GetPanels => Some(PanelTag)
    case GetPlateups => Some(PlateupTag)
    case GetPlateupFolders => Some(PlateupFolderTag)
    case GetTeamMembers => Some(UserTag)
    case GetNotifications => Some(NotificationTag)
    case GetPendingRequests => Some(UserTag)
    case _ => None
  }

  /**
   * Although the invalidation lists differ from one mutation to the next, every
   * update or delete of a record stales every cached list of its type that
   * contains that record.
   */
  lemma {:induction false} ChangedRecordStalesListsContainingIt(m: Mutation, q: Query, ids: seq<string>)
    requires Target(m).Some? && ListKind(q) == Some(Target(m).value.0)
    requires Target(m).value.1 in ids
    ensures Stale(m, q, Some(ids))
  {
    var x := Target(m).value.1;
    var k := Target(m).value.0;
    if q.GetNotifications? {
      NotificationTargetStalesList(m);
      assert Tag(NotificationTag, "LIST") in Provides(q, Some(ids));
    } else {
      ListHoldsRecord(q, ids, x);
      if m.DeleteRecipe? {
        assert Tag(RecipeTag, "LIST") in Provides(q, Some(ids));
      } else {
        TargetInvalidated(m);
      }
    }
  }

  /** Every mutation with a target but `DeleteRecipe` invalidates the target's own tag. */
  lemma TargetInvalidated(m: Mutation)
    requires Target(m).Some? && !m.DeleteRecipe?
    ensures Tag(Target(m).value.0, Target(m).value.1) in Invalidates(m)
  {
  }

  /** The mutations whose target is a notification invalidate the notification list. */
  lemma NotificationTargetStalesList(m: Mutation)
    requires Target(m).Some? && Target(m).value.0 == NotificationTag
    ensures Tag(NotificationTag, "LIST") in Invalidates(m)
  {
  }

  /** A list query that returned a record provides that record's tag, and its own list tag. */
  lemma ListHoldsRecord(q: Query, ids: seq<string>, x: string)
    requires ListKind(q).Some? && !q.GetNotifications? && x in ids
    ensures Tag(ListKind(q).value, x) in Provides(q, Some(ids))
    ensures q != GetPendingRequests ==> Tag(ListKind(q).value, "LIST") in Provides(q, Some(ids))
  {
  }

  /** Updating or deleting a panel by id stales every cached panel list holding it, and no failed one. */
  lemma PanelChangeStalesPanelList(x: string, ids: Option<seq<string>>)
    requires x != "LIST"
    ensures Stale(UpdatePanel(x), GetPanels, ids) <==> ids.Some? && x in ids.value
    ensures Stale(DeletePanel(x), GetPanels, ids) <==> ids.Some? && x in ids.value
  {
    if ids.Some? && x in ids.value {
      assert Tag(PanelTag, x) in Provides(GetPanels, ids);
    }
  }

  /** Deleting a recipe leaves that recipe's own cached result in place. */
  lemma DeleteRecipeKeepsSingleRecipe(x: string, ids: Option<seq<string>>)
    requires x != "LIST"
    ensures !Stale(DeleteRecipe(x), GetRecipe(x), ids)
    ensures Stale(UpdateRecipe(x), GetRecipe(x), ids)
  {
    assert Tag(RecipeTag, x) in Provides(GetRecipe(x), ids);
  }

  /** Creating a plate-up in a folder stales that folder's view and every plate-up list. */
  lemma CreateInFolderStalesFolderView(f: string, g: string, ids: Option<seq<string>>)
    ensures Stale(CreatePlateupInFolder(f), GetPlateupsByFolder(g), ids)
    ensures Stale(CreatePlateupInFolder(f), GetPlateups, ids)
  {
    assert Tag(PlateupTag, "LIST") in Provides(GetPlateupsByFolder(g), ids);
    assert Tag(PlateupTag, "LIST") in Provides(GetPlateups, ids);
  }

  /** The password-reset mutations stale nothing. */
  lemma QuietMutations(q: Query, ids: Option<seq<string>>)
    ensures !Stale(ForgotPassword, q, ids) && !Stale(ResetPassword, q, ids)
  {
    InvalidatesNothing(ForgotPassword, q, ids);
    InvalidatesNothing(ResetPassword, q, ids);
  }

  /** A mutation that invalidates no tag stales no query. */
  lemma InvalidatesNothing(m: Mutation, q: Query, ids: Option<seq<string>>)
    requires |Invalidates(m)| == 0
    ensures !Stale(m, q, ids)
  {
  }

  /** Saving or unsaving a recipe stales the saved list. */
  lemma SavingStalesSavedList(ids: Option<seq<string>>, r: string)
    ensures Stale(SaveRecipe(r), GetSavedRecipes, ids) && Stale(UnsaveRecipe(r), GetSavedRecipes, ids)
  {
    assert Tag(RecipeTag, "SAVED") in Provides(GetSavedRecipes, ids);
  }
}
