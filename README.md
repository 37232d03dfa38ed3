# Chef en Place front end — a Dafny model

Chef en Place is a web app for restaurant kitchens. A head chef keeps recipe
folders ("panels"), recipes, plate-up reference photos and notifications for
the team, and grants every chef a set of permission flags. Restaurants sign
up through a wizard, and chefs log in by restaurant name or by an invitation
link. A super-admin screen lists every restaurant with its plan and trial
state.

This project models the client-side logic of that front end:

- **API layer** (`src/features/api/apiSlice.ts`):
  - normalisation of server records into the app's own types (`WireNormalisers`);
  - the bearer header and the single refresh-and-retry on a 401 (`ReauthQuery`);
  - the cache-tag scheme that decides which queries a mutation makes stale (`CacheTags`).
- **Auth slice** (`src/features/auth/authSlice.ts`): the credentials store and
  its mirror in local storage (`AuthSlice`). The stored user is written as an
  injective string encoding with a proved round trip (`UserCodec`).
- **Navigation**: which tabs the sidebar and the bottom bar offer for a user,
  the tabs and routes the app shell accepts, the language choice, and the
  unread-notifications flag (`Navigation`, `AppShell`).
- **Screens, one module per source file**, with React state as class fields
  and each event handler as a method:
  - the dashboard, the panel manager, the profile screen and team management;
  - the plate-up screens, add-recipe and create-notification;
  - restaurant signup and login, the chef access request and payment success;
  - the super-admin and admin tables, and the admin data provider.
  - Server replies are parameters of these methods: an `ok` flag, a reply
    value or a JSON body.
- **Shared modules**:
  - `Wrappers`: Option and Result;
  - `Text`: trimming, case, splitting and joining, digits;
  - `Wire`: JSON values and JavaScript's truthiness, `||` and `String()`
    coercions;
  - `Sorting`: a stable insertion sort, as `Array.prototype.sort` is stable;
  - `Domain`: the records of `src/lib/types.ts`, with the eighteen permission
    flags as an indexed bit set;
  - `PanelOrder`: ordering panels by their `order` number;
  - `PermissionNames`: facts about the flags' literal key names;
  - `ImageUpload`: the photo checks shared by two screens.

Conventions of the model:

- Whitespace is the six ASCII white-space characters.
- Upper- and lower-casing are ASCII only.
- `localeCompare` is lexicographic order on characters.
- JSON numbers are integers, with a `NaN` marker for failed conversions.

Not every mutation invalidates both the changed record's id tag and its list
tag:

- `updatePanel` and `deletePanel` invalidate only the id tag (apiSlice.ts:441,449);
- `deleteRecipe` invalidates only the list tag (apiSlice.ts:284).

`CacheTags` states the consequences in `PanelChangeStalesPanelList` and
`DeleteRecipeKeepsSingleRecipe`.

## Model

| member | source | states |
|---|---|---|
| WireNormalisers.RecordId | src/features/api/apiSlice.ts:22 | the id is `_id` when that is neither null nor undefined, otherwise `id`, both as `String()` |
| WireNormalisers.OptionalString | src/features/api/apiSlice.ts:41-57 | an optional text field is absent exactly when the key is missing or undefined, otherwise it is the field's `String()` |
| WireNormalisers.OptionalNumber | src/features/api/apiSlice.ts:83-97 | an optional number is absent exactly when the key is missing or undefined, otherwise it is the field's `Number()` |
| WireNormalisers.ImageOf | src/features/api/apiSlice.ts:25-34 | an image exists exactly when the value is an object with `url` (and `publicId` where required), and it carries both as text |
| WireNormalisers.TransformPanel | src/features/api/apiSlice.ts:21-36 | a panel's id follows the `_id`/`id` rule, its name and counters are coerced, and it has an image exactly when the image object has `url` and `publicId` |
| WireNormalisers.TransformIngredient | src/features/api/apiSlice.ts:41-57 | an ingredient's name is text and each optional field is absent exactly when its key is missing or undefined |
| WireNormalisers.TransformRecipe | src/features/api/apiSlice.ts:59-110 | a recipe's id follows the `_id`/`id` rule, its panel is the reference rule's id, it has an image exactly when the image object has `url`, and it has one ingredient per array element |
| WireNormalisers.TransformPlateup | src/features/api/apiSlice.ts:112-127 | a plate-up's id follows the `_id`/`id` rule and it has an image exactly when the image object has `url` and `publicId` |
| WireNormalisers.TransformPlateupFolder | src/features/api/apiSlice.ts:129-136 | a folder's id follows the `_id`/`id` rule and its name is text |
| WireNormalisers.PanelReference | src/features/api/apiSlice.ts:62-69 | a recipe's panel is the string itself, else the populated object's `_id`, else its `id`, else empty |
| WireNormalisers.TransformNotification | src/features/api/apiSlice.ts:138-150 | a missing type becomes "info", a missing date becomes empty, and `read` is false when absent and the truthiness of the field otherwise |
| WireNormalisers.PermsOf | src/features/api/apiSlice.ts:612-634 | missing permissions are all false; otherwise a flag is set exactly when its key holds the boolean `true` |
| WireNormalisers.TransformTeamMember | src/features/api/apiSlice.ts:601-637 | a member's id follows the `_id`/`id` rule, the organisation is the field or empty, and permissions are always present (all false when missing) |
| WireNormalisers.TransformPendingRequest | src/features/api/apiSlice.ts:750-759 | a pending request's id follows the `_id`/`id` rule, with name and status as text |
| WireNormalisers.ListItems | src/features/api/apiSlice.ts:232-235 | the items are a bare array as it is, or the envelope's `data ?? []`; a `null` reply or a `data` that is not an array throws |
| WireNormalisers.ListResponse | src/features/api/apiSlice.ts:232-236 | a list reply fails exactly where reading its items throws or the transform throws on one of them (a `null` element, or a primitive one where the transform uses `in`), and otherwise gives one record per item, in order |
| WireNormalisers.IdsPreferUnderscoreId | src/features/api/apiSlice.ts:22-141 | every record normaliser (panel, recipe, plate-up, folder, notification, team member, pending request) takes `_id` as the id when it is present |
| WireNormalisers.OptionalFieldsAbsentExactly | src/features/api/apiSlice.ts:83-110 | each optional recipe and ingredient field is absent exactly when its key is missing or undefined |
| WireNormalisers.RecipeListsFollowArrays | src/features/api/apiSlice.ts:77-102 | a recipe's ingredients and tags map element-wise over the server's arrays, and are empty when the field is not an array |
| WireNormalisers.EnvelopeAgreesWithBareArray | src/features/api/apiSlice.ts:232-236 | a list reply normalises the same whether it is a bare array or wrapped in `{data: [...]}`, is read exactly when no element throws, element by element; an envelope without `data` gives an empty list |
| WireNormalisers.NullishElementRejectsList | src/features/api/apiSlice.ts:21-22 | a `null` or `undefined` element makes every list normaliser throw, since each reads its `_id` first |
| WireNormalisers.PrimitiveIngredientRejectsRecipes | src/features/api/apiSlice.ts:41-57 | a recipe whose `ingredients` array holds a primitive makes the recipe list throw at `'quantity' in ingredient` |
| WireNormalisers.SingleItem | src/features/api/apiSlice.ts:249-254 | a single-record reply is the array's first element or the envelope's `data`, and is never null |
| WireNormalisers.SingleRecord | src/features/api/apiSlice.ts:417-422 | a single-record reply is normalised from that record, and fails exactly where the record is missing or the transform throws on it |
| WireNormalisers.SingleRecordIsFirstOfList | src/features/api/apiSlice.ts:417-422 | a one-record array reply gives the same record as the list reply, and is read exactly when the list is |
| WireNormalisers.UnreadCount | src/features/api/apiSlice.ts:678-683 | the unread count is absent exactly for a null reply; it is the number in `count`, or the first element of an array reply, and 0 when that is missing or the array is empty |
| WireNormalisers.UnreadCountShapesAgree | src/features/api/apiSlice.ts:678-683 | an array reply and a `{count}` reply with the same value give the same count, and a `null` count reads as 0 |
| WireNormalisers.TextOrEmpty | src/features/api/apiSlice.ts:740-745 | a falsy field becomes the empty string, a truthy one its `String()` |
| WireNormalisers.MyRestaurant | src/features/api/apiSlice.ts:736-746 | the four fields are `String(x?.f || '')` of the reply's first element, or of its `data` when it is not an array; None stands for the TypeError a null reply throws |
| WireNormalisers.MyRestaurantShapesAgree | src/features/api/apiSlice.ts:736-746 | a bare array and a `{data}` envelope give the same restaurant, and a missing field or an empty reply reads as empty text |
| ReauthQuery.PrepareHeaders | src/features/api/apiSlice.ts:154-160 | only the authorization header may change, and only when a token is present; every other header keeps its value, and a token sets exactly `Bearer <token>` |
| ReauthQuery.BearerCarriesToken | src/features/api/apiSlice.ts:156-158 | with a token the authorization header is "Bearer " followed by exactly that token (section 2.1 of RFC 6750) |
| ReauthQuery.NoTokenNoHeader | src/features/api/apiSlice.ts:155-159 | without a token the headers are left unchanged |
| ReauthQuery.NewAccessToken | src/features/api/apiSlice.ts:184-187 | a refreshed token is taken only from a data reply whose `accessToken` is truthy |
| ReauthQuery.Reauth | src/features/api/apiSlice.ts:163-209 | the original request goes first; the session is kept exactly when the first reply is not a 401; it is renewed exactly when three requests went out, and then the retry's reply is returned, otherwise the first reply |
| ReauthQuery.PassThrough | src/features/api/apiSlice.ts:167-169 | a reply that is not a 401 is returned as is, after exactly one request, with the session unchanged |
| ReauthQuery.RefreshThenRetry | src/features/api/apiSlice.ts:171-197 | a 401 with a refresh token and a successful refresh sends the refresh request, retries the original request with the new token, and renews the session |
| ReauthQuery.UnauthorizedWithoutRefreshLogsOut | src/features/api/apiSlice.ts:198-203 | a 401 without a refresh token returns the 401 and ends the session |
| ReauthQuery.AtMostOneRefresh | src/features/api/apiSlice.ts:163-206 | one call sends one to three requests: the original first, at most one refresh second, and only the original as the retry |
| ReauthQuery.BaseQueryWithReauth | src/features/api/apiSlice.ts:163-206 | the imperative wrapper returns the modelled outcome and leaves the store unchanged, renewed (state and storage) or logged out, as the outcome says |
| CacheTags.ListTags | src/features/api/apiSlice.ts:238-245 | a list query provides exactly its LIST tag plus one tag per returned id |
| CacheTags.Provides | src/features/api/apiSlice.ts:238-792 | every cached query result carries at least one tag |
| CacheTags.Invalidates | src/features/api/apiSlice.ts:264-808 | only forgot-password and reset-password invalidate nothing |
| CacheTags.ChangedRecordStalesListsContainingIt | src/features/api/apiSlice.ts:267-276 | a mutation that invalidates a record's id tag makes stale every list query whose result contains that id |
| CacheTags.PanelChangeStalesPanelList | src/features/api/apiSlice.ts:435-449 | renaming or deleting a panel makes the panel list stale exactly when the list contains that panel |
| CacheTags.DeleteRecipeKeepsSingleRecipe | src/features/api/apiSlice.ts:279-284 | deleting a recipe does not make its single-recipe query stale, while updating it does |
| CacheTags.CreateInFolderStalesFolderView | src/features/api/apiSlice.ts:490-503 | creating a plate-up in a folder makes every folder view and the plate-up list stale |
| CacheTags.QuietMutations | src/features/api/apiSlice.ts:362-376 | the forgot-password and reset-password mutations make no query stale |
| CacheTags.SavingStalesSavedList | src/features/api/apiSlice.ts:795-808 | saving or unsaving a recipe makes the saved-recipes list stale |
| AuthSlice.InitialState | src/features/auth/authSlice.ts:12-19 | the state rebuilt from storage fails exactly when a stored user does not parse; it is authenticated exactly when a non-empty access token is stored, and it carries the stored tokens; the user is none when no non-empty user is stored, and otherwise the decoded stored user |
| AuthSlice.StoreCredentials | src/features/auth/authSlice.ts:31-33 | set-credentials writes the encoded user and both tokens and keeps every other key |
| AuthSlice.AuthStore.constructor | src/features/auth/authSlice.ts:12-19 | a new store holds the state rebuilt from storage |
| AuthSlice.AuthStore.SetCredentials | src/features/auth/authSlice.ts:25-34 | setting credentials authenticates with the given user and tokens and writes all three to storage |
| AuthSlice.AuthStore.Logout | src/features/auth/authSlice.ts:35-41 | logging out clears the state and empties storage |
| AuthSlice.ReloadAfterSetCredentials | src/features/auth/authSlice.ts:12-34 | reloading after set-credentials restores the same user and tokens, authenticated when the access token is not empty |
| AuthSlice.ReloadAfterLogout | src/features/auth/authSlice.ts:35-41 | reloading after logout gives the logged-out state |
| Wire.StringToNumber | src/features/api/apiSlice.ts:24 | `Number()` of text: blank is 0, decimal integers with or without a sign (and with surrounding white space) read as their value, and `NaN` only for text that is neither |
| Wire.NumberTextRoundTrip | src/features/api/apiSlice.ts:24 | an integer written as text reads back as the same integer |
| UserCodec.DecodeEncodeStoredUser | src/features/auth/authSlice.ts:13-31 | the user written to storage reads back as the same user |
| PanelOrder.SortPanels | src/components/ManagePanels.tsx:37-39 | sorting keeps the panels: same length and same multiset |
| Domain.Write | src/components/TeamManagement.tsx:700-705 | setting one permission flag changes that flag to the given value and no other |
| PanelOrder.SortPanelsAscending | src/components/ManagePanels.tsx:37-39 | sorting panels is a permutation whose `order` numbers ascend |
| PanelOrder.SortPanelsKeepsOrdered | src/components/ManagePanels.tsx:37-38 | panels already in order are left exactly as they are |
| ManagePanels.MoveIsPermutation | src/components/ManagePanels.tsx:57 | moving one element with two splices keeps the length and the multiset of elements |
| ManagePanels.MoveLandsAtTarget | src/components/ManagePanels.tsx:57 | the moved element lands at the target index and the other elements keep their relative order |
| ManagePanels.RenumberNumbersByPosition | src/components/ManagePanels.tsx:58 | renumbering gives each panel the order 1..n by position and changes nothing else |
| ManagePanels.IndexOfId | src/components/ManagePanels.tsx:55-56 | the index is the first panel with that id, or -1 exactly when there is none |
| ManagePanels.Move | src/components/ManagePanels.tsx:55-57 | the move keeps the length and puts the moved element at the target index |
| ManagePanels.Renumber | src/components/ManagePanels.tsx:58 | each panel keeps its id and takes the order position + 1 |
| ManagePanels.Reordered | src/components/ManagePanels.tsx:53-60 | after a drag the dragged panel sits at the target's index and the orders are 1..n |
| ManagePanels.ReorderedIsPermutation | src/components/ManagePanels.tsx:53-60 | dragging over a target is a permutation of the panels that puts the dragged panel at the target's index |
| ManagePanels.OrderRequest | src/components/ManagePanels.tsx:66 | the reorder request lists each panel's id and order number, position by position |
| ManagePanels.ReorderedRequestNumbersOneToN | src/components/ManagePanels.tsx:53-66 | after a drag the request numbers the panels 1..n |
| ManagePanels.PanelBoard.constructor | src/components/ManagePanels.tsx:32-44 | the board starts with no panels and nothing dragged |
| ManagePanels.PanelBoard.Load | src/components/ManagePanels.tsx:35-42 | loading shows the fetched panels sorted by order |
| ManagePanels.PanelBoard.DragStart | src/components/ManagePanels.tsx:46-48 | drag start records the dragged id and keeps the panels |
| ManagePanels.PanelBoard.DragOver | src/components/ManagePanels.tsx:50-61 | drag over another panel reorders the board; with nothing dragged or the same panel it does nothing |
| ManagePanels.PanelBoard.DragEnd | src/components/ManagePanels.tsx:63-68 | drag end clears the dragged id and sends the order request for the board |
| ManagePanels.Splice | src/components/ManagePanels.tsx:57 | the in-place splice pair on the array performs exactly the move |
| Navigation.Tabs | src/components/SidebarNavigation.tsx:67-84 | the bar shows exactly the tabs its conditions allow, with Profile always last |
| Navigation.SidebarConditions | src/components/SidebarNavigation.tsx:67-84 | each sidebar tab is shown exactly when its permission (and head-chef or manage-team condition) holds |
| Navigation.TabsIncreasing | src/components/SidebarNavigation.tsx:67-84 | the tabs appear in the fixed order home, add-recipe, plate-up, workstation, alerts, profile |
| Navigation.BottomConditions | src/components/BottomNavigation.tsx:44-61 | the bottom bar offers add-recipe exactly to a head chef who can view recipes, and never offers add-recipe and workstation together |
| Navigation.BottomTabsWithoutUser | src/components/BottomNavigation.tsx:44-61 | without a user the bottom bar shows only Profile |
| Navigation.BottomTabsInSidebar | src/components/SidebarNavigation.tsx:71-78 | every bottom-bar tab is also offered by the sidebar |
| Navigation.SidebarCanShowBoth | src/components/SidebarNavigation.tsx:71-78 | a chef with manage-team and view-recipes sees both add-recipe and workstation in the sidebar |
| Navigation.OfferedTabsAccepted | src/ChefEnPlaceApp.tsx:96-104 | every tab either bar offers is accepted by the shell's tab handler |
| Navigation.StoredUser | src/components/BottomNavigation.tsx:21-26 | a missing or unparsable stored user gives no user; a value that parses gives the user it encodes |
| Navigation.StoredUserAfterSetCredentials | src/components/BottomNavigation.tsx:21-26 | after set-credentials the bottom bar reads back the same user |
| Navigation.BottomTabsAfterLogout | src/components/BottomNavigation.tsx:21-61 | after logout the bottom bar shows only Profile |
| Navigation.DotPlacement | src/components/SidebarNavigation.tsx:40-48 | in either bar the unread dot is on no tab but alerts, and on alerts exactly when the stored flag is "true" and the user may view notifications |
| Navigation.UnreadFlag.constructor | src/components/SidebarNavigation.tsx:37 | the unread dot starts off |
| Navigation.UnreadFlag.Mount | src/components/SidebarNavigation.tsx:39-43 | on mount the dot shows the stored unread flag |
| Navigation.UnreadFlag.StorageEvent | src/components/SidebarNavigation.tsx:45-49 | a storage event for the unread key sets the dot to whether the new value is "true"; other keys leave it |
| AppShell.DashboardPath | src/ChefEnPlaceApp.tsx:47-52 | the dashboard path is "/super-admin" exactly for a super-admin, otherwise "/dashboard" |
| AppShell.TabPath | src/ChefEnPlaceApp.tsx:107-112 | a tab navigates to "/workstation" exactly for the workstation tab, otherwise "/dashboard" |
| AppShell.TabAllowed | src/ChefEnPlaceApp.tsx:96-102 | profile is always accepted, and without a user exactly the tabs that need no view permission are |
| AppShell.RouteExists | src/ChefEnPlaceApp.tsx:279-424 | without a user exactly the unconditional routes exist |
| AppShell.RenderedContent | src/ChefEnPlaceApp.tsx:115-160 | Profile always renders; any other tab renders blank exactly when its permission is missing |
| AppShell.AcceptedTabsRender | src/ChefEnPlaceApp.tsx:96-160 | a tab is accepted exactly when its content is not blank |
| AppShell.TeamManagementRoute | src/ChefEnPlaceApp.tsx:415-417 | the team-management route exists exactly for a head chef or a manage-team chef |
| AppShell.CreateNotificationRoute | src/ChefEnPlaceApp.tsx:329-331 | the create-notification route exists exactly for a head chef allowed to create notifications |
| AppShell.InitialLocale | src/ChefEnPlaceApp.tsx:36-38 | the locale is the stored one when there is one, and is never empty |
| AppShell.Shell.constructor | src/ChefEnPlaceApp.tsx:36-39 | the shell starts on the home tab with the stored locale |
| AppShell.Shell.TabChange | src/ChefEnPlaceApp.tsx:96-113 | an accepted tab becomes active and navigates to its path; any other tab changes nothing |
| AppShell.Shell.LanguageSelect | src/ChefEnPlaceApp.tsx:54-58 | choosing a language stores it and navigates to "/login" |
| AppShell.AcceptedTabLandsOnRoute | src/ChefEnPlaceApp.tsx:96-112 | every tab path leads to a route that exists for that user |
| AppShell.LanguageSurvivesReload | src/ChefEnPlaceApp.tsx:36-57 | a chosen language is the locale after a reload |
| ProfileScreen.ListedFrom | src/components/ProfileScreen.tsx:47-53 | lists exactly the granted flags whose names do not mention "view", in record order |
| ProfileScreen.ListedFlags | src/components/ProfileScreen.tsx:47-53 | the listed flags are exactly the user's granted flags whose names do not mention "view", in record order |
| ProfileScreen.Listed | src/components/ProfileScreen.tsx:47-53 | the listed names are the key names of the listed flags |
| ProfileScreen.ListedWithoutRecord | src/components/ProfileScreen.tsx:47 | without permissions nothing is listed |
| ProfileScreen.ListedExactly | src/components/ProfileScreen.tsx:47-53 | a flag's name is listed exactly when it is granted and is not a view flag |
| ProfileScreen.ListedInRecordOrder | src/components/ProfileScreen.tsx:47-53 | listed flags keep record order and their names are distinct |
| ProfileScreen.Grouped | src/components/ProfileScreen.tsx:56-62 | a group holds exactly the listed names that mention its word |
| ProfileScreen.ExactlyOneGroup | src/components/ProfileScreen.tsx:56-62 | every listed permission falls in exactly one group, the one its flag belongs to |
| ProfileScreen.PermissionSectionShown | src/components/ProfileScreen.tsx:152 | the section shows exactly for a non-head-chef with at least one granted non-view flag |
| ProfileScreen.ShowsPermissionSection | src/components/ProfileScreen.tsx:152 | the section needs a user other than a head chef with a permission record |
| PermissionNames.ViewWord | src/components/ProfileScreen.tsx:50 | a flag's name mentions "view" exactly when it is one of the four view flags |
| PermissionNames.GroupWords | src/components/ProfileScreen.tsx:57-61 | a non-view flag's name matches exactly one group's words |
| PermissionNames.KeysDistinct | src/lib/types.ts:78-101 | distinct flags have distinct key names |
| TeamManagement.FormatMembers | src/components/TeamManagement.tsx:92-127 | the member list holds exactly the formatted non-head-chef users |
| TeamManagement.FormatMembersWithoutHeadChefs | src/components/TeamManagement.tsx:94-125 | with no head chef in the team, each user maps in order to its member row, with missing permissions all false |
| TeamManagement.NextStatus | src/components/TeamManagement.tsx:151-154 | "active" becomes "pending" and every other status becomes "active" |
| TeamManagement.Find | src/components/TeamManagement.tsx:152-153 | finds the first member with that id, or none exactly when there is none |
| TeamManagement.SetStatus | src/components/TeamManagement.tsx:158-160 | only the members with that id get the new status |
| TeamManagement.SetPermissions | src/components/TeamManagement.tsx:180-182 | only the members with that id get the new permissions |
| TeamManagement.Remove | src/components/TeamManagement.tsx:170 | removes exactly the members with that id |
| TeamManagement.RemoveAbsent | src/components/TeamManagement.tsx:170 | removing an id nobody has leaves the list unchanged |
| TeamManagement.ManageTeamChecked | src/components/TeamManagement.tsx:960-986 | checking manage-team grants it and every recipe, plate-up, notification and panel flag; unchecking clears only manage-team; admin access is never touched |
| TeamManagement.ManageTeamCheckedIdempotent | src/components/TeamManagement.tsx:960-986 | ticking the same manage-team box twice is the same as once |
| TeamManagement.TeamScreen.constructor | src/components/TeamManagement.tsx:54-90 | no members, no open dialog, all flags off |
| TeamManagement.TeamScreen.Load | src/components/TeamManagement.tsx:92-127 | the member list is the formatted team |
| TeamManagement.TeamScreen.StatusChange | src/components/TeamManagement.tsx:151-164 | for a known member it sends the toggled status, applied locally only on success; an unknown id sends nothing |
| TeamManagement.TeamScreen.Delete | src/components/TeamManagement.tsx:166-174 | sends the delete and removes the member only on success |
| TeamManagement.TeamScreen.OpenPermissions | src/components/TeamManagement.tsx:310-311 | opens the dialog for that member with its permissions |
| TeamManagement.TeamScreen.CheckFlag | src/components/TeamManagement.tsx:702-945 | a checkbox sets exactly its flag in the dialog state |
| TeamManagement.TeamScreen.CheckManageTeam | src/components/TeamManagement.tsx:960-986 | the manage-team checkbox applies the manage-team rule to the dialog state |
| TeamManagement.TeamScreen.CancelPermissions | src/components/TeamManagement.tsx:996 | cancel closes the dialog and keeps everything else |
| TeamManagement.TeamScreen.SavePermissions | src/components/TeamManagement.tsx:176-187 | with a member open it sends that member's new permissions, and on success applies them and closes the dialog; otherwise it sends nothing |
| Dashboard.RestaurantName | src/components/Dashboard.tsx:46-59 | the name is a usable stored name, the user's organisation or "my-restaurant", and is never empty or "restaurant" |
| Dashboard.StoredNameWins | src/components/Dashboard.tsx:48-50 | a usable stored name wins |
| Dashboard.OrganisationUsed | src/components/Dashboard.tsx:51-56 | without a usable stored name, a usable organisation of the user is the name |
| Dashboard.RestaurantNameFallback | src/components/Dashboard.tsx:46-59 | with no usable name the fallback is "my-restaurant" |
| Dashboard.Slug | src/components/Dashboard.tsx:83 | the slug is no longer than the name and has no white space and no capitals |
| Dashboard.SlugIdempotent | src/components/Dashboard.tsx:83 | slugging a slug changes nothing |
| Dashboard.LoginUrl | src/components/Dashboard.tsx:81-84 | the QR link is the origin, "/login/" and the slug, in that order |
| Dashboard.Categories | src/components/Dashboard.tsx:206-218 | one category per panel, in panel order; none before panels load |
| Dashboard.CategoriesOfPanels | src/components/Dashboard.tsx:206-218 | the categories are exactly the panels' categories, all with the utensils icon, in ascending order |
| Dashboard.EmptyQueryMatches | src/components/Dashboard.tsx:224 | the empty query matches every text |
| Dashboard.FilterCategories | src/components/Dashboard.tsx:221-227 | keeps exactly the categories whose names match the query |
| Dashboard.FilterCategoriesEmptyQuery | src/components/Dashboard.tsx:221-227 | the empty query keeps every category |
| Dashboard.PanelIndex | src/components/Dashboard.tsx:230-236 | the index has exactly the panels' ids as keys, each mapped to a panel with that id |
| Dashboard.PanelIndexLast | src/components/Dashboard.tsx:230-236 | on repeated ids the last panel wins |
| Dashboard.BuildPanelIndex | src/components/Dashboard.tsx:230-236 | the loop builds exactly the panel index |
| Dashboard.FilterRecipes | src/components/Dashboard.tsx:238-246 | keeps exactly the recipes whose title or panel name contains the query; none before recipes load |
| Dashboard.RecipeFoundByPanelName | src/components/Dashboard.tsx:238-246 | a recipe whose panel's name matches is found |
| Dashboard.FilterPlateups | src/components/Dashboard.tsx:249-255 | keeps exactly the plate-ups whose names match |
| Dashboard.ShowSearchResults | src/components/Dashboard.tsx:278 | results show exactly when the query is not blank |
| Dashboard.PanelMenu.constructor | src/components/Dashboard.tsx:65-73 | menus, dialogs and the edit form start closed and empty |
| Dashboard.PanelMenu.PanelDeleteClick | src/components/Dashboard.tsx:134-138 | opens the delete confirmation for that panel and closes the menu |
| Dashboard.PanelMenu.PanelDeleteConfirm | src/components/Dashboard.tsx:140-156 | sends the delete for the chosen panel and closes the dialog; without a chosen panel it sends nothing |
| Dashboard.PanelMenu.PanelDeleteCancel | src/components/Dashboard.tsx:158-161 | closes the dialog and forgets the panel |
| Dashboard.PanelMenu.PanelEdit | src/components/Dashboard.tsx:163-168 | opens the edit form with the panel's name |
| Dashboard.PanelMenu.PanelEditSave | src/components/Dashboard.tsx:170-197 | a blank title gives "Title is required."; otherwise it sends the trimmed rename, and closes the form on success or shows the failure message |
| Dashboard.PanelMenu.PanelEditCancel | src/components/Dashboard.tsx:199-204 | closes and clears the edit form |
| ImageUpload.PhotoError | src/components/PlateUpStandards.tsx:47-73 | a photo is accepted exactly when it is an image of at most 5 MB |
| ImageUpload.PhotoErrorOrder | src/components/PlateUpStandards.tsx:47-66 | the checks come in order: no file, not an image, too large |
| ImageUpload.SizeLimitInclusive | src/components/PlateUpStandards.tsx:61 | exactly 5 MB passes and one byte more fails |
| ImageUpload.SaveError | src/components/PlateUpStandards.tsx:75-92 | a blank title is reported first, then the photo checks |
| ImageUpload.SaveAccepts | src/components/PlateUpStandards.tsx:75-92 | saving is accepted exactly with a title and an acceptable photo |
| PlateupStandards.Toggle | src/components/PlateUpStandards.tsx:344 | the sort button always changes the order |
| PlateupStandards.ToggleTwice | src/components/PlateUpStandards.tsx:344 | toggling twice restores the order |
| PlateupStandards.NameOrdersStrict | src/components/PlateUpStandards.tsx:185-194 | both name comparisons are strict orders |
| PlateupStandards.SortedPlateups | src/components/PlateUpStandards.tsx:185-194 | sorting is a permutation of the loaded plate-ups; none before they load |
| PlateupStandards.SortedPlateupsOrdered | src/components/PlateUpStandards.tsx:185-194 | the list is ascending or descending by name as the order says |
| PlateupStandards.PlateupStandardsScreen.constructor | src/components/PlateUpStandards.tsx:27-42 | ascending order, forms and dialogs closed and empty |
| PlateupStandards.PlateupStandardsScreen.ToggleSort | src/components/PlateUpStandards.tsx:344 | flips the sort order and keeps the form |
| PlateupStandards.PlateupStandardsScreen.PhotoUpload | src/components/PlateUpStandards.tsx:47-73 | a rejected photo sets the error and clears the file; an accepted one becomes file and preview |
| PlateupStandards.PlateupStandardsScreen.Save | src/components/PlateUpStandards.tsx:75-115 | an invalid form sends nothing and shows the error; a valid one sends the trimmed title and photo, and resets the form only on success |
| PlateupStandards.PlateupStandardsScreen.Edit | src/components/PlateUpStandards.tsx:117-122 | opens the rename form with the plate-up's name |
| PlateupStandards.PlateupStandardsScreen.EditSave | src/components/PlateUpStandards.tsx:124-146 | a blank title is an error; otherwise it sends the trimmed rename and closes only on success |
| PlateupStandards.PlateupStandardsScreen.EditCancel | src/components/PlateUpStandards.tsx:148-153 | closes and clears the rename form |
| PlateupStandards.PlateupStandardsScreen.DeleteClick | src/components/PlateUpStandards.tsx:155-159 | opens the delete confirmation for that plate-up |
| PlateupStandards.PlateupStandardsScreen.DeleteConfirm | src/components/PlateUpStandards.tsx:161-175 | sends the delete for the chosen plate-up and closes the dialog; without one it sends nothing |
| PlateupStandards.PlateupStandardsScreen.DeleteCancel | src/components/PlateUpStandards.tsx:177-180 | closes the dialog and forgets the plate-up |
| FolderPlateups.FolderId | src/components/FolderPlateups.tsx:15-17 | the folder id is the route parameter, or empty without one |
| FolderPlateups.MissingFolderSkipsQuery | src/components/FolderPlateups.tsx:18 | without a folder id the folder query is skipped |
| FolderPlateups.FolderPlateupsScreen.constructor | src/components/FolderPlateups.tsx:14-39 | the screen takes the folder id from the route, with forms and dialogs closed |
| FolderPlateups.FolderPlateupsScreen.PhotoUpload | src/components/FolderPlateups.tsx:44-70 | same photo rules as the plate-up standards screen |
| FolderPlateups.FolderPlateupsScreen.Save | src/components/FolderPlateups.tsx:72-113 | a valid form sends a create request for this folder, and resets only on success |
| FolderPlateups.FolderPlateupsScreen.DeleteClick | src/components/FolderPlateups.tsx:115-119 | opens the delete confirmation for that id |
| FolderPlateups.FolderPlateupsScreen.DeleteConfirm | src/components/FolderPlateups.tsx:121-137 | with a non-empty chosen id it sends the delete and closes; otherwise nothing changes |
| FolderPlateups.FolderPlateupsScreen.DeleteCancel | src/components/FolderPlateups.tsx:139-142 | closes the dialog and forgets the id |
| FolderPlateups.FolderPlateupsScreen.Edit | src/components/FolderPlateups.tsx:144-149 | opens the rename form with the plate-up's name |
| FolderPlateups.FolderPlateupsScreen.EditSave | src/components/FolderPlateups.tsx:151-175 | a blank title is an error; otherwise it sends the trimmed rename and closes only on success |
| FolderPlateups.FolderPlateupsScreen.EditCancel | src/components/FolderPlateups.tsx:177-182 | closes and clears the rename form |
| PlateupFolderList.FolderNameError | src/components/PlateupFolderList.tsx:37-47 | a name is accepted exactly when its trimmed length is 2 to 100; blank names get the required message, others the length message |
| PlateupFolderList.FolderNameIgnoresPadding | src/components/PlateupFolderList.tsx:37-47 | surrounding spaces do not change the verdict |
| PlateupFolderList.FolderListScreen.constructor | src/components/PlateupFolderList.tsx:27-35 | form and dialogs closed and empty |
| PlateupFolderList.FolderListScreen.Save | src/components/PlateupFolderList.tsx:37-65 | an invalid name sends nothing; otherwise it updates the folder being edited or creates a new one with the trimmed name, and closes the form only on success |
| PlateupFolderList.FolderListScreen.Edit | src/components/PlateupFolderList.tsx:67-72 | opens the form on that folder with its name |
| PlateupFolderList.FolderListScreen.DeleteClick | src/components/PlateupFolderList.tsx:74-78 | opens the delete confirmation for that folder |
| PlateupFolderList.FolderListScreen.DeleteConfirm | src/components/PlateupFolderList.tsx:80-95 | sends the delete for the chosen folder and closes the dialog; without one it sends nothing |
| PlateupFolderList.FolderListScreen.DeleteCancel | src/components/PlateupFolderList.tsx:97-100 | closes the dialog and forgets the folder |
| PlateupFolderList.FolderListScreen.CreateNew | src/components/PlateupFolderList.tsx:102-106 | opens an empty form for a new folder |
| PlateupFolderList.FolderListScreen.CloseForm | src/components/PlateupFolderList.tsx:108-113 | closes and clears the form |
| RestaurantSignup.With | src/components/RestaurantSignup.tsx:96-98 | updating a field changes that field only |
| RestaurantSignup.FieldsDetermineData | src/components/RestaurantSignup.tsx:96-98 | two signup records with equal fields are equal |
| RestaurantSignup.WithLaws | src/components/RestaurantSignup.tsx:96-98 | writing a field's own value changes nothing, and the last write to a field wins |
| RestaurantSignup.StepError | src/components/RestaurantSignup.tsx:110-141 | step 1 needs a restaurant name; step 2 needs name, email, a password of at least 6 characters and a matching confirmation; other steps pass |
| RestaurantSignup.StepTwoOrder | src/components/RestaurantSignup.tsx:118-135 | step 2 reports name, then email, then password length |
| RestaurantSignup.SubmitSkipsEarlierChecks | src/components/RestaurantSignup.tsx:136-140 | the final step runs no field check |
| RestaurantSignup.Wizard.constructor | src/components/RestaurantSignup.tsx:78-95 | the wizard starts on step 1 with the source's initial form: text fields empty, type "other", country "US", plan "trial" and billing "monthly" |
| RestaurantSignup.Wizard.UpdateData | src/components/RestaurantSignup.tsx:96-98 | a field edit changes that field and keeps the step |
| RestaurantSignup.Wizard.NextStep | src/components/RestaurantSignup.tsx:100-104 | next reports the step's error and stays, or moves one step on, up to step 3 |
| RestaurantSignup.Wizard.PrevStep | src/components/RestaurantSignup.tsx:106-108 | back moves one step down, not below step 1 |
| RestaurantSignup.Wizard.Submit | src/components/RestaurantSignup.tsx:206-207 | submit proceeds exactly when the current step has no error |
| RestaurantSignup.YearlyIsTenMonths | src/components/RestaurantSignup.tsx:50-70 | every plan's yearly price is ten times its monthly price |
| AddRecipe.CleanScan | src/components/AddRecipeContent.tsx:47-48 | a cleaned scan has no carriage return and no outer white space, and adds no characters but line breaks |
| AddRecipe.CleanScanShape | src/components/AddRecipeContent.tsx:47-48 | a cleaned scan has no carriage return, no adjacent line breaks and no outer white space, and adds no characters but line breaks |
| AddRecipe.CleanScanIdempotent | src/components/AddRecipeContent.tsx:47-48 | cleaning a cleaned scan changes nothing |
| AddRecipe.TrimAll | src/components/AddRecipeContent.tsx:107 | every line is trimmed, position by position |
| AddRecipe.IngredientNames | src/components/AddRecipeContent.tsx:105-109 | there are at most as many ingredients as lines |
| AddRecipe.IngredientNamesShape | src/components/AddRecipeContent.tsx:105-109 | every ingredient name is non-empty, trimmed and on one line |
| AddRecipe.NonBlankHasIngredient | src/components/AddRecipeContent.tsx:105-109 | a non-blank text yields at least one ingredient |
| AddRecipe.IngredientNamesOfLines | src/components/AddRecipeContent.tsx:105-109 | lines that are already ingredient names read back unchanged |
| AddRecipe.ScanLinesAreIngredients | src/components/AddRecipeContent.tsx:47-109 | every ingredient read from a cleaned scan is non-empty and has no carriage return |
| AddRecipe.SubmitError | src/components/AddRecipeContent.tsx:67-95 | a recipe is accepted exactly with edit permission, a name, a folder, ingredients and a method |
| AddRecipe.SubmitErrorOrder | src/components/AddRecipeContent.tsx:67-95 | the checks come in order: permission, name, folder, ingredients |
| AddRecipe.SubmittedRecipeHasIngredient | src/components/AddRecipeContent.tsx:67-109 | an accepted recipe has at least one ingredient |
| AddRecipe.IngredientKeyInjective | src/components/AddRecipeContent.tsx:111-113 | distinct positions get distinct form keys |
| AddRecipe.BuildRecipeForm | src/components/AddRecipeContent.tsx:97-118 | the loop builds exactly the recipe form |
| AddRecipe.RecipeForm | src/components/AddRecipeContent.tsx:97-118 | the body has three or four head entries, one per ingredient, and one more with a photo; ingredient i sits under its key after the head |
| AddRecipe.RecipeFormLayout | src/components/AddRecipeContent.tsx:97-118 | the form has title, panel and method first, chef notes when not blank, one entry per ingredient in order, and the image last when there is one |
| AddRecipe.FolderOptionsCoverPanels | src/components/AddRecipeContent.tsx:178-181 | the folder choices are exactly the panels, in ascending order |
| AddRecipe.FolderOptions | src/components/AddRecipeContent.tsx:178-181 | one choice per panel, none without panels, and every choice is some panel's id and name |
| AddRecipe.AddRecipeForm.constructor | src/components/AddRecipeContent.tsx:25-30 | every field starts empty, with no file |
| AddRecipe.AddRecipeForm.ApplyScan | src/components/AddRecipeContent.tsx:38-65 | a scan puts the cleaned text in the ingredients; a failure keeps it and shows the server message or the fallback |
| AddRecipe.AddRecipeForm.Submit | src/components/AddRecipeContent.tsx:67-137 | an invalid form sends nothing and shows the error; a valid one sends the recipe form and clears every field only on success |
| AddRecipe.AddRecipeForm.Clear | src/components/AddRecipeContent.tsx:124-131 | after a created recipe every field and the photo input are empty |
| CreateNotification.Toggle | src/components/CreateNotificationForm.tsx:26-30 | toggling flips exactly that recipient's membership |
| CreateNotification.ToggleKeepsDistinct | src/components/CreateNotificationForm.tsx:26-30 | recipients never repeat |
| CreateNotification.ToggleTwiceRestores | src/components/CreateNotificationForm.tsx:26-30 | toggling the same recipient twice restores the list |
| CreateNotification.NotificationForm.constructor | src/components/CreateNotificationForm.tsx:22-24 | empty title, message and recipients |
| CreateNotification.NotificationForm.ToggleRecipient | src/components/CreateNotificationForm.tsx:26-30 | the recipients become the toggled list |
| CreateNotification.NotificationForm.Submit | src/components/CreateNotificationForm.tsx:32-40 | sends exactly when title, message and recipients are all given, with trimmed text, and goes back only on success |
| RestaurantLogin.Capitalise | src/components/RestaurantLogin.tsx:81 | upper-cases the first character and keeps the rest |
| RestaurantLogin.CapitaliseAll | src/components/RestaurantLogin.tsx:81 | capitalises each word, word by word |
| RestaurantLogin.FormatRestaurantName | src/components/RestaurantLogin.tsx:78-83 | the formatted name is as long as the slug and has no hyphen |
| RestaurantLogin.FormatIdempotent | src/components/RestaurantLogin.tsx:78-83 | formatting twice is formatting once |
| RestaurantLogin.Heading | src/components/RestaurantLogin.tsx:93 | the heading is the formatted route name, or "Restaurant" when the name is missing or empty; never empty |
| RestaurantLogin.LoginRequest | src/components/RestaurantLogin.tsx:29-47 | a request goes out exactly with both names and a restaurant, and carries the trimmed names |
| RestaurantLogin.MissingRestaurantReported | src/components/RestaurantLogin.tsx:37-40 | with names but no restaurant the restaurant error is reported |
| RestaurantLogin.FailureMessage | src/components/RestaurantLogin.tsx:65-73 | pending and rejected statuses get their own messages, then the server message, else the generic one |
| RestaurantLogin.ServerMessageShown | src/components/RestaurantLogin.tsx:69-70 | a non-empty server message with another status is shown as is |
| RestaurantLogin.GenericFailure | src/components/RestaurantLogin.tsx:71-72 | with no status and no message the generic text is shown |
| ChefRequest.Lookup | src/components/ChefRequest.tsx:25-30 | a stored value is found exactly when its key is stored |
| ChefRequest.RequestError | src/components/ChefRequest.tsx:53-65 | a request is accepted exactly with both names; first name is reported first |
| ChefRequest.LoadedRequestDecides | src/components/ChefRequest.tsx:99-115 | with a stored id and a loaded request the page either logs in or shows pending, never both; a rejected request logs in |
| ChefRequest.AutoLogin | src/components/ChefRequest.tsx:99-105 | no stored id never logs in, and a stored id with a loaded rejected request does |
| ChefRequest.ShowsPending | src/components/ChefRequest.tsx:107-115 | the pending screen never comes with the automatic login |
| ChefRequest.RegistrationError | src/components/ChefRequest.tsx:80-82 | shows the server message, else "Registration failed" |
| ChefRequest.ChefRequestPage.constructor | src/components/ChefRequest.tsx:24-30 | the page reads the head-chef id from the route and the stored ids from storage |
| ChefRequest.ChefRequestPage.ResetOnMismatch | src/components/ChefRequest.tsx:33-40 | a stored request for another head chef is forgotten, in state and in storage |
| ChefRequest.ChefRequestPage.Submit | src/components/ChefRequest.tsx:53-83 | a valid form sends the trimmed names, and on success stores the returned id and head chef |
| ChefRequest.ChefRequestPage.Remember | src/components/ChefRequest.tsx:74-77 | both ids are written to storage and to the page, and the stored ids still read back as the page holds them |
| ChefRequest.ChefRequestPage.CheckRequest | src/components/ChefRequest.tsx:99-105 | logs in exactly when the loaded request is no longer pending |
| ChefRequest.SubmittedRequestIsLookedUp | src/components/ChefRequest.tsx:24-83 | after a successful request the stored ids are found on the next visit |
| PaymentSuccess.MatchLength | src/components/PaymentSuccess.tsx:32 | a match starts with "cs" and is at least seven characters long |
| PaymentSuccess.CleanSessionId | src/components/PaymentSuccess.tsx:32 | cleaning never lengthens the id |
| PaymentSuccess.CleanIdempotent | src/components/PaymentSuccess.tsx:32 | cleaning a cleaned id changes nothing |
| PaymentSuccess.RepairsSpacedId | src/components/PaymentSuccess.tsx:32 | "cs", white space, "test" becomes "cs_test" |
| PaymentSuccess.SecondRepairIsNoOp | src/components/PaymentSuccess.tsx:40-43 | the second clean-up before the request changes nothing |
| PaymentSuccess.SessionParam | src/components/PaymentSuccess.tsx:19 | `session_id` wins when non-empty, else `sid` |
| PaymentSuccess.PaymentSuccessPage.constructor | src/components/PaymentSuccess.tsx:16-17 | loading, no message |
| PaymentSuccess.PaymentSuccessPage.Check | src/components/PaymentSuccess.tsx:18-48 | fails exactly without an id or without `success=true`; otherwise succeeds and verifies the cleaned id |
| DataProvider.AttachAuth | src/admin/dataProvider.ts:15-23 | with a token the request gets JSON accept and bearer headers; without one it is unchanged |
| DataProvider.AttachAuthIdempotent | src/admin/dataProvider.ts:17-21 | attaching twice is attaching once |
| DataProvider.ListQuery | src/admin/dataProvider.ts:26-36 | the query has page, limit and exactly the filter's keys with their values |
| DataProvider.ListQueryPagination | src/admin/dataProvider.ts:29-36 | page and limit come from pagination unless the filter names them |
| DataProvider.Length | src/admin/dataProvider.ts:42 | `x?.length` is the length of a string or an array, the `length` property of any other object, and undefined for everything else |
| DataProvider.ListData | src/admin/dataProvider.ts:40-41 | the rows are `data`, or an empty array; a `null` or `undefined` reply rejects |
| DataProvider.ListTotal | src/admin/dataProvider.ts:40-42 | the total is the server total, else the row count (or a `data` object's `length`), else 0; a `null` or `undefined` reply rejects |
| DataProvider.ObjectLengthCounts | src/admin/dataProvider.ts:42 | without pagination, a `data` object with a non-zero `length` totals that length |
| DataProvider.ListTotalCountsRows | src/admin/dataProvider.ts:40-43 | without a server total the total is the number of rows; a `null` reply rejects |
| DataProvider.ReferenceTotal | src/admin/dataProvider.ts:79-80 | the total is the server total, else 0; a `null` or `undefined` reply rejects |
| DataProvider.Range | src/admin/dataProvider.ts:70 | a page's range covers exactly per-page rows |
| DataProvider.RangesContiguous | src/admin/dataProvider.ts:70 | consecutive pages' ranges meet, starting at row 0 |
| DataProvider.RangesDisjoint | src/admin/dataProvider.ts:70 | different pages share no row |
| DataProvider.ReferenceFilter | src/admin/dataProvider.ts:71-74 | the filter keeps every given key and adds the target key set to the id |
| DataProvider.CreateResult | src/admin/dataProvider.ts:100-106 | the created record is the sent data with the server's `data.id`; a reply without `data` rejects the create |
| DataProvider.ManyResult | src/admin/dataProvider.ts:97 | the result lists the requested ids |
| AdminDashboard.RestaurantsQuery | src/components/AdminDashboard.tsx:87-92 | the query has page and limit 10 first, then search exactly when non-empty and status exactly when not "all" |
| AdminDashboard.RestaurantTable.constructor | src/components/AdminDashboard.tsx:58-64 | no search, status "all", page 1 of 1, no rows |
| AdminDashboard.RestaurantTable.SetSearch | src/components/AdminDashboard.tsx:243 | the search term is in the next query exactly when non-empty |
| AdminDashboard.RestaurantTable.SetStatus | src/components/AdminDashboard.tsx:251 | the status is in the next query exactly when not "all" |
| AdminDashboard.RestaurantTable.Loaded | src/components/AdminDashboard.tsx:85-111 | an ok reply stores the rows and then the page count; a failed fetch or a `null` body keeps both and toasts "Failed to load restaurants"; a reply without `pagination` has already replaced the rows, keeps the page count and toasts the same; a reply that is not ok changes nothing and toasts nothing |
| AdminDashboard.RestaurantTable.PreviousPage | src/components/AdminDashboard.tsx:362-370 | reachable only while the pager shows (more than one page); goes back one page, not below 1, and stays within the page count |
| AdminDashboard.RestaurantTable.NextPage | src/components/AdminDashboard.tsx:362-377 | reachable only while the pager shows (more than one page); goes forward one page, not beyond the page count |
| AdminDashboard.StatusClass | src/components/AdminDashboard.tsx:118-126 | the four known statuses get their own colours and every other status is grey |
| AdminDashboard.PlanClass | src/components/AdminDashboard.tsx:128-135 | the three known plans get their own colours and every other plan is grey |
| AdminDashboard.RecipeLimit | src/components/AdminDashboard.tsx:315 | -1 shows "Unlimited" and every other limit shows its number |
| AdminDashboard.IsTrialExpiring | src/components/AdminDashboard.tsx:141-147 | only a trial can be expiring, and an ended trial always is |
| SuperAdminRestaurants.StatusColor | src/components/SuperAdminRestaurants.tsx:64-72 | the four known statuses get their own colours and every other status is grey |
| SuperAdminRestaurants.PlanColor | src/components/SuperAdminRestaurants.tsx:74-81 | the three known plans get their own colours, and the trial plan matches the trial status |
| SuperAdminRestaurants.DaysLeft | src/components/SuperAdminRestaurants.tsx:83-88 | the days left are the remaining time rounded up to whole days |
| SuperAdminRestaurants.DaysLeftMonotone | src/components/SuperAdminRestaurants.tsx:83-88 | days left never grow as time passes |
| SuperAdminRestaurants.TrialColorBands | src/components/SuperAdminRestaurants.tsx:157 | fewer days never mean a calmer colour, and red matches the admin dashboard's expiring test |
| SuperAdminRestaurants.TrialColor | src/components/SuperAdminRestaurants.tsx:157 | red exactly for three days or fewer, green exactly beyond a week, amber otherwise |
| SuperAdminRestaurants.TrialLabel | src/components/SuperAdminRestaurants.tsx:216 | "Expired" exactly at zero days or fewer, otherwise the number of days left |
| SuperAdminRestaurants.TrialCell | src/components/SuperAdminRestaurants.tsx:214-218 | a trial badge shows exactly for trial restaurants |
| SuperAdminRestaurants.ExpiredIsRed | src/components/SuperAdminRestaurants.tsx:157-216 | an expired trial is shown in red |
| SuperAdminRestaurants.RestaurantsPage.constructor | src/components/SuperAdminRestaurants.tsx:31-33 | no rows, loading, no error |
| SuperAdminRestaurants.RestaurantsPage.Fetched | src/components/SuperAdminRestaurants.tsx:39-62 | success stores the rows, and a reply without data shows the empty-table notice; a `null` body keeps the rows and sets the `TypeError`'s message; failure sets the error message; loading always ends |
| RestaurantList.ChipColor | src/admin/RestaurantList.tsx:38-50 | a chip's colour is its table entry, grey when missing |
| RestaurantList.StatusChip | src/admin/RestaurantList.tsx:37-56 | the status chip is grey or a colour of the status table, grey without a status |
| RestaurantList.PlanChip | src/admin/RestaurantList.tsx:58-71 | the plan chip is grey or a colour of the plan table, grey without settings |
| RestaurantList.ChipsAgree | src/admin/RestaurantList.tsx:38-71 | the admin list's chips have the same colours as the super-admin screen |
| RestaurantList.MissingKeysAreGrey | src/admin/RestaurantList.tsx:48 | a record without status or plan gets grey chips |
| RestaurantList.TrialExpiry | src/admin/RestaurantList.tsx:78-92 | the expiry cell shows exactly for trial records |
| RestaurantList.TrialExpiryAgrees | src/admin/RestaurantList.tsx:78-92 | the expiry cell equals the super-admin screen's trial cell |

## Left out

- Every network call: server outcomes are parameters (an `ok` flag, a reply value or a JSON body), and toasts are returned strings. Loading spinners are not modelled.
- Console logging has no effect on the model.
- The debounced search hook (src/components/Dashboard.tsx:15-22) involves timers; the filters take the debounced query as input.
- The Stripe checkout in signup (src/components/RestaurantSignup.tsx:143-204) and the 3-second redirect after payment (src/components/PaymentSuccess.tsx:51-53) are external services and timers.
- QR-code drawing, canvas download and clipboard copy on the dashboard are browser APIs. Only the encoded link is modelled.
- Image files are abstract values (name, MIME type, size). The FileReader data-URL preview becomes the file itself.
- `decodeURIComponent` and URLSearchParams string encoding are not modelled. Parameters arrive decoded, and queries are key/value lists.
- `localeCompare` is taken as plain character order, ignoring locale collation. Case mapping and white space are ASCII only, and regex `\s` is the six ASCII white-space characters.
- Floating-point numbers and `NaN` ordering are left out: numbers are integers.
- SuperAdminRestaurants.DaysLeft: works on integer milliseconds. Invalid dates and `Math.ceil` on fractional values are not modelled.
- RestaurantList.ChipColor: the source's plain-object lookup would also find prototype keys such as "constructor". The model uses a finite map.
- WireNormalisers.PermsOf: reads a flag as set only when it holds the boolean `true`. The source keeps the server's permission object as it is (apiSlice.ts:610-611) and gates tabs and routes on truthiness, so a flag sent as `1` or `"true"` opens a tab in the source but not in the model. The profile list (ProfileScreen.tsx:47) also lists extra keys of that object in the server's key order; the model lists the eighteen known flags in their fixed order.
- Wire.StringToNumber: only signed decimal integers are read. Exponents (`"1e3"`), fractions, `0x`/`0o`/`0b` prefixes and `"Infinity"` give `NaN` in the model but a number in JavaScript.
- Dashboard.PanelIndex: the panel map is a finite map. The source's plain object (Dashboard.tsx:244) also finds prototype keys, so a recipe whose panel is "constructor" matches the query "object" in the source but not in the model.
- PlateupFolderList.FolderNameError: the length bounds count characters. The source's `.length` (PlateupFolderList.tsx:43-46) counts UTF-16 code units, so a name of astral characters can differ.
- The success path of restaurant-name login (dispatching credentials and navigating) uses the same `setCredentials` as `AuthSlice.AuthStore.SetCredentials`. It is not repeated.
- The delete button of the panel manager (src/components/ManagePanels.tsx:70-83) relies on a browser confirm dialog. It is not modelled.
- The admin dashboard's statistics fetch (src/components/AdminDashboard.tsx:77-78) only displays server numbers.
- The sort-order select of the plate-up standards screen (src/components/PlateUpStandards.tsx:358) sets the order directly. Only the toggle button is modelled.
- TeamManagement's search box and status filter are not modelled.
- The chef access request's login call (src/components/ChefRequest.tsx:85-97) is represented by the `LoginChef` request that `CheckRequest` returns. Its dispatch and navigation are not modelled.
- AdminDashboard.RestaurantTable.Loaded: the page count is an integer. A `pagination.pages` that is not a number is stored as it is by the source (for example `undefined`, which hides the pager); the model keeps the previous count.
- DataProvider.Length: a string's length counts characters, not UTF-16 code units.
- ManagePanels.PanelBoard.DragOver: requires both ids to be on the board. The `findIndex` result of -1 is not modelled.
- AuthSlice.AuthStore.constructor: requires a stored user that parses, because the source's initial state throws otherwise. `InitialState` models that case as `None`.
- Cross-tab behaviour beyond the storage event for the unread flag, and React rendering itself, are not modelled.
- The user stored by the auth slice is written with an injective string encoding, not JSON text. Only the read-back property is modelled.
