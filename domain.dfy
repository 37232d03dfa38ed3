/**
 * The front end's shared record types: permissions, users and the normalised
 * panel, recipe, plate-up, folder and notification records.
 */
module Domain {
  import opened Wrappers
  import opened Wire

  /**
   * A permission flag, numbered by its position in the declaration order of the
   * permission record (the order `Object.entries` lists the flags in).
   */
  newtype Flag = i: int | 0 <= i < 18

  const CanViewRecipes: Flag := 0
  const CanEditRecipes: Flag := 1
  const CanDeleteRecipes: Flag := 2
  const CanUpdateRecipes: Flag := 3
  const CanViewPlateups: Flag := 4
  const CanCreatePlateups: Flag := 5
  const CanDeletePlateups: Flag := 6
  const CanUpdatePlateups: Flag := 7
  const CanViewNotifications: Flag := 8
  const CanCreateNotifications: Flag := 9
  const CanDeleteNotifications: Flag := 10
  const CanUpdateNotifications: Flag := 11
  const CanViewPanels: Flag := 12
  const CanCreatePanels: Flag := 13
  const CanDeletePanels: Flag := 14
  const CanUpdatePanels: Flag := 15
  const CanManageTeam: Flag := 16
  const CanAccessAdmin: Flag := 17

  /** The property names of the flags, in declaration order. */
  const Keys: seq<string> := [
    "canViewRecipes", "canEditRecipes", "canDeleteRecipes", "canUpdateRecipes",
    "canViewPlateups", "canCreatePlateups", "canDeletePlateups", "canUpdatePlateups",
    "canViewNotifications", "canCreateNotifications", "canDeleteNotifications", "canUpdateNotifications",
    "canViewPanels", "canCreatePanels", "canDeletePanels", "canUpdatePanels",
    "canManageTeam", "canAccessAdmin"]

  function Key(f: Flag): string
  {
    Keys[f]
  }

  /** A permission record: one boolean per flag, in declaration order. */
  type Perms = s: seq<bool> | |s| == 18
    witness [false, false, false, false, false, false, false, false, false,
     false, false, false, false, false, false, false, false, false]

  /** The record every screen falls back to when a user carries no permissions. */
  const AllFalse: Perms :=
    [false, false, false, false, false, false, false, false, false,
     false, false, false, false, false, false, false, false, false]

  /** `p[Key(f)]`. */
  function Read(p: Perms, f: Flag): bool
  {
    p[f]
  }

  /** `{...p, [Key(f)]: v}`. */
  function Write(p: Perms, f: Flag, v: bool): (q: Perms)
    ensures Read(q, f) == v
    ensures forall g :: g != f ==> Read(q, g) == Read(p, g)
  {
    p[f as int := v]
  }

  /** A signed-in user as the store and the team list hold it. */
  datatype User = User(
    id: string,
    email: string,
    name: string,
    role: string,
    status: string,
    organization: Option<string>,
    permissions: Option<Perms>)

  const HeadChef := "head-chef"

  /** `user?.permissions?.[Key(f)]`, false when there is no user or no permission record. */
  predicate Can(user: Option<User>, f: Flag)
  {
    user.Some? && user.value.permissions.Some? && Read(user.value.permissions.value, f)
  }

  predicate IsHeadChef(user: Option<User>)
  {
    user.Some? && user.value.role == HeadChef
  }

  datatype Image = Image(url: string, publicId: string)

  /** A panel (a recipe category); `isActive`, `createdBy` and `updatedBy` are passed through unchecked. */
  datatype Panel = Panel(
    id: string, name: string, order: Number, recipeCount: Number, image: Option<Image>,
    isActive: Json, createdBy: Json, updatedBy: Json)

  datatype Ingredient = Ingredient(
    name: string, quantity: Option<string>, unit: Option<string>, notes: Option<string>)

  /** A recipe; `steps` holds the method text. */
  datatype Recipe = Recipe(
    id: string, title: string, panel: string, image: Option<Image>,
    ingredients: seq<Ingredient>, steps: string, chefNotes: Option<string>,
    prepTime: Option<Number>, cookTime: Option<Number>, servings: Option<Number>,
    difficulty: Json, tags: seq<string>, isActive: Json, createdBy: Json, updatedBy: Json,
    version: Option<Number>)

  datatype Plateup = Plateup(
    id: string, name: string, image: Option<Image>, createdBy: Json, updatedBy: Json)

  datatype PlateupFolder = PlateupFolder(id: string, name: string, createdBy: Json, updatedBy: Json)

  datatype Notification = Notification(
    id: string, title: string, message: string, kind: string, createdAt: string, read: bool)

  datatype PendingRequest = PendingRequest(id: string, name: string, status: string)
}
