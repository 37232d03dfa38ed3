/**
 * What the names of the permission flags say: the profile screen classifies a
 * flag by the words its name contains once lower-cased, not by its position in
 * the record. The lemmas here establish, name by name, which of those words
 * each of the eighteen names contains.
 */
module PermissionNames {
  import opened Text
  import opened Domain

  /** `key.toLowerCase().includes(word)`. */
  predicate Mentions(key: string, word: string)
  {
    Contains(ToLower(key), word)
  }

  /** The four view flags. */
  predicate IsViewFlag(f: Flag)
  {
    f == CanViewRecipes || f == CanViewPlateups || f == CanViewNotifications || f == CanViewPanels
  }

  /** The five headings of the profile screen's permission summary. */
  datatype Group = Recipes | Plateups | Notifications | Panels | Administration

  /** The word test of each heading. */
  predicate InGroup(key: string, g: Group)
  {
    match g
    case Recipes => Mentions(key, "recipe")
    case Plateups => Mentions(key, "plateup")
    case Notifications => Mentions(key, "notification")
    case Panels => Mentions(key, "panel")
    case Administration => Mentions(key, "team") || Mentions(key, "admin")
  }

  /** The heading a flag belongs to by its position in the permission record. */
  function GroupOf(f: Flag): Group
  {
    if f < 4 then Recipes
    else if f < 8 then Plateups
    else if f < 12 then Notifications
    else if f < 16 then Panels
    else Administration
  }

  /** The flag names are pairwise different. */
  lemma KeysDistinct(f: Flag, g: Flag)
    requires Key(f) == Key(g)
    ensures f == g
  {
  }

  /** A name mentions 'view' exactly when its flag is a view flag. */
  lemma ViewWord(f: Flag)
    ensures Mentions(Key(f), "view") <==> IsViewFlag(f)
  {
    if f == 0 {
      CanViewRecipesView(f);
    } else if f == 1 {
      CanEditRecipesView(f);
    } else if f == 2 {
      CanDeleteRecipesView(f);
    } else if f == 3 {
      CanUpdateRecipesView(f);
    } else if f == 4 {
      CanViewPlateupsView(f);
    } else if f == 5 {
      CanCreatePlateupsView(f);
    } else if f == 6 {
      CanDeletePlateupsView(f);
    } else if f == 7 {
      CanUpdatePlateupsView(f);
    } else if f == 8 {
      CanViewNotificationsView(f);
    } else if f == 9 {
      CanCreateNotificationsView(f);
    } else if f == 10 {
      CanDeleteNotificationsView(f);
    } else if f == 11 {
      CanUpdateNotificationsView(f);
    } else if f == 12 {
      CanViewPanelsView(f);
    } else if f == 13 {
      CanCreatePanelsView(f);
    } else if f == 14 {
      CanDeletePanelsView(f);
    } else if f == 15 {
      CanUpdatePanelsView(f);
    } else if f == 16 {
      CanManageTeamView(f);
    } else if f == 17 {
      CanAccessAdminView(f);
    }
  }

  /** A name other than a view flag's passes exactly the word test of its flag's heading. */
  lemma GroupWords(f: Flag)
    requires !IsViewFlag(f)
    ensures forall g :: InGroup(Key(f), g) <==> g == GroupOf(f)
  {
    if f == 1 {
      CanEditRecipesRecipe(f);
      CanEditRecipesPlateup(f);
      CanEditRecipesNotification(f);
      CanEditRecipesPanel(f);
      CanEditRecipesTeam(f);
      CanEditRecipesAdmin(f);
    } else if f == 2 {
      CanDeleteRecipesRecipe(f);
      CanDeleteRecipesPlateup(f);
      CanDeleteRecipesNotification(f);
      CanDeleteRecipesPanel(f);
      CanDeleteRecipesTeam(f);
      CanDeleteRecipesAdmin(f);
    } else if f == 3 {
      CanUpdateRecipesRecipe(f);
      CanUpdateRecipesPlateup(f);
      CanUpdateRecipesNotification(f);
      CanUpdateRecipesPanel(f);
      CanUpdateRecipesTeam(f);
      CanUpdateRecipesAdmin(f);
    } else if f == 5 {
      CanCreatePlateupsRecipe(f);
      CanCreatePlateupsPlateup(f);
      CanCreatePlateupsNotification(f);
      CanCreatePlateupsPanel(f);
      CanCreatePlateupsTeam(f);
      CanCreatePlateupsAdmin(f);
    } else if f == 6 {
      CanDeletePlateupsRecipe(f);
      CanDeletePlateupsPlateup(f);
      CanDeletePlateupsNotification(f);
      CanDeletePlateupsPanel(f);
      CanDeletePlateupsTeam(f);
      CanDeletePlateupsAdmin(f);
    } else if f == 7 {
      CanUpdatePlateupsRecipe(f);
      CanUpdatePlateupsPlateup(f);
      CanUpdatePlateupsNotification(f);
      CanUpdatePlateupsPanel(f);
      CanUpdatePlateupsTeam(f);
      CanUpdatePlateupsAdmin(f);
    } else if f == 9 {
      CanCreateNotificationsRecipe(f);
      CanCreateNotificationsPlateup(f);
      CanCreateNotificationsNotification(f);
      CanCreateNotificationsPanel(f);
      CanCreateNotificationsTeam(f);
      CanCreateNotificationsAdmin(f);
    } else if f == 10 {
      CanDeleteNotificationsRecipe(f);
      CanDeleteNotificationsPlateup(f);
      CanDeleteNotificationsNotification(f);
      CanDeleteNotificationsPanel(f);
      CanDeleteNotificationsTeam(f);
      CanDeleteNotificationsAdmin(f);
    } else if f == 11 {
      CanUpdateNotificationsRecipe(f);
      CanUpdateNotificationsPlateup(f);
      CanUpdateNotificationsNotification(f);
      CanUpdateNotificationsPanel(f);
      CanUpdateNotificationsTeam(f);
      CanUpdateNotificationsAdmin(f);
    } else if f == 13 {
      CanCreatePanelsRecipe(f);
      CanCreatePanelsPlateup(f);
      CanCreatePanelsNotification(f);
      CanCreatePanelsPanel(f);
      CanCreatePanelsTeam(f);
      CanCreatePanelsAdmin(f);
    } else if f == 14 {
      CanDeletePanelsRecipe(f);
      CanDeletePanelsPlateup(f);
      CanDeletePanelsNotification(f);
      CanDeletePanelsPanel(f);
      CanDeletePanelsTeam(f);
      CanDeletePanelsAdmin(f);
    } else if f == 15 {
      CanUpdatePanelsRecipe(f);
      CanUpdatePanelsPlateup(f);
      CanUpdatePanelsNotification(f);
      CanUpdatePanelsPanel(f);
      CanUpdatePanelsTeam(f);
      CanUpdatePanelsAdmin(f);
    } else if f == 16 {
      CanManageTeamRecipe(f);
      CanManageTeamPlateup(f);
      CanManageTeamNotification(f);
      CanManageTeamPanel(f);
      CanManageTeamTeam(f);
      CanManageTeamAdmin(f);
    } else if f == 17 {
      CanAccessAdminRecipe(f);
      CanAccessAdminPlateup(f);
      CanAccessAdminNotification(f);
      CanAccessAdminPanel(f);
      CanAccessAdminTeam(f);
      CanAccessAdminAdmin(f);
    }
  }

  /** A name holding the word with its first letter capitalised mentions the word. */
  lemma Present(k: string, a: string, cap: char, rest: string, b: string, w: string)
    requires k == a + [cap] + rest + b
    requires forall c :: c in rest ==> !('A' <= c <= 'Z')
    requires w == [LowerChar(cap)] + rest
    ensures Mentions(k, w)
  {
    ToLowerAppend(a + [cap] + rest, b);
    ToLowerAppend(a + [cap], rest);
    ToLowerAppend(a, [cap]);
    ToLowerOfLower(rest);
    assert ToLower([cap]) == [LowerChar(cap)];
    Regroup(ToLower(a), [LowerChar(cap)], rest);
    ContainsInfix(ToLower(a), w, ToLower(b));
  }

  /** Moving the brackets of a three-part concatenation. */
  lemma Regroup(x: string, y: string, z: string)
    ensures (x + y) + z == x + (y + z)
  {
  }

  /** A name lacking one of the word's letters, in either case, does not mention it. */
  lemma AbsentChar(k: string, w: string, c: char)
    requires 'a' <= c <= 'z' && c in w && c !in k && UpperChar(c) !in k
    ensures !Mentions(k, w)
  {
    LowerAvoids(k, c);
    NotContainsChar(ToLower(k), w, c);
  }

  /**
   * A name that splits into a part without the word's first letter and a part
   * without another of its letters does not mention the word.
   */
  lemma AbsentAfter(k: string, a: string, b: string, w: string, c: char)
    requires k == a + b && |w| > 0
    requires 'a' <= w[0] <= 'z' && w[0] !in a && UpperChar(w[0]) !in a
    requires 'a' <= c <= 'z' && c in w && c !in b && UpperChar(c) !in b
    ensures !Mentions(k, w)
  {
    ToLowerAppend(a, b);
    LowerAvoids(a, w[0]);
    LowerAvoids(b, c);
    NotContainsChar(ToLower(b), w, c);
    NotContainsAfter(ToLower(a), ToLower(b), w);
  }

  // The words of each name, one fact per lemma.

  // canViewRecipes

  lemma CanViewRecipesView(f: Flag)
    requires f == 0
    ensures Mentions(Key(f), "view")
  {
    var k := Key(f);
    assert k == "canViewRecipes";
    Present(k, "can", 'V', "iew", "Recipes", "view");
  }

  // canEditRecipes

  lemma CanEditRecipesView(f: Flag)
    requires f == 1
    ensures !Mentions(Key(f), "view")
  {
    var k := Key(f);
    assert k == "canEditRecipes";
    AbsentChar(k, "view", 'v');
  }

  lemma CanEditRecipesRecipe(f: Flag)
    requires f == 1
    ensures Mentions(Key(f), "recipe")
  {
    var k := Key(f);
    assert k == "canEditRecipes";
    Present(k, "canEdit", 'R', "ecipe", "s", "recipe");
  }

  lemma CanEditRecipesPlateup(f: Flag)
    requires f == 1
    ensures !Mentions(Key(f), "plateup")
  {
    var k := Key(f);
    assert k == "canEditRecipes";
    AbsentChar(k, "plateup", 'l');
  }

  lemma CanEditRecipesNotification(f: Flag)
    requires f == 1
    ensures !Mentions(Key(f), "notification")
  {
    var k := Key(f);
    assert k == "canEditRecipes";
    AbsentChar(k, "notification", 'o');
  }

  lemma CanEditRecipesPanel(f: Flag)
    requires f == 1
    ensures !Mentions(Key(f), "panel")
  {
    var k := Key(f);
    assert k == "canEditRecipes";
    AbsentChar(k, "panel", 'l');
  }

  lemma CanEditRecipesTeam(f: Flag)
    requires f == 1
    ensures !Mentions(Key(f), "team")
  {
    var k := Key(f);
    assert k == "canEditRecipes";
    AbsentChar(k, "team", 'm');
  }

  lemma CanEditRecipesAdmin(f: Flag)
    requires f == 1
    ensures !Mentions(Key(f), "admin")
  {
    var k := Key(f);
    assert k == "canEditRecipes";
    AbsentChar(k, "admin", 'm');
  }

  // canDeleteRecipes

  lemma CanDeleteRecipesView(f: Flag)
    requires f == 2
    ensures !Mentions(Key(f), "view")
  {
    var k := Key(f);
    assert k == "canDeleteRecipes";
    AbsentChar(k, "view", 'v');
  }

  lemma CanDeleteRecipesRecipe(f: Flag)
    requires f == 2
    ensures Mentions(Key(f), "recipe")
  {
    var k := Key(f);
    assert k == "canDeleteRecipes";
    Present(k, "canDelete", 'R', "ecipe", "s", "recipe");
  }

  lemma CanDeleteRecipesPlateup(f: Flag)
    requires f == 2
    ensures !Mentions(Key(f), "plateup")
  {
    var k := Key(f);
    assert k == "canDeleteRecipes";
    AbsentChar(k, "plateup", 'u');
  }

  lemma CanDeleteRecipesNotification(f: Flag)
    requires f == 2
    ensures !Mentions(Key(f), "notification")
  {
    var k := Key(f);
    assert k == "canDeleteRecipes";
    AbsentChar(k, "notification", 'o');
  }

  lemma CanDeleteRecipesPanel(f: Flag)
    requires f == 2
    ensures !Mentions(Key(f), "panel")
  {
    var k := Key(f);
    assert k == "canDeleteRecipes";
    AbsentAfter(k, "canDeleteReci", "pes", "panel", 'a');
  }

  lemma CanDeleteRecipesTeam(f: Flag)
    requires f == 2
    ensures !Mentions(Key(f), "team")
  {
    var k := Key(f);
    assert k == "canDeleteRecipes";
    AbsentChar(k, "team", 'm');
  }

  lemma CanDeleteRecipesAdmin(f: Flag)
    requires f == 2
    ensures !Mentions(Key(f), "admin")
  {
    var k := Key(f);
    assert k == "canDeleteRecipes";
    AbsentChar(k, "admin", 'm');
  }

  // canUpdateRecipes

  lemma CanUpdateRecipesView(f: Flag)
    requires f == 3
    ensures !Mentions(Key(f), "view")
  {
    var k := Key(f);
    assert k == "canUpdateRecipes";
    AbsentChar(k, "view", 'v');
  }

  lemma CanUpdateRecipesRecipe(f: Flag)
    requires f == 3
    ensures Mentions(Key(f), "recipe")
  {
    var k := Key(f);
    assert k == "canUpdateRecipes";
    Present(k, "canUpdate", 'R', "ecipe", "s", "recipe");
  }

  lemma CanUpdateRecipesPlateup(f: Flag)
    requires f == 3
    ensures !Mentions(Key(f), "plateup")
  {
    var k := Key(f);
    assert k == "canUpdateRecipes";
    AbsentChar(k, "plateup", 'l');
  }

  lemma CanUpdateRecipesNotification(f: Flag)
    requires f == 3
    ensures !Mentions(Key(f), "notification")
  {
    var k := Key(f);
    assert k == "canUpdateRecipes";
    AbsentChar(k, "notification", 'o');
  }

  lemma CanUpdateRecipesPanel(f: Flag)
    requires f == 3
    ensures !Mentions(Key(f), "panel")
  {
    var k := Key(f);
    assert k == "canUpdateRecipes";
    AbsentChar(k, "panel", 'l');
  }

  lemma CanUpdateRecipesTeam(f: Flag)
    requires f == 3
    ensures !Mentions(Key(f), "team")
  {
    var k := Key(f);
    assert k == "canUpdateRecipes";
    AbsentChar(k, "team", 'm');
  }

  lemma CanUpdateRecipesAdmin(f: Flag)
    requires f == 3
    ensures !Mentions(Key(f), "admin")
  {
    var k := Key(f);
    assert k == "canUpdateRecipes";
    AbsentChar(k, "admin", 'm');
  }

  // canViewPlateups

  lemma CanViewPlateupsView(f: Flag)
    requires f == 4
    ensures Mentions(Key(f), "view")
  {
    var k := Key(f);
    assert k == "canViewPlateups";
    Present(k, "can", 'V', "iew", "Plateups", "view");
  }

  // canCreatePlateups

  lemma CanCreatePlateupsView(f: Flag)
    requires f == 5
    ensures !Mentions(Key(f), "view")
  {
    var k := Key(f);
    assert k == "canCreatePlateups";
    AbsentChar(k, "view", 'v');
  }

  lemma CanCreatePlateupsRecipe(f: Flag)
    requires f == 5
    ensures !Mentions(Key(f), "recipe")
  {
    var k := Key(f);
    assert k == "canCreatePlateups";
    AbsentChar(k, "recipe", 'i');
  }

  lemma CanCreatePlateupsPlateup(f: Flag)
    requires f == 5
    ensures Mentions(Key(f), "plateup")
  {
    var k := Key(f);
    assert k == "canCreatePlateups";
    Present(k, "canCreate", 'P', "lateup", "s", "plateup");
  }

  lemma CanCreatePlateupsNotification(f: Flag)
    requires f == 5
    ensures !Mentions(Key(f), "notification")
  {
    var k := Key(f);
    assert k == "canCreatePlateups";
    AbsentChar(k, "notification", 'o');
  }

  lemma CanCreatePlateupsPanel(f: Flag)
    requires f == 5
    ensures !Mentions(Key(f), "panel")
  {
    var k := Key(f);
    assert k == "canCreatePlateups";
    AbsentAfter(k, "canCreate", "Plateups", "panel", 'n');
  }

  lemma CanCreatePlateupsTeam(f: Flag)
    requires f == 5
    ensures !Mentions(Key(f), "team")
  {
    var k := Key(f);
    assert k == "canCreatePlateups";
    AbsentChar(k, "team", 'm');
  }

  lemma CanCreatePlateupsAdmin(f: Flag)
    requires f == 5
    ensures !Mentions(Key(f), "admin")
  {
    var k := Key(f);
    assert k == "canCreatePlateups";
    AbsentChar(k, "admin", 'd');
  }

  // canDeletePlateups

  lemma CanDeletePlateupsView(f: Flag)
    requires f == 6
    ensures !Mentions(Key(f), "view")
  {
    var k := Key(f);
    assert k == "canDeletePlateups";
    AbsentChar(k, "view", 'v');
  }

  lemma CanDeletePlateupsRecipe(f: Flag)
    requires f == 6
    ensures !Mentions(Key(f), "recipe")
  {
    var k := Key(f);
    assert k == "canDeletePlateups";
    AbsentChar(k, "recipe", 'r');
  }

  lemma CanDeletePlateupsPlateup(f: Flag)
    requires f == 6
    ensures Mentions(Key(f), "plateup")
  {
    var k := Key(f);
    assert k == "canDeletePlateups";
    Present(k, "canDelete", 'P', "lateup", "s", "plateup");
  }

  lemma CanDeletePlateupsNotification(f: Flag)
    requires f == 6
    ensures !Mentions(Key(f), "notification")
  {
    var k := Key(f);
    assert k == "canDeletePlateups";
    AbsentChar(k, "notification", 'o');
  }

  lemma CanDeletePlateupsPanel(f: Flag)
    requires f == 6
    ensures !Mentions(Key(f), "panel")
  {
    var k := Key(f);
    assert k == "canDeletePlateups";
    AbsentAfter(k, "canDelete", "Plateups", "panel", 'n');
  }

  lemma CanDeletePlateupsTeam(f: Flag)
    requires f == 6
    ensures !Mentions(Key(f), "team")
  {
    var k := Key(f);
    assert k == "canDeletePlateups";
    AbsentChar(k, "team", 'm');
  }

  lemma CanDeletePlateupsAdmin(f: Flag)
    requires f == 6
    ensures !Mentions(Key(f), "admin")
  {
    var k := Key(f);
    assert k == "canDeletePlateups";
    AbsentChar(k, "admin", 'm');
  }

  // canUpdatePlateups

  lemma CanUpdatePlateupsView(f: Flag)
    requires f == 7
    ensures !Mentions(Key(f), "view")
  {
    var k := Key(f);
    assert k == "canUpdatePlateups";
    AbsentChar(k, "view", 'v');
  }

  lemma CanUpdatePlateupsRecipe(f: Flag)
    requires f == 7
    ensures !Mentions(Key(f), "recipe")
  {
    var k := Key(f);
    assert k == "canUpdatePlateups";
    AbsentChar(k, "recipe", 'r');
  }

  lemma CanUpdatePlateupsPlateup(f: Flag)
    requires f == 7
    ensures Mentions(Key(f), "plateup")
  {
    var k := Key(f);
    assert k == "canUpdatePlateups";
    Present(k, "canUpdate", 'P', "lateup", "s", "plateup");
  }

  lemma CanUpdatePlateupsNotification(f: Flag)
    requires f == 7
    ensures !Mentions(Key(f), "notification")
  {
    var k := Key(f);
    assert k == "canUpdatePlateups";
    AbsentChar(k, "notification", 'o');
  }

  lemma CanUpdatePlateupsPanel(f: Flag)
    requires f == 7
    ensures !Mentions(Key(f), "panel")
  {
    var k := Key(f);
    assert k == "canUpdatePlateups";
    AbsentAfter(k, "canU", "pdatePlateups", "panel", 'n');
  }

  lemma CanUpdatePlateupsTeam(f: Flag)
    requires f == 7
    ensures !Mentions(Key(f), "team")
  {
    var k := Key(f);
    assert k == "canUpdatePlateups";
    AbsentChar(k, "team", 'm');
  }

  lemma CanUpdatePlateupsAdmin(f: Flag)
    requires f == 7
    ensures !Mentions(Key(f), "admin")
  {
    var k := Key(f);
    assert k == "canUpdatePlateups";
    AbsentChar(k, "admin", 'm');
  }

  // canViewNotifications

  lemma CanViewNotificationsView(f: Flag)
    requires f == 8
    ensures Mentions(Key(f), "view")
  {
    var k := Key(f);
    assert k == "canViewNotifications";
    Present(k, "can", 'V', "iew", "Notifications", "view");
  }

  // canCreateNotifications

  lemma CanCreateNotificationsView(f: Flag)
    requires f == 9
    ensures !Mentions(Key(f), "view")
  {
    var k := Key(f);
    assert k == "canCreateNotifications";
    AbsentChar(k, "view", 'v');
  }

  lemma CanCreateNotificationsRecipe(f: Flag)
    requires f == 9
    ensures !Mentions(Key(f), "recipe")
  {
    var k := Key(f);
    assert k == "canCreateNotifications";
    AbsentChar(k, "recipe", 'p');
  }

  lemma CanCreateNotificationsPlateup(f: Flag)
    requires f == 9
    ensures !Mentions(Key(f), "plateup")
  {
    var k := Key(f);
    assert k == "canCreateNotifications";
    AbsentChar(k, "plateup", 'p');
  }

  lemma CanCreateNotificationsNotification(f: Flag)
    requires f == 9
    ensures Mentions(Key(f), "notification")
  {
    var k := Key(f);
    assert k == "canCreateNotifications";
    Present(k, "canCreate", 'N', "otification", "s", "notification");
  }

  lemma CanCreateNotificationsPanel(f: Flag)
    requires f == 9
    ensures !Mentions(Key(f), "panel")
  {
    var k := Key(f);
    assert k == "canCreateNotifications";
    AbsentChar(k, "panel", 'p');
  }

  lemma CanCreateNotificationsTeam(f: Flag)
    requires f == 9
    ensures !Mentions(Key(f), "team")
  {
    var k := Key(f);
    assert k == "canCreateNotifications";
    AbsentChar(k, "team", 'm');
  }

  lemma CanCreateNotificationsAdmin(f: Flag)
    requires f == 9
    ensures !Mentions(Key(f), "admin")
  {
    var k := Key(f);
    assert k == "canCreateNotifications";
    AbsentChar(k, "admin", 'd');
  }

  // canDeleteNotifications

  lemma CanDeleteNotificationsView(f: Flag)
    requires f == 10
    ensures !Mentions(Key(f), "view")
  {
    var k := Key(f);
    assert k == "canDeleteNotifications";
    AbsentChar(k, "view", 'v');
  }

  lemma CanDeleteNotificationsRecipe(f: Flag)
    requires f == 10
    ensures !Mentions(Key(f), "recipe")
  {
    var k := Key(f);
    assert k == "canDeleteNotifications";
    AbsentChar(k, "recipe", 'r');
  }

  lemma CanDeleteNotificationsPlateup(f: Flag)
    requires f == 10
    ensures !Mentions(Key(f), "plateup")
  {
    var k := Key(f);
    assert k == "canDeleteNotifications";
    AbsentChar(k, "plateup", 'p');
  }

  lemma CanDeleteNotificationsNotification(f: Flag)
    requires f == 10
    ensures Mentions(Key(f), "notification")
  {
    var k := Key(f);
    assert k == "canDeleteNotifications";
    Present(k, "canDelete", 'N', "otification", "s", "notification");
  }

  lemma CanDeleteNotificationsPanel(f: Flag)
    requires f == 10
    ensures !Mentions(Key(f), "panel")
  {
    var k := Key(f);
    assert k == "canDeleteNotifications";
    AbsentChar(k, "panel", 'p');
  }

  lemma CanDeleteNotificationsTeam(f: Flag)
    requires f == 10
    ensures !Mentions(Key(f), "team")
  {
    var k := Key(f);
    assert k == "canDeleteNotifications";
    AbsentChar(k, "team", 'm');
  }

  lemma CanDeleteNotificationsAdmin(f: Flag)
    requires f == 10
    ensures !Mentions(Key(f), "admin")
  {
    var k := Key(f);
    assert k == "canDeleteNotifications";
    AbsentChar(k, "admin", 'm');
  }

  // canUpdateNotifications

  lemma CanUpdateNotificationsView(f: Flag)
    requires f == 11
    ensures !Mentions(Key(f), "view")
  {
    var k := Key(f);
    assert k == "canUpdateNotifications";
    AbsentChar(k, "view", 'v');
  }

  lemma CanUpdateNotificationsRecipe(f: Flag)
    requires f == 11
    ensures !Mentions(Key(f), "recipe")
  {
    var k := Key(f);
    assert k == "canUpdateNotifications";
    AbsentChar(k, "recipe", 'r');
  }

  lemma CanUpdateNotificationsPlateup(f: Flag)
    requires f == 11
    ensures !Mentions(Key(f), "plateup")
  {
    var k := Key(f);
    assert k == "canUpdateNotifications";
    AbsentChar(k, "plateup", 'l');
  }

  lemma CanUpdateNotificationsNotification(f: Flag)
    requires f == 11
    ensures Mentions(Key(f), "notification")
  {
    var k := Key(f);
    assert k == "canUpdateNotifications";
    Present(k, "canUpdate", 'N', "otification", "s", "notification");
  }

  lemma CanUpdateNotificationsPanel(f: Flag)
    requires f == 11
    ensures !Mentions(Key(f), "panel")
  {
    var k := Key(f);
    assert k == "canUpdateNotifications";
    AbsentChar(k, "panel", 'l');
  }

  lemma CanUpdateNotificationsTeam(f: Flag)
    requires f == 11
    ensures !Mentions(Key(f), "team")
  {
    var k := Key(f);
    assert k == "canUpdateNotifications";
    AbsentChar(k, "team", 'm');
  }

  lemma CanUpdateNotificationsAdmin(f: Flag)
    requires f == 11
    ensures !Mentions(Key(f), "admin")
  {
    var k := Key(f);
    assert k == "canUpdateNotifications";
    AbsentChar(k, "admin", 'm');
  }

  // canViewPanels

  lemma CanViewPanelsView(f: Flag)
    requires f == 12
    ensures Mentions(Key(f), "view")
  {
    var k := Key(f);
    assert k == "canViewPanels";
    Present(k, "can", 'V', "iew", "Panels", "view");
  }

  // canCreatePanels

  lemma CanCreatePanelsView(f: Flag)
    requires f == 13
    ensures !Mentions(Key(f), "view")
  {
    var k := Key(f);
    assert k == "canCreatePanels";
    AbsentChar(k, "view", 'v');
  }

  lemma CanCreatePanelsRecipe(f: Flag)
    requires f == 13
    ensures !Mentions(Key(f), "recipe")
  {
    var k := Key(f);
    assert k == "canCreatePanels";
    AbsentChar(k, "recipe", 'i');
  }

  lemma CanCreatePanelsPlateup(f: Flag)
    requires f == 13
    ensures !Mentions(Key(f), "plateup")
  {
    var k := Key(f);
    assert k == "canCreatePanels";
    AbsentChar(k, "plateup", 'u');
  }

  lemma CanCreatePanelsNotification(f: Flag)
    requires f == 13
    ensures !Mentions(Key(f), "notification")
  {
    var k := Key(f);
    assert k == "canCreatePanels";
    AbsentChar(k, "notification", 'o');
  }

  lemma CanCreatePanelsPanel(f: Flag)
    requires f == 13
    ensures Mentions(Key(f), "panel")
  {
    var k := Key(f);
    assert k == "canCreatePanels";
    Present(k, "canCreate", 'P', "anel", "s", "panel");
  }

  lemma CanCreatePanelsTeam(f: Flag)
    requires f == 13
    ensures !Mentions(Key(f), "team")
  {
    var k := Key(f);
    assert k == "canCreatePanels";
    AbsentChar(k, "team", 'm');
  }

  lemma CanCreatePanelsAdmin(f: Flag)
    requires f == 13
    ensures !Mentions(Key(f), "admin")
  {
    var k := Key(f);
    assert k == "canCreatePanels";
    AbsentChar(k, "admin", 'd');
  }

  // canDeletePanels

  lemma CanDeletePanelsView(f: Flag)
    requires f == 14
    ensures !Mentions(Key(f), "view")
  {
    var k := Key(f);
    assert k == "canDeletePanels";
    AbsentChar(k, "view", 'v');
  }

  lemma CanDeletePanelsRecipe(f: Flag)
    requires f == 14
    ensures !Mentions(Key(f), "recipe")
  {
    var k := Key(f);
    assert k == "canDeletePanels";
    AbsentChar(k, "recipe", 'r');
  }

  lemma CanDeletePanelsPlateup(f: Flag)
    requires f == 14
    ensures !Mentions(Key(f), "plateup")
  {
    var k := Key(f);
    assert k == "canDeletePanels";
    AbsentChar(k, "plateup", 'u');
  }

  lemma CanDeletePanelsNotification(f: Flag)
    requires f == 14
    ensures !Mentions(Key(f), "notification")
  {
    var k := Key(f);
    assert k == "canDeletePanels";
    AbsentChar(k, "notification", 'o');
  }

  lemma CanDeletePanelsPanel(f: Flag)
    requires f == 14
    ensures Mentions(Key(f), "panel")
  {
    var k := Key(f);
    assert k == "canDeletePanels";
    Present(k, "canDelete", 'P', "anel", "s", "panel");
  }

  lemma CanDeletePanelsTeam(f: Flag)
    requires f == 14
    ensures !Mentions(Key(f), "team")
  {
    var k := Key(f);
    assert k == "canDeletePanels";
    AbsentChar(k, "team", 'm');
  }

  lemma CanDeletePanelsAdmin(f: Flag)
    requires f == 14
    ensures !Mentions(Key(f), "admin")
  {
    var k := Key(f);
    assert k == "canDeletePanels";
    AbsentChar(k, "admin", 'm');
  }

  // canUpdatePanels

  lemma CanUpdatePanelsView(f: Flag)
    requires f == 15
    ensures !Mentions(Key(f), "view")
  {
    var k := Key(f);
    assert k == "canUpdatePanels";
    AbsentChar(k, "view", 'v');
  }

  lemma CanUpdatePanelsRecipe(f: Flag)
    requires f == 15
    ensures !Mentions(Key(f), "recipe")
  {
    var k := Key(f);
    assert k == "canUpdatePanels";
    AbsentChar(k, "recipe", 'r');
  }

  lemma CanUpdatePanelsPlateup(f: Flag)
    requires f == 15
    ensures !Mentions(Key(f), "plateup")
  {
    var k := Key(f);
    assert k == "canUpdatePanels";
    AbsentAfter(k, "canU", "pdatePanels", "plateup", 'u');
  }

  lemma CanUpdatePanelsNotification(f: Flag)
    requires f == 15
    ensures !Mentions(Key(f), "notification")
  {
    var k := Key(f);
    assert k == "canUpdatePanels";
    AbsentChar(k, "notification", 'o');
  }

  lemma CanUpdatePanelsPanel(f: Flag)
    requires f == 15
    ensures Mentions(Key(f), "panel")
  {
    var k := Key(f);
    assert k == "canUpdatePanels";
    Present(k, "canUpdate", 'P', "anel", "s", "panel");
  }

  lemma CanUpdatePanelsTeam(f: Flag)
    requires f == 15
    ensures !Mentions(Key(f), "team")
  {
    var k := Key(f);
    assert k == "canUpdatePanels";
    AbsentChar(k, "team", 'm');
  }

  lemma CanUpdatePanelsAdmin(f: Flag)
    requires f == 15
    ensures !Mentions(Key(f), "admin")
  {
    var k := Key(f);
    assert k == "canUpdatePanels";
    AbsentChar(k, "admin", 'm');
  }

  // canManageTeam

  lemma CanManageTeamView(f: Flag)
    requires f == 16
    ensures !Mentions(Key(f), "view")
  {
    var k := Key(f);
    assert k == "canManageTeam";
    AbsentChar(k, "view", 'v');
  }

  lemma CanManageTeamRecipe(f: Flag)
    requires f == 16
    ensures !Mentions(Key(f), "recipe")
  {
    var k := Key(f);
    assert k == "canManageTeam";
    AbsentChar(k, "recipe", 'r');
  }

  lemma CanManageTeamPlateup(f: Flag)
    requires f == 16
    ensures !Mentions(Key(f), "plateup")
  {
    var k := Key(f);
    assert k == "canManageTeam";
    AbsentChar(k, "plateup", 'p');
  }

  lemma CanManageTeamNotification(f: Flag)
    requires f == 16
    ensures !Mentions(Key(f), "notification")
  {
    var k := Key(f);
    assert k == "canManageTeam";
    AbsentChar(k, "notification", 'o');
  }

  lemma CanManageTeamPanel(f: Flag)
    requires f == 16
    ensures !Mentions(Key(f), "panel")
  {
    var k := Key(f);
    assert k == "canManageTeam";
    AbsentChar(k, "panel", 'p');
  }

  lemma CanManageTeamTeam(f: Flag)
    requires f == 16
    ensures Mentions(Key(f), "team")
  {
    var k := Key(f);
    assert k == "canManageTeam";
    Present(k, "canManage", 'T', "eam", "", "team");
  }

  lemma CanManageTeamAdmin(f: Flag)
    requires f == 16
    ensures !Mentions(Key(f), "admin")
  {
    var k := Key(f);
    assert k == "canManageTeam";
    AbsentChar(k, "admin", 'd');
  }

  // canAccessAdmin

  lemma CanAccessAdminView(f: Flag)
    requires f == 17
    ensures !Mentions(Key(f), "view")
  {
    var k := Key(f);
    assert k == "canAccessAdmin";
    AbsentChar(k, "view", 'v');
  }

  lemma CanAccessAdminRecipe(f: Flag)
    requires f == 17
    ensures !Mentions(Key(f), "recipe")
  {
    var k := Key(f);
    assert k == "canAccessAdmin";
    AbsentChar(k, "recipe", 'r');
  }

  lemma CanAccessAdminPlateup(f: Flag)
    requires f == 17
    ensures !Mentions(Key(f), "plateup")
  {
    var k := Key(f);
    assert k == "canAccessAdmin";
    AbsentChar(k, "plateup", 'p');
  }

  lemma CanAccessAdminNotification(f: Flag)
    requires f == 17
    ensures !Mentions(Key(f), "notification")
  {
    var k := Key(f);
    assert k == "canAccessAdmin";
    AbsentChar(k, "notification", 'o');
  }

  lemma CanAccessAdminPanel(f: Flag)
    requires f == 17
    ensures !Mentions(Key(f), "panel")
  {
    var k := Key(f);
    assert k == "canAccessAdmin";
    AbsentChar(k, "panel", 'p');
  }

  lemma CanAccessAdminTeam(f: Flag)
    requires f == 17
    ensures !Mentions(Key(f), "team")
  {
    var k := Key(f);
    assert k == "canAccessAdmin";
    AbsentChar(k, "team", 't');
  }

  lemma CanAccessAdminAdmin(f: Flag)
    requires f == 17
    ensures Mentions(Key(f), "admin")
  {
    var k := Key(f);
    assert k == "canAccessAdmin";
    Present(k, "canAccess", 'A', "dmin", "", "admin");
  }
}
