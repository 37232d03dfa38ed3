/**
 * The normalisers that turn server replies into the front end's records:
 * ids from `_id` or `id`, optional fields that are absent or `undefined`,
 * references given as an id or an embedded object, and list replies given as
 * a bare array or wrapped as `{data: [...]}`.
 */
module WireNormalisers {
  import opened Wrappers
  import opened Wire
  import opened Domain

  /** `String(j._id ?? j.id)`: `_id` wins whenever it is neither `null` nor `undefined`. */
  function RecordId(j: Json): (id: string)
    ensures !IsNullish(Get(j, "_id")) ==> id == ToStr(Get(j, "_id"))
    ensures IsNullish(Get(j, "_id")) ==> id == ToStr(Get(j, "id"))
  {
    ToStr(Coalesce(Get(j, "_id"), Get(j, "id")))
  }

  /** `String(j[key])` when `key in j` and the value is not `undefined`; otherwise absent. */
  function OptionalString(j: Json, key: string): (r: Option<string>)
    ensures r.None? <==> !Has(j, key) || Get(j, key) == JUndefined
    ensures r.Some? ==> r.value == ToStr(Get(j, key))
  {
    if Has(j, key) && Get(j, key) != JUndefined then Some(ToStr(Get(j, key))) else None
  }

  /** `Number(j[key])` under the same presence rule. */
  function OptionalNumber(j: Json, key: string): (r: Option<Number>)
    ensures r.None? <==> !Has(j, key) || Get(j, key) == JUndefined
    ensures r.Some? ==> r.value == ToNumber(Get(j, key))
  {
    if Has(j, key) && Get(j, key) != JUndefined then Some(ToNumber(Get(j, key))) else None
  }

  /** An image object; panels and plate-ups need both `url` and `publicId`, recipes only `url`. */
  function ImageOf(j: Json, needPublicId: bool): (r: Option<Image>)
    ensures r.Some? <==> j.JObj? && "url" in j.fields && (needPublicId ==> "publicId" in j.fields)
    ensures r.Some? ==> r.value == Image(ToStr(j.fields["url"]), ToStr(Get(j, "publicId")))
  {
    if Truthy(j) && j.JObj? && Has(j, "url") && (!needPublicId || Has(j, "publicId"))
    then Some(Image(ToStr(Get(j, "url")), ToStr(Get(j, "publicId"))))
    else None
  }

  /** A panel: the id by the `_id`/`id` rule, name and counters coerced, an image only with `url` and `publicId`. */
  function TransformPanel(j: Json): (p: Panel)
    ensures p.id == RecordId(j) && p.name == ToStr(Get(j, "name"))
    ensures p.order == ToNumber(Get(j, "order")) && p.recipeCount == ToNumber(Get(j, "recipeCount"))
    ensures p.image.Some? <==> Get(j, "image").JObj? && "url" in Get(j, "image").fields
                               && "publicId" in Get(j, "image").fields
  {
    Panel(RecordId(j), ToStr(Get(j, "name")), ToNumber(Get(j, "order")), ToNumber(Get(j, "recipeCount")),
          ImageOf(Get(j, "image"), true),
          Get(j, "isActive"), Get(j, "createdBy"), Get(j, "updatedBy"))
  }

  /** An ingredient: its name as text, and each optional field absent exactly when missing or `undefined`. */
  function TransformIngredient(j: Json): (i: Ingredient)
    ensures i.name == ToStr(Get(j, "name"))
    ensures i.quantity.None? <==> !Has(j, "quantity") || Get(j, "quantity") == JUndefined
    ensures i.unit.None? <==> !Has(j, "unit") || Get(j, "unit") == JUndefined
    ensures i.notes.None? <==> !Has(j, "notes") || Get(j, "notes") == JUndefined
  {
    Ingredient(ToStr(Get(j, "name")), OptionalString(j, "quantity"), OptionalString(j, "unit"),
               OptionalString(j, "notes"))
  }

  /**
   * A recipe's panel: a string is kept as it is; anything else is read as an
   * embedded panel, whose `_id`, then `id`, then `''` is taken.
   */
  function PanelReference(p: Json): (r: string)
    ensures p.JStr? ==> r == p.s
    ensures !p.JStr? && !IsNullish(Get(p, "_id")) ==> r == ToStr(Get(p, "_id"))
    ensures !p.JStr? && IsNullish(Get(p, "_id")) && !IsNullish(Get(p, "id")) ==> r == ToStr(Get(p, "id"))
    ensures !p.JStr? && IsNullish(Get(p, "_id")) && IsNullish(Get(p, "id")) ==> r == ""
  {
    if p.JStr? then p.s else ToStr(Coalesce(Coalesce(Get(p, "_id"), Get(p, "id")), JStr("")))
  }

  /** `xs.map(f)`. */
  function MapItems<T>(xs: seq<Json>, f: Json -> T): (r: seq<T>)
    ensures |r| == |xs|
    ensures forall i :: 0 <= i < |xs| ==> r[i] == f(xs[i])
  {
    seq(|xs|, i requires 0 <= i < |xs| => f(xs[i]))
  }

  /** The `ingredients` array normalised element by element; anything else gives none. */
  function IngredientsOf(v: Json): seq<Ingredient>
  {
    if v.JArr? then MapItems(v.items, TransformIngredient) else []
  }

  /** The `tags` array with each element as text; anything else gives none. */
  function TagsOf(v: Json): seq<string>
  {
    if v.JArr? then MapItems(v.items, x => ToStr(x)) else []
  }

  /**
   * A recipe: the id by the `_id`/`id` rule, the panel as a reference, an image
   * whenever it has a `url`, and one ingredient per element of an `ingredients` array.
   */
  function TransformRecipe(j: Json): (r: Recipe)
    ensures r.id == RecordId(j) && r.title == ToStr(Get(j, "title")) && r.steps == ToStr(Get(j, "method"))
    ensures r.panel == PanelReference(Get(j, "panel"))
    ensures r.image.Some? <==> Get(j, "image").JObj? && "url" in Get(j, "image").fields
    ensures |r.ingredients| == if Get(j, "ingredients").JArr? then |Get(j, "ingredients").items| else 0
  {
    Recipe(
      RecordId(j), ToStr(Get(j, "title")), PanelReference(Get(j, "panel")), ImageOf(Get(j, "image"), false),
      IngredientsOf(Get(j, "ingredients")),
      ToStr(Get(j, "method")), OptionalString(j, "chefNotes"),
      OptionalNumber(j, "prepTime"), OptionalNumber(j, "cookTime"), OptionalNumber(j, "servings"),
      Get(j, "difficulty"),
      TagsOf(Get(j, "tags")),
      Get(j, "isActive"), Get(j, "createdBy"), Get(j, "updatedBy"),
      OptionalNumber(j, "version"))
  }

  /** A plate-up: the id by the `_id`/`id` rule, its name, an image only with `url` and `publicId`. */
  function TransformPlateup(j: Json): (p: Plateup)
    ensures p.id == RecordId(j) && p.name == ToStr(Get(j, "name"))
    ensures p.image.Some? <==> Get(j, "image").JObj? && "url" in Get(j, "image").fields
                               && "publicId" in Get(j, "image").fields
  {
    Plateup(RecordId(j), ToStr(Get(j, "name")), ImageOf(Get(j, "image"), true),
            Get(j, "createdBy"), Get(j, "updatedBy"))
  }

  /** A plate-up folder: the id by the `_id`/`id` rule and its name. */
  function TransformPlateupFolder(j: Json): (f: PlateupFolder)
    ensures f.id == RecordId(j) && f.name == ToStr(Get(j, "name"))
  {
    PlateupFolder(RecordId(j), ToStr(Get(j, "name")), Get(j, "createdBy"), Get(j, "updatedBy"))
  }

  /** A notification; `type` defaults to `'info'`, `createdAt` to `''`, and `read` is false unless present. */
  function TransformNotification(j: Json): (n: Notification)
    ensures IsNullish(Get(j, "type")) ==> n.kind == "info"
    ensures IsNullish(Get(j, "createdAt")) ==> n.createdAt == ""
    ensures !Has(j, "read") ==> !n.read
    ensures Has(j, "read") ==> (n.read <==> Truthy(Get(j, "read")))
  {
    Notification(RecordId(j), ToStr(Get(j, "title")), ToStr(Get(j, "message")),
                 ToStr(Coalesce(Get(j, "type"), JStr("info"))),
                 ToStr(Coalesce(Get(j, "createdAt"), JStr(""))),
                 if Has(j, "read") then Truthy(Get(j, "read")) else false)
  }

  /** A permission object: a flag holds when its property is `true`; no object at all means all false. */
  function PermsOf(j: Json): (p: Perms)
    ensures !Truthy(j) ==> p == AllFalse
    ensures Truthy(j) ==> forall f: Flag :: Read(p, f) <==> Get(j, Key(f)) == JBool(true)
  {
    if Truthy(j) then seq(18, i requires 0 <= i < 18 => Get(j, Keys[i]) == JBool(true)) else AllFalse
  }

  /** A team member: the organization is `''` unless truthy, and a missing permission object is all false. */
  function TransformTeamMember(j: Json): (u: User)
    ensures u.id == RecordId(j)
    ensures u.organization == Some(if Truthy(Get(j, "organization")) then ToStr(Get(j, "organization")) else "")
    ensures u.permissions.Some? && (!Truthy(Get(j, "permissions")) ==> u.permissions.value == AllFalse)
  {
    var org := Get(j, "organization");
    User(RecordId(j), ToStr(Get(j, "email")), ToStr(Get(j, "name")), ToStr(Get(j, "role")),
         ToStr(Get(j, "status")),
         Some(if Truthy(org) then ToStr(org) else ""),
         Some(PermsOf(Get(j, "permissions"))))
  }

  /** A pending chef request: the id by the `_id`/`id` rule, the name and the status as text. */
  function TransformPendingRequest(j: Json): (p: PendingRequest)
    ensures p.id == RecordId(j) && p.name == ToStr(Get(j, "name")) && p.status == ToStr(Get(j, "status"))
  {
    PendingRequest(RecordId(j), ToStr(Get(j, "name")), ToStr(Get(j, "status")))
  }

  /** Every normaliser takes the same id: `_id` whenever it is present, so it wins over `id`. */
  lemma IdsPreferUnderscoreId(j: Json)
    requires !IsNullish(Get(j, "_id"))
    ensures var id := ToStr(Get(j, "_id"));
      && TransformPanel(j).id == id && TransformRecipe(j).id == id
      && TransformPlateup(j).id == id && TransformPlateupFolder(j).id == id
      && TransformNotification(j).id == id && TransformTeamMember(j).id == id
      && TransformPendingRequest(j).id == id
  {
  }

  /**
   * A recipe's optional fields, and an ingredient's, are absent exactly when
   * their key is missing or holds `undefined`; `null` is kept as a value.
   */
  lemma OptionalFieldsAbsentExactly(j: Json)
    ensures var r := TransformRecipe(j);
      && (r.chefNotes.None? <==> !Has(j, "chefNotes") || Get(j, "chefNotes") == JUndefined)
      && (r.prepTime.None? <==> !Has(j, "prepTime") || Get(j, "prepTime") == JUndefined)
      && (r.cookTime.None? <==> !Has(j, "cookTime") || Get(j, "cookTime") == JUndefined)
      && (r.servings.None? <==> !Has(j, "servings") || Get(j, "servings") == JUndefined)
      && (r.version.None? <==> !Has(j, "version") || Get(j, "version") == JUndefined)
    ensures var i := TransformIngredient(j);
      && (i.quantity.None? <==> !Has(j, "quantity") || Get(j, "quantity") == JUndefined)
      && (i.unit.None? <==> !Has(j, "unit") || Get(j, "unit") == JUndefined)
      && (i.notes.None? <==> !Has(j, "notes") || Get(j, "notes") == JUndefined)
  {
  }

  /** The ingredients and tags of a recipe: one per array element, in order; none when not an array. */
  lemma RecipeListsFollowArrays(j: Json)
    ensures var r := TransformRecipe(j);
      var ing := Get(j, "ingredients");
      var tags := Get(j, "tags");
      && (ing.JArr? ==> |r.ingredients| == |ing.items|)
      && (ing.JArr? ==> forall i :: 0 <= i < |ing.items| ==> r.ingredients[i] == TransformIngredient(ing.items[i]))
      && (!ing.JArr? ==> r.ingredients == [])
      && (tags.JArr? ==> |r.tags| == |tags.items|)
      && (tags.JArr? ==> forall i :: 0 <= i < |tags.items| ==> r.tags[i] == ToStr(tags.items[i]))
      && (!tags.JArr? ==> r.tags == [])
  {
  }

  /** Reading a property of `j` (`j._id`, `j.name`) throws exactly when `j` is `null` or `undefined`. */
  predicate ReadThrows(j: Json)
  {
    IsNullish(j)
  }

  /** `'key' in j` throws unless `j` is an object; an array is one too. */
  predicate InThrows(j: Json)
  {
    !(j.JObj? || j.JArr?)
  }

  /**
   * `transformRecipe` throws on a record that `in` cannot test, and on such an
   * element of an `ingredients` array, which `transformIngredient` tests with `in`.
   */
  predicate RecipeThrows(j: Json)
  {
    InThrows(j) || (Get(j, "ingredients").JArr? && exists x :: x in Get(j, "ingredients").items && InThrows(x))
  }

  /**
   * The elements of a list reply: a bare array, or the `data` of an envelope
   * (`[]` when `data` is `null` or missing). `None` where reading them throws:
   * a `null` reply, or a `data` that is not an array and so has no `map`.
   */
  function ListItems(r: Json): (items: Option<seq<Json>>)
    ensures items.None? <==> IsNullish(r) || (!r.JArr? && !IsNullish(Get(r, "data")) && !Get(r, "data").JArr?)
    ensures r.JArr? ==> items == Some(r.items)
  {
    if r.JArr? then Some(r.items)
    else if IsNullish(r) then None
    else
      var d := Coalesce(Get(r, "data"), JArr([]));
      if d.JArr? then Some(d.items) else None
  }

  /**
   * A list reply normalised with `f`, one record per element, in order. `throws`
   * says on which elements `f` throws in the source, so that the whole `map`
   * throws: `ReadThrows` for panels, plate-ups, folders, team members and pending
   * requests, `InThrows` for notifications and `RecipeThrows` for recipes.
   */
  function ListResponse<T>(r: Json, f: Json -> T, throws: Json -> bool): (records: Option<seq<T>>)
    ensures records.None? <==>
      ListItems(r).None? || exists i :: 0 <= i < |ListItems(r).value| && throws(ListItems(r).value[i])
    ensures records.Some? ==> |records.value| == |ListItems(r).value|
    ensures records.Some? ==> forall i :: 0 <= i < |records.value| ==> records.value[i] == f(ListItems(r).value[i])
  {
    match ListItems(r)
    case None => None
    case Some(xs) =>
      if exists i :: 0 <= i < |xs| && throws(xs[i]) then None else Some(MapItems(xs, f))
  }

  /**
   * A bare array and the same array in an envelope give the same records; the
   * list is read exactly when no element makes `f` throw, and an envelope
   * without `data` gives none.
   */
  lemma EnvelopeAgreesWithBareArray<T>(xs: seq<Json>, f: Json -> T, throws: Json -> bool, rest: map<string, Json>)
    ensures ListResponse(JArr(xs), f, throws) == ListResponse(JObj(rest["data" := JArr(xs)]), f, throws)
    ensures ListResponse(JArr(xs), f, throws).Some? <==> forall i :: 0 <= i < |xs| ==> !throws(xs[i])
    ensures ListResponse(JArr(xs), f, throws).Some? ==>
      |ListResponse(JArr(xs), f, throws).value| == |xs|
      && forall i :: 0 <= i < |xs| ==> ListResponse(JArr(xs), f, throws).value[i] == f(xs[i])
    ensures "data" !in rest ==> ListResponse(JObj(rest), f, throws) == Some([])
  {
  }

  /**
   * A `null` or `undefined` element makes every list normaliser throw, and so
   * does a primitive one where the normaliser tests it with `in`.
   */
  lemma NullishElementRejectsList<T>(xs: seq<Json>, f: Json -> T, i: int)
    requires 0 <= i < |xs| && IsNullish(xs[i])
    ensures ListResponse(JArr(xs), f, ReadThrows).None?
    ensures ListResponse(JArr(xs), f, InThrows).None?
    ensures ListResponse(JArr(xs), f, RecipeThrows).None?
  {
    assert ReadThrows(xs[i]) && InThrows(xs[i]) && RecipeThrows(xs[i]);
  }

  /** A recipe whose `ingredients` array holds a primitive element makes the recipe list throw. */
  lemma PrimitiveIngredientRejectsRecipes<T>(xs: seq<Json>, f: Json -> T, i: int, k: int)
    requires 0 <= i < |xs| && Get(xs[i], "ingredients").JArr?
    requires 0 <= k < |Get(xs[i], "ingredients").items| && InThrows(Get(xs[i], "ingredients").items[k])
    ensures ListResponse(JArr(xs), f, RecipeThrows).None?
  {
    assert RecipeThrows(xs[i]);
  }

  /**
   * The record of a single-record reply: the first element of an array, or the
   * `data` of an envelope. `None` where the normaliser throws on `null` or
   * `undefined`.
   */
  function SingleItem(r: Json): (item: Option<Json>)
    ensures item.Some? ==> !IsNullish(item.value)
    ensures r.JArr? && |r.items| > 0 && !IsNullish(r.items[0]) ==> item == Some(r.items[0])
    ensures r.JObj? && !IsNullish(Get(r, "data")) ==> item == Some(r.fields["data"])
  {
    var x := if r.JArr? then (if |r.items| > 0 then r.items[0] else JUndefined)
             else if IsNullish(r) then JUndefined
             else Get(r, "data");
    if IsNullish(x) then None else Some(x)
  }

  /**
   * A single-record reply normalised with `f` (`getRecipe` with `RecipeThrows`,
   * `getPanel` with `ReadThrows`); `None` where reading the record throws.
   */
  function SingleRecord<T>(r: Json, f: Json -> T, throws: Json -> bool): (record: Option<T>)
    ensures record.None? <==> SingleItem(r).None? || throws(SingleItem(r).value)
    ensures record.Some? ==> record.value == f(SingleItem(r).value)
  {
    match SingleItem(r)
    case None => None
    case Some(x) => if throws(x) then None else Some(f(x))
  }

  /**
   * For a normaliser that throws at least on `null` and `undefined`, a one-record
   * array reply gives the record the list reply gives first, and is read exactly
   * when that list is.
   */
  lemma SingleRecordIsFirstOfList<T>(x: Json, f: Json -> T, throws: Json -> bool)
    requires forall y :: IsNullish(y) ==> throws(y)
    ensures SingleRecord(JArr([x]), f, throws).Some? <==> ListResponse(JArr([x]), f, throws).Some?
    ensures SingleRecord(JArr([x]), f, throws).Some? ==>
      SingleRecord(JArr([x]), f, throws).value == ListResponse(JArr([x]), f, throws).value[0]
  {
    if IsNullish(x) {
      assert throws(JArr([x]).items[0]);
    }
  }

  /** The unread count: the first element of an array or the `count` field, `0` when missing. */
  function UnreadCount(r: Json): (n: Option<Number>)
    ensures n.None? <==> IsNullish(r)
    ensures r.JObj? && "count" !in r.fields ==> n == Some(Int(0))
    ensures r.JObj? && "count" in r.fields && r.fields["count"].JNum? ==> n == Some(Int(r.fields["count"].n))
    ensures r.JArr? && |r.items| > 0 && r.items[0].JNum? ==> n == Some(Int(r.items[0].n))
    ensures r.JArr? && |r.items| == 0 ==> n == Some(Int(0))
  {
    if IsNullish(r) then None
    else
      var x := if r.JArr? then (if |r.items| > 0 then r.items[0] else JUndefined) else Get(r, "count");
      Some(ToNumber(Coalesce(x, JNum(0))))
  }

  /**
   * The count reads the same from a bare array and from a `{count}` object, and
   * a `null` count, like a missing one, reads as 0.
   */
  lemma UnreadCountShapesAgree(x: Json, more: seq<Json>, rest: map<string, Json>)
    ensures UnreadCount(JArr([x] + more)) == UnreadCount(JObj(rest["count" := x]))
    ensures UnreadCount(JObj(rest["count" := JNull])) == Some(Int(0))
  {
  }

  datatype RestaurantSummary = RestaurantSummary(name: string, organizationId: string, kind: string, status: string)

  /** `String(x || '')`: a falsy field is `''`. */
  function TextOrEmpty(j: Json): (s: string)
    ensures !Truthy(j) ==> s == ""
    ensures Truthy(j) ==> s == ToStr(j)
  {
    ToStr(Or(j, JStr("")))
  }

  /**
   * The head chef's restaurant, read from the first element of an array reply or
   * from the `data` of any other reply; every missing or falsy field reads as `''`.
   * `None` stands for the `TypeError` that reading `data` of a `null` reply throws.
   */
  function MyRestaurant(r: Json): (s: Option<RestaurantSummary>)
    ensures s.None? <==> IsNullish(r)
    ensures !IsNullish(r) ==>
      var x := if r.JArr? then (if |r.items| > 0 then r.items[0] else JUndefined) else Get(r, "data");
      && s.value.name == TextOrEmpty(Get(x, "name"))
      && s.value.organizationId == TextOrEmpty(Get(x, "organizationId"))
      && s.value.kind == TextOrEmpty(Get(x, "type"))
      && s.value.status == TextOrEmpty(Get(x, "status"))
  {
    if IsNullish(r) then None
    else
      var x := if r.JArr? then (if |r.items| > 0 then r.items[0] else JUndefined) else Get(r, "data");
      Some(RestaurantSummary(TextOrEmpty(Get(x, "name")), TextOrEmpty(Get(x, "organizationId")),
                             TextOrEmpty(Get(x, "type")), TextOrEmpty(Get(x, "status"))))
  }

  /**
   * The restaurant reads the same from a bare array and from a `{data}` envelope;
   * a field the record lacks, and every field of an empty reply, reads as `''`.
   */
  lemma MyRestaurantShapesAgree(x: Json, more: seq<Json>, rest: map<string, Json>)
    ensures MyRestaurant(JArr([x] + more)) == MyRestaurant(JObj(rest["data" := x]))
    ensures !Has(x, "name") ==> MyRestaurant(JArr([x] + more)).value.name == ""
    ensures "data" !in rest ==> MyRestaurant(JObj(rest)) == Some(RestaurantSummary("", "", "", ""))
    ensures MyRestaurant(JArr([])) == Some(RestaurantSummary("", "", "", ""))
  {
  }
}
