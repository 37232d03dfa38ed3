/**
 * The super-admin console's data provider: the bearer token added to every
 * request, the list query and its total, the range and filter of a reference
 * lookup, and the results it reports back for creations and bulk updates and
 * deletions.
 */
module DataProvider {
  import opened Wrappers
  import opened Wire

  /** The options of one request (`method` is `verb` here); `headers` is `None` while the caller set none. */
  datatype RequestOptions = RequestOptions(
    verb: Option<string>,
    body: Option<string>,
    headers: Option<map<string, string>>)

  /**
   * `httpClient` before the fetch: with a stored token the headers become
   * exactly `Accept` and a bearer `Authorization` (RFC 6750 section 2.1),
   * replacing any the caller set; without one the options are left as they are.
   */
  function AttachAuth(options: RequestOptions, token: Option<string>): (r: RequestOptions)
    ensures r.verb == options.verb && r.body == options.body
    ensures token.Some? && token.value != "" ==>
      r.headers == Some(map["Accept" := "application/json", "Authorization" := "Bearer " + token.value])
    ensures token.None? || token.value == "" ==> r == options
  {
    if token.Some? && token.value != "" then
      options.(headers := Some(map["Accept" := "application/json", "Authorization" := "Bearer " + token.value]))
    else options
  }

  /** The token is sent exactly when one is stored, and a second pass changes nothing. */
  lemma AttachAuthIdempotent(options: RequestOptions, token: Option<string>)
    ensures AttachAuth(AttachAuth(options, token), token) == AttachAuth(options, token)
    ensures token.Some? && token.value != "" ==>
      AttachAuth(options, token).headers.value["Authorization"] == "Bearer " + token.value
  {
  }

  /** A value of a query string parameter before it is written out. */
  datatype QueryValue = QNum(n: int) | QStr(s: string) | QBool(b: bool)

  /** `getList`'s query: `{page, limit: perPage}`, then the filter assigned over it. */
  function ListQuery(page: int, perPage: int, filter: Option<map<string, QueryValue>>): (q: map<string, QueryValue>)
    ensures "page" in q && "limit" in q
    ensures filter.None? ==> q == map["page" := QNum(page), "limit" := QNum(perPage)]
    ensures filter.Some? ==>
      && q.Keys == {"page", "limit"} + filter.value.Keys
      && forall k :: k in filter.value ==> q[k] == filter.value[k]
  {
    var base := map["page" := QNum(page), "limit" := QNum(perPage)];
    if filter.Some? then base + filter.value else base
  }

  /** Filter keys win over the pagination; the pagination stands where the filter is silent. */
  lemma ListQueryPagination(page: int, perPage: int, filter: map<string, QueryValue>)
    ensures "page" !in filter ==> ListQuery(page, perPage, Some(filter))["page"] == QNum(page)
    ensures "limit" !in filter ==> ListQuery(page, perPage, Some(filter))["limit"] == QNum(perPage)
    ensures "page" in filter ==> ListQuery(page, perPage, Some(filter))["page"] == filter["page"]
  {
  }

  /**
   * `x?.length`: the length of a string or an array, the `length` property of
   * any other object, and `undefined` for everything else.
   */
  function Length(j: Json): (r: Json)
    ensures j.JArr? ==> r == JNum(|j.items|)
    ensures j.JStr? ==> r == JNum(|j.s|)
    ensures j.JObj? ==> r == Get(j, "length")
    ensures !j.JArr? && !j.JStr? && !j.JObj? ==> r == JUndefined
  {
    match j
    case JArr(items) => JNum(|items|)
    case JStr(s) => JNum(|s|)
    case JObj(_) => Get(j, "length")
    case _ => JUndefined
  }

  /**
   * `json.data || []`. `None` stands for the `TypeError` of reading `data` when
   * the reply is `null` or `undefined`, which rejects the request.
   */
  function ListData(json: Json): (d: Option<Json>)
    ensures d.None? <==> IsNullish(json)
    ensures d.Some? && Truthy(Get(json, "data")) ==> d.value == Get(json, "data")
    ensures d.Some? && !Truthy(Get(json, "data")) ==> d.value == JArr([])
  {
    if IsNullish(json) then None
    else Some(Or(Get(json, "data"), JArr([])))
  }

  /**
   * `json.pagination?.total || json.data?.length || 0`; `None` where reading
   * `pagination` of a `null` or `undefined` reply throws.
   */
  function ListTotal(json: Json): (t: Option<Json>)
    ensures t.None? <==> IsNullish(json)
    ensures t.Some? && Truthy(Get(Get(json, "pagination"), "total")) ==> t.value == Get(Get(json, "pagination"), "total")
    ensures t.Some? && !Truthy(Get(Get(json, "pagination"), "total")) && Get(json, "data").JArr? && |Get(json, "data").items| > 0 ==>
      t.value == JNum(|Get(json, "data").items|)
    ensures t.Some? && !Truthy(Get(Get(json, "pagination"), "total")) && Get(json, "data").JObj?
            && Truthy(Get(Get(json, "data"), "length")) ==>
      t.value == Get(Get(json, "data"), "length")
    ensures t.Some? && !Truthy(Get(Get(json, "pagination"), "total")) && !Truthy(Length(Get(json, "data"))) ==> t.value == JNum(0)
  {
    if IsNullish(json) then None
    else Some(Or(Or(Get(Get(json, "pagination"), "total"), Length(Get(json, "data"))), JNum(0)))
  }

  /** A list answer without pagination counts its rows; one without data counts none; a null answer rejects. */
  lemma ListTotalCountsRows(rows: seq<Json>)
    ensures ListTotal(JObj(map["data" := JArr(rows)])) == Some(JNum(|rows|))
    ensures ListTotal(JObj(map[])) == Some(JNum(0)) && ListData(JObj(map[])) == Some(JArr([]))
    ensures ListTotal(JNull) == None && ListData(JUndefined) == None
  {
    var json := JObj(map["data" := JArr(rows)]);
    assert Get(json, "pagination") == JUndefined;
    assert Get(json, "data") == JArr(rows);
  }

  /** Without pagination, a `data` object that carries a `length` is counted by it. */
  lemma ObjectLengthCounts(n: int)
    requires n != 0
    ensures ListTotal(JObj(map["data" := JObj(map["length" := JNum(n)])])) == Some(JNum(n))
  {
    var json := JObj(map["data" := JObj(map["length" := JNum(n)])]);
    assert Get(json, "pagination") == JUndefined;
    assert Get(Get(json, "data"), "length") == JNum(n);
  }

  /**
   * `getManyReference`'s total: `json.pagination?.total || 0`, with no fallback
   * to the rows; `None` where a `null` or `undefined` reply throws.
   */
  function ReferenceTotal(json: Json): (t: Option<Json>)
    ensures t.None? <==> IsNullish(json)
    ensures t.Some? && Truthy(Get(Get(json, "pagination"), "total")) ==> t.value == Get(Get(json, "pagination"), "total")
    ensures t.Some? && !Truthy(Get(Get(json, "pagination"), "total")) ==> t.value == JNum(0)
  {
    if IsNullish(json) then None
    else Some(Or(Get(Get(json, "pagination"), "total"), JNum(0)))
  }

  /** The `range` of a reference lookup: the first and last row index of the page, both inclusive. */
  function Range(page: int, perPage: int): (r: (int, int))
    ensures r.1 - r.0 + 1 == perPage
  {
    ((page - 1) * perPage, page * perPage - 1)
  }

  /** Consecutive pages meet without a gap or an overlap, and page 1 starts at row 0. */
  lemma RangesContiguous(page: int, perPage: int)
    ensures Range(page + 1, perPage).0 == Range(page, perPage).1 + 1
    ensures Range(1, perPage).0 == 0
  {
  }

  /** With a positive page size no row falls in two different pages. */
  lemma RangesDisjoint(p: int, q: int, perPage: int, row: int)
    requires perPage > 0 && p != q
    requires Range(p, perPage).0 <= row <= Range(p, perPage).1
    ensures !(Range(q, perPage).0 <= row <= Range(q, perPage).1)
  {
    if p < q {
      ScaleMonotone(p, q - 1, perPage);
    } else {
      ScaleMonotone(q, p - 1, perPage);
    }
  }

  lemma ScaleMonotone(a: int, b: int, c: int)
    requires a <= b && c > 0
    ensures a * c <= b * c
  {
    var d := b - a;
    assert b * c == a * c + d * c;
  }

  /** The `filter` of a reference lookup: the given filter with `target` set to the record's id. */
  function ReferenceFilter(filter: Option<map<string, Json>>, target: string, id: string): (f: map<string, Json>)
    ensures target in f && f[target] == JStr(id)
    ensures forall k :: k != target ==> (k in f <==> filter.Some? && k in filter.value)
    ensures forall k :: k != target && k in f ==> f[k] == filter.value[k]
  {
    var given := filter.GetOr(map[]);
    given[target := JStr(id)]
  }

  /**
   * `create`: the submitted record with the id the server gave it. `None` stands
   * for the `TypeError` of reading `json.data.id` when the reply or its `data` is
   * `null` or `undefined`, which rejects the create.
   */
  function CreateResult(data: map<string, Json>, json: Json): (r: Option<map<string, Json>>)
    ensures r.None? <==> IsNullish(json) || IsNullish(Get(json, "data"))
    ensures r.Some? ==> r.value.Keys == data.Keys + {"id"}
    ensures r.Some? ==> r.value["id"] == Get(Get(json, "data"), "id")
    ensures r.Some? ==> forall k :: k in data && k != "id" ==> r.value[k] == data[k]
  {
    if IsNullish(json) || IsNullish(Get(json, "data")) then None
    else Some(data["id" := Get(Get(json, "data"), "id")])
  }

  /** `updateMany` and `deleteMany`: the ids asked for, whatever the server answered. */
  function ManyResult(ids: seq<string>, json: Json): (r: seq<string>)
    ensures r == ids
  {
    ids
  }
}
