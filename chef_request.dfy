/**
 * The page a chef opens from a head chef's invitation link: the access request
 * kept in browser storage across visits, the reset when the link belongs to
 * another head chef, the request form, and the choice between the pending
 * screen and an automatic login once the request is known.
 */
module ChefRequest {
  import opened Wrappers
  import opened Text
  import opened Wire

  const UserIdKey := "chefUserId"
  const HeadChefIdKey := "chefHeadChefId"

  /** `localStorage.getItem(key)`: `null` for a missing key. */
  function Lookup(storage: map<string, string>, key: string): (v: Option<string>)
    ensures v.Some? <==> key in storage
    ensures v.Some? ==> v.value == storage[key]
  {
    if key in storage then Some(storage[key]) else None
  }

  /** Both ids read back as written. */
  lemma StoredKeys(storage: map<string, string>, userId: string, headChefId: string)
    ensures Lookup(storage[UserIdKey := userId][HeadChefIdKey := headChefId], UserIdKey) == Some(userId)
    ensures Lookup(storage[UserIdKey := userId][HeadChefIdKey := headChefId], HeadChefIdKey) == Some(headChefId)
  {
    assert UserIdKey[4] != HeadChefIdKey[4];
  }

  /** A JavaScript test of an optional string: neither `null` nor `''`. */
  predicate Present(v: Option<string>)
  {
    v.Some? && v.value != ""
  }

  /** The body of the access request. */
  datatype AccessRequest = AccessRequest(headChefId: string, firstName: string, lastName: string)

  /** The body of the automatic login. */
  datatype LoginChef = LoginChef(chefId: string, headChefId: string)

  const FirstNameRequired := "First name is required"
  const LastNameRequired := "Last name is required"

  /** The checks of `handleSubmit`: a first name, then a last name. */
  function RequestError(firstName: string, lastName: string): (e: Option<string>)
    ensures e.None? <==> !IsBlank(firstName) && !IsBlank(lastName)
    ensures IsBlank(firstName) ==> e == Some(FirstNameRequired)
    ensures !IsBlank(firstName) && IsBlank(lastName) ==> e == Some(LastNameRequired)
  {
    if IsBlank(firstName) then Some(FirstNameRequired)
    else if IsBlank(lastName) then Some(LastNameRequired)
    else None
  }

  /** `request?.data?.status`. */
  function RequestStatus(request: Json): Json
  {
    Get(Get(request, "data"), "status")
  }

  /** The effect that logs in on its own: a stored id, a loaded request, and a status other than pending. */
  predicate AutoLogin(storedId: Option<string>, request: Json)
    ensures Present(storedId) && Truthy(request) && RequestStatus(request) == JStr("rejected") ==>
      AutoLogin(storedId, request)
    ensures !Present(storedId) ==> !AutoLogin(storedId, request)
  {
    Present(storedId) && Truthy(request) && RequestStatus(request) != JStr("pending")
  }

  /** The pending screen: a stored id and a loaded request still pending. */
  predicate ShowsPending(storedId: Option<string>, request: Json)
    ensures ShowsPending(storedId, request) ==> !AutoLogin(storedId, request)
  {
    Present(storedId) && Truthy(request) && RequestStatus(request) == JStr("pending")
  }

  /**
   * Once a stored request is loaded exactly one of the two happens; a rejected
   * request goes to the automatic login like an approved one.
   */
  lemma LoadedRequestDecides(storedId: Option<string>, request: Json)
    ensures !(AutoLogin(storedId, request) && ShowsPending(storedId, request))
    ensures Present(storedId) && Truthy(request) ==> AutoLogin(storedId, request) || ShowsPending(storedId, request)
    ensures Present(storedId) && Truthy(request) && RequestStatus(request) == JStr("rejected") ==>
      AutoLogin(storedId, request)
    ensures !Present(storedId) || !Truthy(request) ==>
      !AutoLogin(storedId, request) && !ShowsPending(storedId, request)
  {
  }

  /** The message of a refused access request: the server's, else the generic text. */
  function RegistrationError(error: Json): (m: string)
    ensures Truthy(Get(Get(error, "data"), "message")) ==> m == ToStr(Get(Get(error, "data"), "message"))
    ensures !Truthy(Get(Get(error, "data"), "message")) ==> m == "Registration failed"
  {
    ToStr(Or(Get(Get(error, "data"), "message"), JStr("Registration failed")))
  }

  /** The page's state, with the browser storage it reads and writes. */
  class ChefRequestPage {
    const headChefId: string
    var storage: map<string, string>
    var storedId: Option<string>
    var storedHeadChefId: Option<string>
    var firstName: string
    var lastName: string

    /** The two state fields mirror the two storage keys. */
    predicate Valid()
      reads this
    {
      storedId == Lookup(storage, UserIdKey) && storedHeadChefId == Lookup(storage, HeadChefIdKey)
    }

    /** The route's head-chef id (`''` when missing) and the stored ids, read once. */
    constructor (param: Option<string>, stored: map<string, string>)
      ensures Valid()
      ensures headChefId == param.GetOr("") && storage == stored && firstName == "" && lastName == ""
    {
      headChefId := param.GetOr("");
      storage := stored;
      storedId := Lookup(stored, UserIdKey);
      storedHeadChefId := Lookup(stored, HeadChefIdKey);
      firstName := "";
      lastName := "";
    }

    /** `skip: !storedId`: the request is not looked up without a stored id. */
    predicate LookupSkipped()
      reads this
    {
      !Present(storedId)
    }

    /**
     * The first effect: a stored head-chef id of another head chef clears both
     * storage keys and both fields; afterwards any stored head-chef id is this
     * page's.
     */
    method ResetOnMismatch()
      requires Valid()
      modifies this
      ensures Valid()
      ensures Present(storedHeadChefId) ==> storedHeadChefId.value == headChefId
      ensures Present(old(storedHeadChefId)) && old(storedHeadChefId).value != headChefId ==>
        && storage == old(storage) - {UserIdKey, HeadChefIdKey}
        && storedId == None && storedHeadChefId == None
      ensures !Present(old(storedHeadChefId)) || old(storedHeadChefId).value == headChefId ==>
        storage == old(storage) && storedId == old(storedId) && storedHeadChefId == old(storedHeadChefId)
      ensures firstName == old(firstName) && lastName == old(lastName)
    {
      var stored := storedHeadChefId;
      if stored.Some? && stored.value != "" && stored.value != headChefId {
        storage := storage - {UserIdKey, HeadChefIdKey};
        storedId := None;
        storedHeadChefId := None;
      }
    }

    /**
     * `handleSubmit`: the name checks, then the request with the trimmed names.
     * Success stores the returned user id and this head chef's id, in storage
     * and in the fields; failure shows the server's message.
     */
    method Submit(ok: bool, userId: string, error: Json) returns (sent: Option<AccessRequest>, toast: string)
      requires Valid()
      modifies this
      ensures Valid()
      ensures RequestError(firstName, lastName).Some? ==>
        sent == None && toast == RequestError(firstName, lastName).value
      ensures RequestError(firstName, lastName).None? ==>
        sent == Some(AccessRequest(headChefId, Trim(firstName), Trim(lastName)))
      ensures RequestError(firstName, lastName).None? && ok ==>
        && storage == old(storage)[UserIdKey := userId][HeadChefIdKey := headChefId]
        && storedId == Some(userId) && storedHeadChefId == Some(headChefId)
        && toast == "Access request submitted successfully!"
      ensures RequestError(firstName, lastName).None? && !ok ==> toast == RegistrationError(error)
      ensures RequestError(firstName, lastName).Some? || !ok ==>
        storage == old(storage) && storedId == old(storedId) && storedHeadChefId == old(storedHeadChefId)
      ensures firstName == old(firstName) && lastName == old(lastName)
    {
      var e := RequestError(firstName, lastName);
      if e.Some? {
        sent, toast := None, e.value;
      } else {
        sent := Some(AccessRequest(headChefId, Trim(firstName), Trim(lastName)));
        if ok {
          Remember(userId);
          toast := "Access request submitted successfully!";
        } else {
          toast := RegistrationError(error);
        }
      }
    }

    /** After a sent request: both ids go to storage and to the fields. */
    method Remember(userId: string)
      requires Valid()
      modifies this
      ensures Valid()
      ensures storage == old(storage)[UserIdKey := userId][HeadChefIdKey := headChefId]
      ensures storedId == Some(userId) && storedHeadChefId == Some(headChefId)
      ensures firstName == old(firstName) && lastName == old(lastName)
    {
      StoredKeys(storage, userId, headChefId);
      storage := storage[UserIdKey := userId][HeadChefIdKey := headChefId];
      storedId, storedHeadChefId := Some(userId), Some(headChefId);
    }

    /**
     * The second effect with the loaded request: the login with the stored id
     * goes out exactly when `AutoLogin` holds.
     */
    method CheckRequest(request: Json) returns (login: Option<LoginChef>)
      ensures login.Some? <==> AutoLogin(storedId, request)
      ensures login.Some? ==> login == Some(LoginChef(storedId.value, headChefId))
    {
      if Present(storedId) && Truthy(request) && RequestStatus(request) != JStr("pending") {
        login := Some(LoginChef(storedId.value, headChefId));
      } else {
        login := None;
      }
    }
  }

  /** A successful request leaves the page looking up that request, and the mismatch reset keeps it. */
  lemma SubmittedRequestIsLookedUp(userId: string, headChefId: string, storage: map<string, string>)
    requires userId != ""
    ensures var s := storage[UserIdKey := userId][HeadChefIdKey := headChefId];
      Present(Lookup(s, UserIdKey)) && Lookup(s, HeadChefIdKey) == Some(headChefId)
  {
    assert UserIdKey != HeadChefIdKey;
  }
}
