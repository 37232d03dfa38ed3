/**
 * The team-member login page reached through a restaurant's login link: the
 * restaurant name shown in the heading, the checks before the name-based login
 * request, and the message shown when the request is refused.
 */
module RestaurantLogin {
  import opened Wrappers
  import opened Text
  import opened Wire

  /** `word.charAt(0).toUpperCase() + word.slice(1)`. */
  function Capitalise(w: string): (r: string)
    ensures |r| == |w|
    ensures |r| > 0 ==> r[0] == UpperChar(w[0]) && r[1..] == w[1..]
  {
    if w == "" then "" else [UpperChar(w[0])] + w[1..]
  }

  function CapitaliseAll(words: seq<string>): (r: seq<string>)
    ensures |r| == |words|
    ensures forall i :: 0 <= i < |r| ==> r[i] == Capitalise(words[i])
  {
    seq(|words|, i requires 0 <= i < |words| => Capitalise(words[i]))
  }

  /**
   * `formatRestaurantName`: the words between hyphens, each with its first
   * letter upper-cased, joined by spaces (`joes-diner` reads `Joes Diner`).
   */
  function FormatRestaurantName(name: string): (r: string)
    ensures |r| == |name|
    ensures '-' !in r
  {
    CapitalisedKeepsLength(name);
    CapitalisedAvoidsHyphen(name);
    Join(CapitaliseAll(Split(name, '-')), ' ')
  }

  /** Joins of part lists of the same lengths have the same length, whatever the separators. */
  lemma {:induction false} JoinLength(a: seq<string>, b: seq<string>, sa: char, sb: char)
    requires |a| == |b|
    requires forall i :: 0 <= i < |a| ==> |a[i]| == |b[i]|
    ensures |Join(a, sa)| == |Join(b, sb)|
    decreases |a|
  {
    if |a| > 1 {
      JoinLength(a[1..], b[1..], sa, sb);
    }
  }

  /** A character in no part, and not the separator, is not in the join. */
  lemma {:induction false} JoinAvoids(parts: seq<string>, sep: char, c: char)
    requires c != sep
    requires forall i :: 0 <= i < |parts| ==> c !in parts[i]
    ensures c !in Join(parts, sep)
    decreases |parts|
  {
    if |parts| > 1 {
      JoinAvoids(parts[1..], sep, c);
    }
  }

  /** The first character of a join is the first part's first, or the separator after an empty first part. */
  lemma JoinHead(parts: seq<string>, sep: char)
    requires |parts| > 0 && |Join(parts, sep)| > 0
    ensures Join(parts, sep)[0] == if parts[0] != "" then parts[0][0] else sep
  {
    if |parts| > 1 {
      assert Join(parts, sep) == parts[0] + [sep] + Join(parts[1..], sep);
    }
  }

  /** Capitalising the words and joining them with spaces keeps the length of the name. */
  lemma CapitalisedKeepsLength(name: string)
    ensures |Join(CapitaliseAll(Split(name, '-')), ' ')| == |name|
  {
    var parts := Split(name, '-');
    JoinSplit(name, '-');
    JoinLength(CapitaliseAll(parts), parts, ' ', '-');
  }

  /** Capitalising the words and joining them with spaces leaves no hyphen. */
  lemma CapitalisedAvoidsHyphen(name: string)
    ensures '-' !in Join(CapitaliseAll(Split(name, '-')), ' ')
  {
    var parts := Split(name, '-');
    var caps := CapitaliseAll(parts);
    SplitPartsAvoidSeparator(name, '-');
    forall i | 0 <= i < |caps|
      ensures '-' !in caps[i]
    {
      forall k | 0 <= k < |caps[i]|
        ensures caps[i][k] != '-'
      {
        if k > 0 {
          assert caps[i][k] == caps[i][1..][k - 1] == parts[i][k];
        }
      }
    }
    JoinAvoids(caps, ' ', '-');
  }

  /** Formatting a formatted name changes nothing. */
  lemma FormatIdempotent(name: string)
    ensures FormatRestaurantName(FormatRestaurantName(name)) == FormatRestaurantName(name)
  {
    var r := FormatRestaurantName(name);
    SplitPrefix(r, "", '-');
    assert r + "" == r;
    assert Split(r, '-') == [r];
    var caps := CapitaliseAll(Split(name, '-'));
    if |r| > 0 {
      JoinHead(caps, ' ');
      assert UpperChar(r[0]) == r[0];
      assert Capitalise(r) == [r[0]] + r[1..] == r;
    }
    assert CapitaliseAll([r]) == [Capitalise(r)];
  }

  /** The heading: the formatted route name, `Restaurant` without one. */
  function Heading(restaurantName: Option<string>): (h: string)
    ensures h != ""
    ensures restaurantName.None? || restaurantName.value == "" ==> h == "Restaurant"
    ensures restaurantName.Some? && restaurantName.value != "" ==> h == FormatRestaurantName(restaurantName.value)
    ensures restaurantName.Some? && restaurantName.value != "" ==> |h| == |restaurantName.value| && '-' !in h
  {
    if restaurantName.None? || restaurantName.value == "" then "Restaurant"
    else FormatRestaurantName(restaurantName.value)
  }

  /** The body of the name-based login request. */
  datatype LoginByName = LoginByName(restaurantName: string, firstName: string, lastName: string)

  const NamesRequired := "Please fill in both first name and last name"
  const RestaurantNotFound := "Restaurant name not found"

  /**
   * The checks of `handleSubmit`: both names, then the route's restaurant name;
   * the request carries that name and the trimmed names.
   */
  function LoginRequest(firstName: string, lastName: string, restaurantName: Option<string>): (r: Result<LoginByName, string>)
    ensures r.Success? <==>
      !IsBlank(firstName) && !IsBlank(lastName) && restaurantName.Some? && restaurantName.value != ""
    ensures IsBlank(firstName) || IsBlank(lastName) ==> r == Failure(NamesRequired)
    ensures r.Success? ==>
      r.value == LoginByName(restaurantName.value, Trim(firstName), Trim(lastName))
      && r.value.firstName != "" && r.value.lastName != ""
  {
    if IsBlank(firstName) || IsBlank(lastName) then Failure(NamesRequired)
    else if restaurantName.None? || restaurantName.value == "" then Failure(RestaurantNotFound)
    else Success(LoginByName(restaurantName.value, Trim(firstName), Trim(lastName)))
  }

  /** A missing restaurant name is reported only once both names are given. */
  lemma MissingRestaurantReported(firstName: string, lastName: string)
    requires !IsBlank(firstName) && !IsBlank(lastName)
    ensures LoginRequest(firstName, lastName, None) == Failure(RestaurantNotFound)
    ensures LoginRequest(firstName, lastName, Some("")) == Failure(RestaurantNotFound)
  {
  }

  const StillPending := "Your access request is still pending approval. Please contact the restaurant manager."
  const Rejected := "Your access request has been rejected. Please contact the restaurant manager."
  const LoginFailed := "Login failed. Please check your name and try again."

  /**
   * The message for a refused login: a pending request, then a rejected one,
   * then the server's message, then the generic text.
   */
  function FailureMessage(error: Json): (m: string)
    ensures Get(Get(error, "data"), "status") == JStr("pending") ==> m == StillPending
    ensures Get(Get(error, "data"), "status") == JStr("rejected") ==> m == Rejected
    ensures m != StillPending && m != Rejected && m != LoginFailed ==>
      Truthy(Get(Get(error, "data"), "message"))
  {
    var data := Get(error, "data");
    if Get(data, "status") == JStr("pending") then StillPending
    else if Get(data, "status") == JStr("rejected") then Rejected
    else if Truthy(Get(data, "message")) then ToStr(Get(data, "message"))
    else LoginFailed
  }

  /** A server message is shown as it is unless the status is pending or rejected. */
  lemma ServerMessageShown(status: Json, message: string)
    requires status != JStr("pending") && status != JStr("rejected") && message != ""
    ensures FailureMessage(JObj(map["data" := JObj(map["status" := status, "message" := JStr(message)])])) == message
  {
    var data := JObj(map["status" := status, "message" := JStr(message)]);
    assert Get(data, "status") == status;
    assert Get(data, "message") == JStr(message);
  }

  /** Without a status or a message the generic text is shown. */
  lemma GenericFailure(error: Json)
    requires !Truthy(Get(Get(error, "data"), "message"))
    requires Get(Get(error, "data"), "status") != JStr("pending")
    requires Get(Get(error, "data"), "status") != JStr("rejected")
    ensures FailureMessage(error) == LoginFailed
  {
  }
}
