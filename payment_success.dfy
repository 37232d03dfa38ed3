/**
 * The page the payment provider returns to after checkout: which query
 * parameter carries the session id, when the session is refused, and the
 * repair of session ids whose underscore arrived as whitespace
 * (`cs test_…` for `cs_test_…`).
 */
module PaymentSuccess {
  import opened Wrappers
  import opened Text

  /** `r` starts with `test`. */
  predicate StartsTest(r: string)
  {
    |r| >= 4 && r[0] == 't' && r[1] == 'e' && r[2] == 's' && r[3] == 't'
  }

  /**
   * The length of a match of `/cs\s+test/` at the start of `s`, 0 when there is
   * none: `cs`, a run of at least one whitespace character, then `test`.
   */
  function MatchLength(s: string): (n: nat)
    ensures n > 0 ==> 7 <= n <= |s| && s[0] == 'c' && s[1] == 's'
  {
    if |s| >= 2 && s[0] == 'c' && s[1] == 's' then
      var rest := DropWhile(s[2..], IsSpace);
      if |rest| < |s| - 2 && StartsTest(rest) then |s| - |rest| + 4 else 0
    else 0
  }

  /** `s.replace(/cs\s+test/g, 'cs_test')`: matches are replaced left to right and do not overlap. */
  function CleanSessionId(s: string): (r: string)
    ensures |r| <= |s|
    decreases |s|
  {
    if s == [] then []
    else if MatchLength(s) > 0 then "cs_test" + CleanSessionId(s[MatchLength(s)..])
    else [s[0]] + CleanSessionId(s[1..])
  }

  /** Text without a `c` cannot start a match, so it passes through unchanged. */
  lemma {:induction false} PassThrough(p: string, x: string)
    requires 'c' !in p
    ensures CleanSessionId(p + x) == p + CleanSessionId(x)
    decreases |p|
  {
    if |p| > 0 {
      assert p[0] in p;
      NoMatchUnlessCs(p + x);
      KeepUnfold(p + x);
      TailOfConcat(p, x);
      PassThrough(p[1..], x);
      ConsTail(p, CleanSessionId(x));
    } else {
      assert p + x == x;
    }
  }

  /** `p` is its first character, then the rest. */
  lemma ConsTail(p: string, y: string)
    requires |p| > 0
    ensures [p[0]] + (p[1..] + y) == p + y
  {
  }

  /** A cleaned text starts with `test` only if the text did. */
  lemma CleanedStartsTest(x: string)
    requires StartsTest(CleanSessionId(x))
    ensures StartsTest(x)
  {
    var x1 := x[1..];
    var x2 := x1[1..];
    var x3 := x2[1..];
    assert CleanSessionId(x) == [x[0]] + CleanSessionId(x1);
    assert CleanSessionId(x1) == [x1[0]] + CleanSessionId(x2);
    assert CleanSessionId(x2) == [x2[0]] + CleanSessionId(x3);
    assert CleanSessionId(x3)[0] == 't';
    CleanedHead(x3);
  }

  /** The first character of a cleaned text is a `c` or the text's own first character. */
  lemma CleanedHead(x: string)
    requires x != []
    ensures |CleanSessionId(x)| > 0
    ensures CleanSessionId(x)[0] == 'c' || CleanSessionId(x)[0] == x[0]
  {
  }

  /** Skipping a whitespace run that a non-whitespace character ends. */
  lemma {:induction false} DropSpaces(w: string, y: string)
    requires IsBlank(w)
    requires y != [] ==> !IsSpace(y[0])
    ensures DropWhile(w + y, IsSpace) == y
    decreases |w|
  {
    if w != [] {
      assert (w + y)[1..] == w[1..] + y;
      DropSpaces(w[1..], y);
    } else {
      assert w + y == y;
    }
  }

  /** After `cs`, a whitespace run `w` and a text `y` that starts with no whitespace match exactly when `w` is not empty and `y` starts with `test`. */
  lemma CsRunMatch(w: string, y: string)
    requires IsBlank(w)
    requires y != [] ==> !IsSpace(y[0])
    ensures MatchLength("cs" + (w + y)) > 0 <==> |w| > 0 && StartsTest(y)
  {
    TailOfConcat2("cs", w + y);
    DropSpaces(w, y);
  }

  /** A text starting with `cs` is `cs`, the whitespace run after it, then a text that starts with no whitespace. */
  lemma CsSplit(s: string) returns (w: string, rest: string)
    requires |s| >= 2 && s[0] == 'c' && s[1] == 's'
    ensures IsBlank(w) && 'c' !in w
    ensures rest != [] ==> !IsSpace(rest[0])
    ensures s[..2] == "cs" && s[2..] == w + rest && s == "cs" + (w + rest)
  {
    CsHead(s);
    rest := DropWhile(s[2..], IsSpace);
    w := s[2..][..|s[2..]| - |rest|];
    SplitAtRun(s[2..]);
  }

  /** A text starting with `cs` is `cs` followed by the rest. */
  lemma CsHead(s: string)
    requires |s| >= 2 && s[0] == 'c' && s[1] == 's'
    ensures s[..2] == "cs" && s == "cs" + s[2..]
  {
    assert s == s[..2] + s[2..];
  }

  /** After a `cs` that starts no match, cleaning the rest starts no match either. */
  lemma NoMatchAfterCs(s: string)
    requires |s| >= 2 && s[0] == 'c' && s[1] == 's' && MatchLength(s) == 0
    ensures MatchLength(s[..2] + CleanSessionId(s[2..])) == 0
  {
    var w, rest := CsSplit(s);
    CsRunMatch(w, rest);
    PassThrough(w, rest);
    if rest != [] {
      CleanedHead(rest);
    }
    CsRunMatch(w, CleanSessionId(rest));
    if StartsTest(CleanSessionId(rest)) {
      CleanedStartsTest(rest);
    }
  }

  /** A cleaned id is left as it is by a second cleaning. */
  lemma {:induction false} CleanIdempotent(s: string)
    ensures CleanSessionId(CleanSessionId(s)) == CleanSessionId(s)
    decreases |s|
  {
    if s != [] {
      var n := MatchLength(s);
      if n > 0 {
        CleanIdempotent(s[n..]);
        ReplacementFixed(CleanSessionId(s[n..]));
      } else {
        CleanIdempotent(s[1..]);
        KeptHeadFixed(s);
      }
    }
  }

  /** The replacement starts no match of its own, and the cleaned rest after it stays as it is. */
  lemma ReplacementFixed(tail: string)
    requires CleanSessionId(tail) == tail
    ensures CleanSessionId("cs_test" + tail) == "cs_test" + tail
  {
    CsPrefixFixed("cs_test", tail);
  }

  /** A prefix `c`, then no `c`, with `_` in third place, is kept before a cleaned rest. */
  lemma CsPrefixFixed(p: string, tail: string)
    requires |p| >= 3 && p[0] == 'c' && p[2] == '_' && 'c' !in p[1..]
    requires CleanSessionId(tail) == tail
    ensures CleanSessionId(p + tail) == p + tail
  {
    PassThrough(p[1..], tail);
    TailOfConcat(p, tail);
    CsHeadKept(p + tail);
  }

  /** A text is the whitespace run `DropWhile` skips, then what it leaves; the run holds no `c`. */
  lemma SplitAtRun(u: string)
    ensures var rest := DropWhile(u, IsSpace);
      && u == u[..|u| - |rest|] + rest
      && 'c' !in u[..|u| - |rest|]
      && IsBlank(u[..|u| - |rest|])
  {
    var n := |u| - |DropWhile(u, IsSpace)|;
    TakeDrop(u, n);
    RunIsBlank(u);
    BlankHasNoC(u[..n]);
  }

  /** `u` is its first `k` characters, then the rest. */
  lemma TakeDrop(u: string, k: nat)
    requires k <= |u|
    ensures u == u[..k] + u[k..]
  {
  }

  /** The run `DropWhile` skips is whitespace. */
  lemma RunIsBlank(u: string)
    ensures IsBlank(u[..|u| - |DropWhile(u, IsSpace)|])
  {
    var w := u[..|u| - |DropWhile(u, IsSpace)|];
    forall i | 0 <= i < |w|
      ensures IsSpace(w[i])
    {
      assert w[i] == u[i];
    }
  }

  /** Whitespace holds no `c`. */
  lemma BlankHasNoC(w: string)
    requires IsBlank(w)
    ensures 'c' !in w
  {
    assert !IsSpace('c');
  }

  /** Dropping a two-character head. */
  lemma TailOfConcat2(p: string, x: string)
    requires |p| == 2
    ensures (p + x)[2..] == x
  {
  }

  /** Dropping the first character of `p + x` drops it from `p`. */
  lemma TailOfConcat(p: string, x: string)
    requires p != []
    ensures (p + x)[1..] == p[1..] + x
  {
  }

  /** A text starting `c?_` whose rest is already clean is clean. */
  lemma CsHeadKept(t: string)
    requires |t| >= 3 && t[0] == 'c' && t[2] == '_'
    requires CleanSessionId(t[1..]) == t[1..]
    ensures CleanSessionId(t) == t
  {
    UnderscoreNoMatch(t);
    KeepUnfold(t);
    assert [t[0]] + t[1..] == t;
  }

  /** Text that does not start with `cs` starts no match. */
  lemma NoMatchUnlessCs(t: string)
    requires |t| < 2 || t[0] != 'c' || t[1] != 's'
    ensures MatchLength(t) == 0
  {
  }

  /** A `_` in third place starts no match: no whitespace follows `cs`. */
  lemma UnderscoreNoMatch(t: string)
    requires |t| >= 3 && t[2] == '_'
    ensures MatchLength(t) == 0
  {
    assert DropWhile(t[2..], IsSpace) == t[2..];
  }

  /** Where no match starts, the first character is kept. */
  lemma KeepUnfold(x: string)
    requires x != [] && MatchLength(x) == 0
    ensures CleanSessionId(x) == [x[0]] + CleanSessionId(x[1..])
  {
  }

  /** After `cs`, the `s` is kept and the rest is cleaned on its own. */
  lemma CsHeadUnfold(s: string)
    requires |s| >= 2 && s[0] == 'c' && s[1] == 's'
    ensures [s[0]] + CleanSessionId(s[1..]) == s[..2] + CleanSessionId(s[2..])
  {
    var x := s[1..];
    NoMatchUnlessCs(x);
    KeepUnfold(x);
    assert x[1..] == s[2..];
  }

  /** A kept `c` followed by a cleaned rest not starting with `s` starts no match. */
  lemma OtherHeadNoMatch(s: string)
    requires |s| >= 2 && s[1] != 's'
    ensures MatchLength([s[0]] + CleanSessionId(s[1..])) == 0
  {
    var t := [s[0]] + CleanSessionId(s[1..]);
    CleanedHead(s[1..]);
    assert t[1] == CleanSessionId(s[1..])[0];
    NoMatchUnlessCs(t);
  }

  /** A kept first character in front of the cleaned rest starts no match. */
  lemma KeptHeadNoMatch(s: string)
    requires s != [] && MatchLength(s) == 0
    ensures MatchLength([s[0]] + CleanSessionId(s[1..])) == 0
  {
    if s[0] != 'c' || |s| < 2 {
      NoMatchUnlessCs([s[0]] + CleanSessionId(s[1..]));
    } else if s[1] == 's' {
      CsHeadUnfold(s);
      NoMatchAfterCs(s);
    } else {
      OtherHeadNoMatch(s);
    }
  }

  /** A kept first character followed by a cleaned rest that is stable is stable. */
  lemma KeptHeadFixed(s: string)
    requires s != [] && MatchLength(s) == 0
    requires CleanSessionId(CleanSessionId(s[1..])) == CleanSessionId(s[1..])
    ensures CleanSessionId(CleanSessionId(s)) == CleanSessionId(s)
  {
    var tail := CleanSessionId(s[1..]);
    var t := [s[0]] + tail;
    KeepUnfold(s);
    KeptHeadNoMatch(s);
    KeepUnfold(t);
    assert t[1..] == tail;
  }

  /**
   * An id whose underscore arrived as a whitespace run of any length is
   * repaired: `cs`, the run and `test` become `cs_test`, and a rest without
   * `c` is kept.
   */
  lemma RepairsSpacedId(w: string, tail: string)
    requires w != [] && IsBlank(w) && 'c' !in tail
    ensures CleanSessionId("cs" + w + "test" + tail) == "cs_test" + tail
  {
    var s := "cs" + w + "test" + tail;
    var rest := "test" + tail;
    assert s[2..] == w + rest;
    DropSpaces(w, rest);
    assert StartsTest(rest);
    assert MatchLength(s) == |w| + 6;
    assert s[|w| + 6..] == tail;
    PassThrough(tail, "");
    assert tail + "" == tail;
  }

  /** `verifySession`'s own repair, applied when the id still contains `cs test`. */
  function VerifyClean(id: string): string
  {
    if Contains(id, "cs test") then CleanSessionId(id) else id
  }

  /** The second repair never changes an id the first one produced. */
  lemma SecondRepairIsNoOp(id: string)
    ensures VerifyClean(CleanSessionId(id)) == CleanSessionId(id)
  {
    CleanIdempotent(id);
  }

  datatype Status = Loading | Succeeded | Failed

  const InvalidSession := "Invalid payment session"
  const PaymentDone := "Payment successful! Your account is being created. Please check your email for login details."

  /** `searchParams.get('session_id') || searchParams.get('sid')`. */
  function SessionParam(sessionId: Option<string>, sid: Option<string>): (id: Option<string>)
    ensures sessionId.Some? && sessionId.value != "" ==> id == sessionId
    ensures sessionId.None? || sessionId.value == "" ==> id == sid
  {
    if sessionId.Some? && sessionId.value != "" then sessionId else sid
  }

  /** The page's state. */
  class PaymentSuccessPage {
    var status: Status
    var message: string

    constructor ()
      ensures status == Loading && message == ""
    {
      status := Loading;
      message := "";
    }

    /**
     * The effect on the query parameters: without a session id, or without
     * `success=true`, the page shows the invalid-session error; otherwise the
     * repaired id is verified, which shows the success message.
     */
    method Check(sessionId: Option<string>, sid: Option<string>, success: Option<string>) returns (verified: Option<string>)
      modifies this
      ensures var id := SessionParam(sessionId, sid);
        (id.None? || id.value == "" || success != Some("true")) <==> status == Failed
      ensures status == Failed ==> message == InvalidSession && verified == None
      ensures status != Failed ==>
        && status == Succeeded && message == PaymentDone
        && verified == Some(VerifyClean(CleanSessionId(SessionParam(sessionId, sid).value)))
        && verified == Some(CleanSessionId(SessionParam(sessionId, sid).value))
    {
      var id := SessionParam(sessionId, sid);
      if id.None? || id.value == "" || success != Some("true") {
        status := Failed;
        message := InvalidSession;
        return None;
      }
      var cleaned := CleanSessionId(id.value);
      var again := VerifyClean(cleaned);
      SecondRepairIsNoOp(id.value);
      status := Succeeded;
      message := PaymentDone;
      verified := Some(again);
    }
  }
}
