/**
 * The text the front end keeps under the storage key `user`: what
 * `JSON.stringify(user)` writes and `JSON.parse` reads back. The JSON syntax
 * itself is replaced by a length-prefixed field encoding with the same
 * guarantee the store relies on: parsing what was written gives the user back.
 */
module UserCodec {
  import opened Wrappers
  import opened Text
  import opened Domain

  /** The first position of `c` in `s`, or `|s|` when it does not occur. */
  function IndexOf(s: string, c: char): (r: nat)
    ensures r <= |s|
    ensures c !in s[..r]
    ensures r < |s| ==> s[r] == c
  {
    if s == [] then 0
    else if s[0] == c then 0
    else
      var r := 1 + IndexOf(s[1..], c);
      assert s[..r] == [s[0]] + s[1..][..r - 1];
      r
  }

  function EncodeField(f: string): string
  {
    NatToString(|f|) + ":" + f
  }

  function EncodeFields(fs: seq<string>): string
  {
    if fs == [] then "" else EncodeField(fs[0]) + EncodeFields(fs[1..])
  }

  /** Reads back a sequence of length-prefixed fields; `None` when the text is malformed. */
  function DecodeFields(s: string): Option<seq<string>>
    decreases |s|
  {
    if s == [] then Some([])
    else
      var i := IndexOf(s, ':');
      if i == |s| || i == 0 || !IsDigits(s[..i]) then None
      else
        var n := DigitsValue(s[..i]);
        if i + 1 + n > |s| then None
        else
          match DecodeFields(s[i + 1 + n..])
          case None => None
          case Some(rest) => Some([s[i + 1..i + 1 + n]] + rest)
  }

  /** One field is read back, and decoding continues right after it. */
  lemma DecodeFieldStep(f: string, rest: string)
    ensures DecodeFields(EncodeField(f) + rest) ==
      match DecodeFields(rest)
      case None => None
      case Some(fs) => Some([f] + fs)
  {
    var d := NatToString(|f|);
    var s := EncodeField(f) + rest;
    assert s == d + [':'] + (f + rest);
    assert ':' !in d by {
      forall k | 0 <= k < |d| ensures d[k] != ':' {
        assert '0' <= d[k] <= '9';
      }
    }
    IndexOfAfter(d, f + rest, ':');
    assert s[..|d|] == d;
    DigitsValueOfNatToString(|f|);
    assert s[|d| + 1..|d| + 1 + |f|] == f;
    assert s[|d| + 1 + |f|..] == rest;
  }

  lemma {:induction false} DecodeEncodeFields(fs: seq<string>)
    ensures DecodeFields(EncodeFields(fs)) == Some(fs)
  {
    if fs != [] {
      DecodeEncodeFields(fs[1..]);
      DecodeFieldStep(fs[0], EncodeFields(fs[1..]));
      assert fs == [fs[0]] + fs[1..];
    }
  }

  lemma {:induction false} IndexOfAfter(p: string, q: string, c: char)
    requires c !in p
    ensures IndexOf(p + [c] + q, c) == |p|
  {
    if p != [] {
      assert (p + [c] + q)[1..] == p[1..] + [c] + q;
      IndexOfAfter(p[1..], q, c);
    }
  }

  /** A permission record as eighteen `t`/`f` characters. */
  function EncodePerms(p: Perms): string
  {
    seq(18, i requires 0 <= i < 18 => if p[i] then 't' else 'f')
  }

  function DecodePerms(s: string): Option<Perms>
  {
    if |s| == 18 && forall i :: 0 <= i < 18 ==> s[i] == 't' || s[i] == 'f'
    then
      var p: Perms := seq(18, i requires 0 <= i < 18 => s[i] == 't');
      Some(p)
    else None
  }

  function UserFields(u: User): (fs: seq<string>)
    ensures |fs| == 8
  {
    [u.id, u.email, u.name, u.role, u.status,
     if u.organization.Some? then "1" else "",
     if u.organization.Some? then u.organization.value else "",
     if u.permissions.Some? then EncodePerms(u.permissions.value) else ""]
  }

  function FieldsUser(fs: seq<string>): Option<User>
  {
    if |fs| != 8 || (fs[5] != "" && fs[5] != "1") then None
    else
      var org := if fs[5] == "1" then Some(fs[6]) else None;
      if fs[7] == "" then Some(User(fs[0], fs[1], fs[2], fs[3], fs[4], org, None))
      else
        match DecodePerms(fs[7])
        case None => None
        case Some(p) => Some(User(fs[0], fs[1], fs[2], fs[3], fs[4], org, Some(p)))
  }

  /** `JSON.stringify(user)`, where `null` stands for no user. */
  function EncodeStoredUser(u: Option<User>): string
  {
    if u.None? then "null" else "{" + EncodeFields(UserFields(u.value))
  }

  /**
   * `JSON.parse(text)`: `Some(None)` for the text `null`, `Some(Some(u))` for a
   * stored user, and `None` where the parse throws.
   */
  function DecodeStoredUser(text: string): Option<Option<User>>
  {
    if text == "null" then Some(None)
    else if |text| > 0 && text[0] == '{' then
      match DecodeFields(text[1..])
      case None => None
      case Some(fs) =>
        match FieldsUser(fs)
        case None => None
        case Some(u) => Some(Some(u))
    else None
  }

  lemma DecodeEncodePerms(p: Perms)
    ensures DecodePerms(EncodePerms(p)) == Some(p)
  {
    var q: Perms := seq(18, i requires 0 <= i < 18 => EncodePerms(p)[i] == 't');
    forall i | 0 <= i < 18 ensures q[i] == p[i] {
      assert EncodePerms(p)[i] == if p[i] then 't' else 'f';
    }
    assert q == p;
  }

  lemma FieldsUserOfUserFields(u: User)
    ensures FieldsUser(UserFields(u)) == Some(u)
  {
    if u.permissions.Some? {
      DecodeEncodePerms(u.permissions.value);
    }
  }

  /** Reading back what was written gives the same user, or no user. */
  lemma {:induction false} DecodeEncodeStoredUser(u: Option<User>)
    ensures DecodeStoredUser(EncodeStoredUser(u)) == Some(u)
  {
    if u.Some? {
      var fs := UserFields(u.value);
      var text := EncodeStoredUser(u);
      assert text == "{" + EncodeFields(fs);
      assert text[0] == '{' && text != "null";
      assert text[1..] == EncodeFields(fs);
      DecodeEncodeFields(fs);
      FieldsUserOfUserFields(u.value);
    }
  }
}
