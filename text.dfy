/**
 * The string operations of JavaScript that the front end uses, on strings as
 * sequences of characters: `trim`, `toLowerCase`/`toUpperCase` (ASCII letters),
 * `includes`, `startsWith`, `split` and `join` on one separator character, the
 * global replacement of runs of characters (`replace(/\s+/g, '-')`) and the
 * decimal rendering of integers used by template strings.
 */
module Text {

  /** The ASCII whitespace characters that `trim` and `\s` remove. */
  predicate IsSpace(c: char)
  {
    c == ' ' || c == '\t' || c == '\n' || c == '\r' || c == 11 as char || c == 12 as char
  }

  /** A string with nothing but whitespace: `!s.trim()` holds exactly for these. */
  predicate IsBlank(s: string)
  {
    forall i :: 0 <= i < |s| ==> IsSpace(s[i])
  }

  function TrimStart(s: string): (r: string)
    ensures |r| <= |s| && r == s[|s| - |r|..]
    ensures |r| > 0 ==> !IsSpace(r[0])
    ensures IsBlank(s[..|s| - |r|])
  {
    if |s| > 0 && IsSpace(s[0]) then
      var r := TrimStart(s[1..]);
      assert s[1..][|s[1..]| - |r|..] == s[|s| - |r|..];
      assert IsBlank(s[..|s| - |r|]) by {
        forall i | 1 <= i < |s| - |r|
          ensures IsSpace(s[i])
        {
          assert s[i] == s[1..][..|s[1..]| - |r|][i - 1];
        }
      }
      r
    else s
  }

  function TrimEnd(s: string): (r: string)
    ensures |r| <= |s| && r == s[..|r|]
    ensures |r| > 0 ==> !IsSpace(r[|r| - 1])
    ensures IsBlank(s[|r|..])
  {
    if |s| > 0 && IsSpace(s[|s| - 1]) then
      var r := TrimEnd(s[..|s| - 1]);
      assert s[|r|..] == s[..|s| - 1][|r|..] + [s[|s| - 1]];
      r
    else s
  }

  /** `s.trim()`: the longest infix that neither starts nor ends with whitespace. */
  function Trim(s: string): (r: string)
    ensures |r| <= |s|
    ensures |r| > 0 ==> !IsSpace(r[0]) && !IsSpace(r[|r| - 1])
    ensures r == [] <==> IsBlank(s)
  {
    var t := TrimStart(s);
    var r := TrimEnd(t);
    assert |t| > 0 ==> !IsBlank(s) by {
      if |t| > 0 {
        assert t[0] == s[|s| - |t|];
      }
    }
    assert r == [] ==> IsBlank(s) by {
      if r == [] {
        assert t[|r|..] == t;
        assert s == s[..|s| - |t|];
      }
    }
    r
  }

  lemma {:induction false} TrimOfTrimmed(s: string)
    requires |s| > 0 ==> !IsSpace(s[0]) && !IsSpace(s[|s| - 1])
    ensures Trim(s) == s
  {
  }

  lemma TrimIdempotent(s: string)
    ensures Trim(Trim(s)) == Trim(s)
  {
    TrimOfTrimmed(Trim(s));
  }

  /** `s.trim()` is the infix of `s` starting after its leading whitespace. */
  lemma TrimIsInfix(s: string)
    ensures |s| - |TrimStart(s)| + |Trim(s)| <= |s|
    ensures Trim(s) == s[|s| - |TrimStart(s)|..|s| - |TrimStart(s)| + |Trim(s)|]
  {
  }

  function LowerChar(c: char): (r: char)
  {
    if 'A' <= c <= 'Z' then (c as int + 32) as char else c
  }

  function UpperChar(c: char): (r: char)
  {
    if 'a' <= c <= 'z' then (c as int - 32) as char else c
  }

  /** `s.toLowerCase()` on ASCII letters. */
  function ToLower(s: string): (r: string)
    ensures |r| == |s|
    ensures forall i :: 0 <= i < |s| ==> r[i] == LowerChar(s[i])
  {
    if s == [] then [] else [LowerChar(s[0])] + ToLower(s[1..])
  }

  /** `s.startsWith(p)`. */
  predicate StartsWith(s: string, p: string)
  {
    |p| <= |s| && s[..|p|] == p
  }

  /** `s.includes(sub)`: `sub` occurs at some position of `s`. */
  predicate Contains(s: string, sub: string)
  {
    StartsWith(s, sub) || (|s| > 0 && Contains(s[1..], sub))
  }

  lemma {:induction false} ToLowerAppend(a: string, b: string)
    ensures ToLower(a + b) == ToLower(a) + ToLower(b)
  {
    if a != [] {
      assert (a + b)[1..] == a[1..] + b;
      ToLowerAppend(a[1..], b);
    }
  }

  /** A lower-cased string holds no capital letter. */
  lemma LowerNoCapitals(s: string)
    ensures forall c :: c in ToLower(s) ==> !('A' <= c <= 'Z')
  {
    var t := ToLower(s);
    forall c | c in t
      ensures !('A' <= c <= 'Z')
    {
      var i :| 0 <= i < |t| && t[i] == c;
      assert c == LowerChar(s[i]);
    }
  }

  /** Lower-casing leaves a string without capitals as it is. */
  lemma {:induction false} ToLowerOfLower(s: string)
    requires forall c :: c in s ==> !('A' <= c <= 'Z')
    ensures ToLower(s) == s
  {
    if s != [] {
      assert s[0] in s;
      assert forall c :: c in s[1..] ==> c in s;
      ToLowerOfLower(s[1..]);
    }
  }

  /** A lower-case letter occurs in the lower-cased string only where it or its capital occurs. */
  lemma LowerAvoids(s: string, c: char)
    requires 'a' <= c <= 'z' && c !in s && UpperChar(c) !in s
    ensures c !in ToLower(s)
  {
    forall i | 0 <= i < |s|
      ensures ToLower(s)[i] != c
    {
      assert s[i] in s;
    }
  }

  /** A word occurs in any string built around it. */
  lemma {:induction false} ContainsInfix(a: string, w: string, b: string)
    ensures Contains(a + w + b, w)
  {
    if a == [] {
      assert a + w + b == w + b;
      assert (w + b)[..|w|] == w;
    } else {
      assert (a + w + b)[1..] == a[1..] + w + b;
      ContainsInfix(a[1..], w, b);
    }
  }

  /** A word with a character the string lacks does not occur in it. */
  lemma {:induction false} NotContainsChar(s: string, w: string, c: char)
    requires c in w && c !in s
    ensures !Contains(s, w)
  {
    if |w| <= |s| {
      assert forall d :: d in s[..|w|] ==> d in s;
    }
    if s != [] {
      assert forall d :: d in s[1..] ==> d in s;
      NotContainsChar(s[1..], w, c);
    }
  }

  /** An occurrence cannot start in a prefix that lacks the word's first character. */
  lemma {:induction false} NotContainsAfter(a: string, b: string, w: string)
    requires |w| > 0 && w[0] !in a && !Contains(b, w)
    ensures !Contains(a + b, w)
  {
    if a == [] {
      assert a + b == b;
    } else {
      assert (a + b)[1..] == a[1..] + b;
      assert (a + b)[0] == a[0] && a[0] in a;
      NotContainsAfter(a[1..], b, w);
    }
  }

  /** `s.split(sep)` on a one-character separator: `""` splits into `[""]`. */
  function Split(s: string, sep: char): (parts: seq<string>)
    ensures |parts| > 0
  {
    if s == [] then [""]
    else
      var rest := Split(s[1..], sep);
      if s[0] == sep then [""] + rest else [[s[0]] + rest[0]] + rest[1..]
  }

  /** `parts.join(sep)`. */
  function Join(parts: seq<string>, sep: char): string
  {
    if |parts| == 0 then ""
    else if |parts| == 1 then parts[0]
    else parts[0] + [sep] + Join(parts[1..], sep)
  }

  lemma {:induction false} SplitPartsAvoidSeparator(s: string, sep: char)
    ensures forall k :: 0 <= k < |Split(s, sep)| ==> sep !in Split(s, sep)[k]
  {
    if s != [] {
      SplitPartsAvoidSeparator(s[1..], sep);
    }
  }

  lemma {:induction false} JoinSplit(s: string, sep: char)
    ensures Join(Split(s, sep), sep) == s
  {
    if s != [] {
      var rest := Split(s[1..], sep);
      JoinSplit(s[1..], sep);
      if s[0] != sep {
        if |rest| > 1 {
          assert Join(rest, sep) == rest[0] + [sep] + Join(rest[1..], sep);
          assert [[s[0]] + rest[0]] + rest[1..] == Split(s, sep);
          assert (s[0..1] + rest[0]) + [sep] + Join(rest[1..], sep) == s;
        } else {
          assert Split(s, sep) == [[s[0]] + rest[0]];
        }
      }
    }
  }

  /** Splitting text with no separator before `rest` keeps that text at the head of the first part. */
  lemma {:induction false} SplitPrefix(a: string, rest: string, sep: char)
    requires sep !in a
    ensures Split(a + rest, sep) == [a + Split(rest, sep)[0]] + Split(rest, sep)[1..]
    decreases |a|
  {
    if a != [] {
      var parts := Split(rest, sep);
      assert (a + rest)[1..] == a[1..] + rest;
      assert (a + rest)[0] == a[0] && a[0] != sep;
      SplitPrefix(a[1..], rest, sep);
      var inner := Split(a[1..] + rest, sep);
      assert inner[0] == a[1..] + parts[0] && inner[1..] == parts[1..];
      assert Split(a + rest, sep) == [[a[0]] + inner[0]] + inner[1..];
      assert [a[0]] + (a[1..] + parts[0]) == a + parts[0];
    } else {
      var parts := Split(rest, sep);
      assert a + rest == rest;
      assert a + parts[0] == parts[0];
      assert parts == [parts[0]] + parts[1..];
    }
  }

  /** Splitting joined parts that avoid the separator gives the parts back. */
  lemma {:induction false} SplitJoin(parts: seq<string>, sep: char)
    requires |parts| > 0
    requires forall i :: 0 <= i < |parts| ==> sep !in parts[i]
    ensures Split(Join(parts, sep), sep) == parts
    decreases |parts|
  {
    if |parts| == 1 {
      SplitPrefix(parts[0], "", sep);
      assert parts[0] + "" == parts[0];
    } else {
      SplitJoin(parts[1..], sep);
      var tail := Join(parts[1..], sep);
      assert Join(parts, sep) == parts[0] + ([sep] + tail);
      SplitPrefix(parts[0], [sep] + tail, sep);
      assert ([sep] + tail)[1..] == tail;
      assert parts[0] + "" == parts[0];
      assert parts == [parts[0]] + parts[1..];
    }
  }

  /** Decimal digits without leading zeros, as `${n}` renders a natural number. */
  function NatToString(n: nat): (r: string)
    ensures |r| > 0
    ensures forall i :: 0 <= i < |r| ==> '0' <= r[i] <= '9'
  {
    if n < 10 then [DigitChar(n)] else NatToString(n / 10) + [DigitChar(n % 10)]
  }

  function DigitChar(d: nat): (c: char)
    requires d < 10
    ensures '0' <= c <= '9'
  {
    ('0' as int + d) as char
  }

  predicate IsDigits(s: string)
  {
    forall i :: 0 <= i < |s| ==> '0' <= s[i] <= '9'
  }

  /** The value of a string of decimal digits, read left to right. */
  function DigitsValue(s: string): nat
    requires IsDigits(s)
  {
    if s == [] then 0 else DigitsValue(s[..|s| - 1]) * 10 + (s[|s| - 1] as int - '0' as int)
  }

  lemma {:induction false} DigitsValueOfNatToString(n: nat)
    ensures DigitsValue(NatToString(n)) == n
  {
    if n >= 10 {
      var r := NatToString(n);
      assert r[..|r| - 1] == NatToString(n / 10);
      DigitsValueOfNatToString(n / 10);
    }
  }

  /** `${i}` for an integer of either sign. */
  function IntToString(i: int): (r: string)
    ensures |r| > 0
    ensures r[0] == '-' <==> i < 0
  {
    if i < 0 then "-" + NatToString(-i) else NatToString(i)
  }

  /** The prefix of `s` that `p` does not stop: the end of a run of matching characters. */
  function DropWhile(s: string, p: char -> bool): (r: string)
    ensures |r| <= |s| && r == s[|s| - |r|..]
    ensures |r| > 0 ==> !p(r[0])
    ensures forall i :: 0 <= i < |s| - |r| ==> p(s[i])
  {
    if |s| > 0 && p(s[0]) then
      var r := DropWhile(s[1..], p);
      assert s[1..][|s[1..]| - |r|..] == s[|s| - |r|..];
      assert forall i :: 1 <= i < |s| - |r| ==> s[i] == s[1..][i - 1];
      r
    else s
  }

  /**
   * `s.replace(/[...]+/g, [r])`: every maximal run of characters satisfying `p`
   * becomes the single character `r`; other characters are kept.
   */
  function CollapseRuns(s: string, p: char -> bool, r: char): (t: string)
    ensures |t| <= |s|
    ensures |t| > 0 && |s| > 0 ==> (t[0] == r <==> p(s[0]) || s[0] == r)
    ensures forall i :: 0 <= i < |t| ==> (p(t[i]) ==> t[i] == r)
    decreases |s|
  {
    if s == [] then []
    else if p(s[0]) then [r] + CollapseRuns(DropWhile(s, p), p, r)
    else [s[0]] + CollapseRuns(s[1..], p, r)
  }

  /** No two neighbouring characters both satisfy `p`. */
  predicate NoAdjacent(s: string, p: char -> bool)
  {
    forall i :: 0 <= i < |s| - 1 ==> !(p(s[i]) && p(s[i + 1]))
  }

  lemma {:induction false} CollapseRunsNoAdjacent(s: string, p: char -> bool, r: char)
    requires p(r)
    ensures NoAdjacent(CollapseRuns(s, p, r), p)
    decreases |s|
  {
    if s != [] {
      var t := CollapseRuns(s, p, r);
      if p(s[0]) {
        var d := DropWhile(s, p);
        CollapseRunsNoAdjacent(d, p, r);
        var u := CollapseRuns(d, p, r);
        assert t == [r] + u;
        if |u| > 0 {
          assert !p(u[0]);
        }
        assert forall i :: 1 <= i < |t| - 1 ==> t[i] == u[i - 1] && t[i + 1] == u[i];
      } else {
        CollapseRunsNoAdjacent(s[1..], p, r);
        var u := CollapseRuns(s[1..], p, r);
        assert t == [s[0]] + u;
        assert forall i :: 1 <= i < |t| - 1 ==> t[i] == u[i - 1] && t[i + 1] == u[i];
      }
    }
  }

  /** Every character of the result is the replacement or a character of `s` that `p` rejects. */
  lemma {:induction false} CollapseRunsChars(s: string, p: char -> bool, r: char)
    ensures forall c :: c in CollapseRuns(s, p, r) ==> c == r || (c in s && !p(c))
    decreases |s|
  {
    if s != [] {
      var t := CollapseRuns(s, p, r);
      if p(s[0]) {
        var d := DropWhile(s, p);
        CollapseRunsChars(d, p, r);
        assert forall c :: c in d ==> c in s;
        assert forall c :: c in t ==> c == r || c in CollapseRuns(d, p, r);
      } else {
        CollapseRunsChars(s[1..], p, r);
        assert forall c :: c in t ==> c == s[0] || c in CollapseRuns(s[1..], p, r);
      }
    }
  }

  /** A string already in collapsed form is left unchanged by the replacement. */
  lemma {:induction false} CollapseRunsFixed(s: string, p: char -> bool, r: char)
    requires NoAdjacent(s, p)
    requires forall i :: 0 <= i < |s| ==> (p(s[i]) ==> s[i] == r)
    ensures CollapseRuns(s, p, r) == s
    decreases |s|
  {
    if s != [] {
      if p(s[0]) {
        var d := DropWhile(s, p);
        if |s| > 1 {
          assert !p(s[1]);
        }
        assert d == s[1..];
        CollapseRunsFixed(s[1..], p, r);
      } else {
        CollapseRunsFixed(s[1..], p, r);
      }
    }
  }

  /**
   * Lexicographic order on character codes: the order `a.localeCompare(b) < 0`
   * stands for here (locale collation rules are not modelled).
   */
  predicate LexLess(a: string, b: string)
  {
    if a == [] then b != []
    else if b == [] then false
    else if a[0] != b[0] then a[0] < b[0]
    else LexLess(a[1..], b[1..])
  }

  lemma {:induction false} LexLessAsymmetric(a: string, b: string)
    ensures LexLess(a, b) ==> !LexLess(b, a)
  {
    if a != [] && b != [] && a[0] == b[0] {
      LexLessAsymmetric(a[1..], b[1..]);
    }
  }

  lemma {:induction false} LexLessTransitive(a: string, b: string, c: string)
    ensures LexLess(a, b) && LexLess(b, c) ==> LexLess(a, c)
  {
    if a != [] && b != [] && c != [] && a[0] == b[0] && b[0] == c[0] {
      LexLessTransitive(a[1..], b[1..], c[1..]);
    }
  }

  lemma {:induction false} LexLessTotal(a: string, b: string)
    ensures a != b ==> LexLess(a, b) || LexLess(b, a)
  {
    if a != [] && b != [] && a[0] == b[0] {
      LexLessTotal(a[1..], b[1..]);
      if a[1..] == b[1..] {
        assert a == [a[0]] + a[1..] && b == [b[0]] + b[1..];
      }
    }
  }
}
