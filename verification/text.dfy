/**
 * String helpers shared by the JavaScript services and the Python script:
 * case folding, substring search, white-space trimming and collapsing,
 * digit filtering and decimal rendering of integers.
 */
module Text {

  /** Characters that JavaScript's `String.prototype.trim` and the regular-expression class `\s` treat as white space. */
  predicate IsJsSpace(c: char) {
    c == ' ' || c == '\t' || c == '\n' || c == '\r' || c == '\U{B}' || c == '\U{C}'
    || c == '\U{A0}' || c == '\U{1680}' || ('\U{2000}' <= c <= '\U{200A}')
    || c == '\U{2028}' || c == '\U{2029}' || c == '\U{202F}' || c == '\U{205F}'
    || c == '\U{3000}' || c == '\U{FEFF}'
  }

  /** Characters that Python's `str.strip()` (no argument) removes: those for which `str.isspace()` holds. */
  predicate IsPySpace(c: char) {
    c == ' ' || ('\t' <= c <= '\r') || ('\U{1C}' <= c <= '\U{1F}')
    || c == '\U{85}' || c == '\U{A0}' || c == '\U{1680}' || ('\U{2000}' <= c <= '\U{200A}')
    || c == '\U{2028}' || c == '\U{2029}' || c == '\U{202F}' || c == '\U{205F}' || c == '\U{3000}'
  }

  predicate IsUpper(c: char) { 'A' <= c <= 'Z' }

  /** Lower-cases one character (ASCII letters only). */
  function LowerChar(c: char): (d: char)
    ensures !IsUpper(d)
    ensures !IsUpper(c) ==> d == c
  {
    if IsUpper(c) then (c as int + 32) as char else c
  }

  /** `toLowerCase()` / `lower()`, restricted to the ASCII letters. */
  function Lower(s: string): (r: string)
    ensures |r| == |s|
    ensures forall i :: 0 <= i < |s| ==> r[i] == LowerChar(s[i])
  {
    if s == [] then [] else [LowerChar(s[0])] + Lower(s[1..])
  }

  predicate HasNoUpper(s: string) {
    forall i :: 0 <= i < |s| ==> !IsUpper(s[i])
  }

  lemma {:induction false} LowerOfLowerFree(s: string)
    requires HasNoUpper(s)
    ensures Lower(s) == s
  {
    if s != [] {
      LowerOfLowerFree(s[1..]);
    }
  }

  /** Lower-casing a word whose tail has no capitals changes at most its first letter. */
  lemma LowerCapitalised(s: string)
    requires |s| > 0 && HasNoUpper(s[1..])
    ensures Lower(s) == [LowerChar(s[0])] + s[1..]
  {
    LowerOfLowerFree(s[1..]);
  }

  /** Lower-casing twice is lower-casing once. */
  lemma LowerIdempotent(s: string)
    ensures Lower(Lower(s)) == Lower(s)
  {
    LowerOfLowerFree(Lower(s));
  }

  predicate StartsWith(s: string, prefix: string) {
    |prefix| <= |s| && s[..|prefix|] == prefix
  }

  /** `s.includes(sub)` in JavaScript, `sub in s` in Python. */
  predicate Contains(s: string, sub: string) {
    exists i | 0 <= i <= |s| :: StartsWith(s[i..], sub)
  }

  /** `keys.some(k => s.includes(k))`. */
  predicate AnyOccurs(s: string, keys: seq<string>) {
    exists k | k in keys :: Contains(s, k)
  }

  lemma ContainsAt(s: string, sub: string, i: nat)
    requires i + |sub| <= |s| && s[i..i + |sub|] == sub
    ensures Contains(s, sub)
  {
    assert StartsWith(s[i..], sub);
  }

  /** A string made of `a` followed by `b` starts with `a` and contains `b`. */
  lemma JoinParts(a: string, b: string)
    ensures StartsWith(a + b, a)
    ensures Contains(a + b, b)
  {
    assert (a + b)[..|a|] == a;
    assert (a + b)[|a|..|a| + |b|] == b;
    ContainsAt(a + b, b, |a|);
  }

  /** Text around an occurrence keeps it. */
  lemma ContainsExtended(s: string, sub: string, t: string)
    requires Contains(s, sub)
    ensures Contains(s + t, sub) && Contains(t + s, sub)
  {
    var i :| 0 <= i <= |s| && StartsWith(s[i..], sub);
    assert (s + t)[i..i + |sub|] == s[i..][..|sub|];
    ContainsAt(s + t, sub, i);
    assert (t + s)[|t| + i..|t| + i + |sub|] == s[i..][..|sub|];
    ContainsAt(t + s, sub, |t| + i);
  }

  /** Drops the leading characters satisfying `ws`. */
  function DropLeading(s: string, ws: char -> bool): (r: string)
    ensures |r| <= |s| && r == s[|s| - |r|..]
    ensures r == [] || !ws(r[0])
    ensures forall i :: 0 <= i < |s| - |r| ==> ws(s[i])
  {
    if s == [] || !ws(s[0]) then s else DropLeading(s[1..], ws)
  }

  /** Drops the trailing characters satisfying `ws`. */
  function DropTrailing(s: string, ws: char -> bool): (r: string)
    ensures |r| <= |s| && r == s[..|r|]
    ensures r == [] || !ws(r[|r| - 1])
    ensures forall i :: |r| <= i < |s| ==> ws(s[i])
  {
    if s == [] || !ws(s[|s| - 1]) then s else DropTrailing(s[..|s| - 1], ws)
  }

  /** JavaScript `s.trim()`. */
  function TrimJs(s: string): (r: string)
    ensures r == [] || (!IsJsSpace(r[0]) && !IsJsSpace(r[|r| - 1]))
  {
    DropTrailing(DropLeading(s, IsJsSpace), IsJsSpace)
  }

  /** Python `s.strip()`. */
  function StripPy(s: string): (r: string)
    ensures r == [] || (!IsPySpace(r[0]) && !IsPySpace(r[|r| - 1]))
  {
    DropTrailing(DropLeading(s, IsPySpace), IsPySpace)
  }

  /** True when `s` is empty or made only of Python white space. */
  predicate IsBlankPy(s: string) {
    forall i :: 0 <= i < |s| ==> IsPySpace(s[i])
  }

  /** A prefix made only of `ws` characters, followed by a text that does not start with one,
      is dropped exactly. */
  lemma DropLeadingExact(p: string, r: string, ws: char -> bool)
    requires forall i :: 0 <= i < |p| ==> ws(p[i])
    requires r == [] || !ws(r[0])
    ensures DropLeading(p + r, ws) == r
  {
    var s := p + r;
    var l := DropLeading(s, ws);
    if r != [] {
      assert s[|p|] == r[0];
    }
    if l != [] {
      assert l[0] == s[|s| - |l|];
    }
    assert |l| == |r|;
  }

  /** A suffix made only of `ws` characters, after a text that does not end with one, is dropped
      exactly. */
  lemma DropTrailingExact(r: string, p: string, ws: char -> bool)
    requires forall i :: 0 <= i < |p| ==> ws(p[i])
    requires r == [] || !ws(r[|r| - 1])
    ensures DropTrailing(r + p, ws) == r
  {
    var s := r + p;
    var l := DropTrailing(s, ws);
    if r != [] {
      assert s[|r| - 1] == r[|r| - 1];
    }
    if l != [] {
      assert l[|l| - 1] == s[|l| - 1];
    }
    assert |l| == |r|;
  }

  /** `strip()` removes exactly the white space around a text that starts and ends with a
      visible character, and leaves that text whole. */
  lemma StripPyExact(pre: string, t: string, post: string)
    requires IsBlankPy(pre) && IsBlankPy(post)
    requires t != [] && !IsPySpace(t[0]) && !IsPySpace(t[|t| - 1])
    ensures StripPy(pre + t + post) == t
  {
    assert pre + t + post == pre + (t + post);
    DropLeadingExact(pre, t + post, IsPySpace);
    DropTrailingExact(t, post, IsPySpace);
  }

  /** `strip()` gives the empty text exactly for blank input. */
  lemma StripPyEmptyIffBlank(s: string)
    ensures StripPy(s) == [] <==> IsBlankPy(s)
  {
    var l := DropLeading(s, IsPySpace);
    if l != [] {
      assert !IsPySpace(s[|s| - |l|]);
    }
  }

  /** True when `s` is empty or made only of JavaScript white space. */
  predicate IsBlankJs(s: string) {
    forall i :: 0 <= i < |s| ==> IsJsSpace(s[i])
  }

  lemma TrimJsEmptyIffBlank(s: string)
    ensures TrimJs(s) == [] <==> IsBlankJs(s)
  {
    var l := DropLeading(s, IsJsSpace);
    if l != [] {
      assert !IsJsSpace(s[|s| - |l|]);
    }
  }

  /** JavaScript `s.replace(/\s+/g, ' ')`: each maximal run of white space becomes one space. */
  function CollapseSpaces(s: string): (r: string)
    decreases |s|
  {
    if s == [] then []
    else if IsJsSpace(s[0]) then " " + CollapseSpaces(DropLeading(s[1..], IsJsSpace))
    else [s[0]] + CollapseSpaces(s[1..])
  }

  /** Every white-space character is a plain space and no two are adjacent. */
  predicate WellSpaced(s: string) {
    && (forall i :: 0 <= i < |s| && IsJsSpace(s[i]) ==> s[i] == ' ')
    && (forall i :: 0 <= i < |s| - 1 && IsJsSpace(s[i]) ==> !IsJsSpace(s[i + 1]))
  }

  /** A character put in front of a well-spaced string keeps it well spaced when it is not white space,
      or is a plain space in front of something that does not start with white space. */
  lemma WellSpacedCons(c: char, t: string)
    requires WellSpaced(t)
    requires IsJsSpace(c) ==> c == ' ' && (t == [] || !IsJsSpace(t[0]))
    ensures WellSpaced([c] + t)
  {
    var s := [c] + t;
    forall i | 0 <= i < |s| && IsJsSpace(s[i])
      ensures s[i] == ' '
    {
      if i > 0 {
        assert s[i] == t[i - 1];
      }
    }
    forall i | 0 <= i < |s| - 1 && IsJsSpace(s[i])
      ensures !IsJsSpace(s[i + 1])
    {
      assert s[i + 1] == t[i];
      if i > 0 {
        assert s[i] == t[i - 1];
      }
    }
  }

  /** Collapsing yields a well-spaced string that is empty only for empty input and
      starts with white space exactly when the input does. */
  lemma {:induction false} CollapseWellSpaced(s: string)
    ensures WellSpaced(CollapseSpaces(s))
    ensures s != [] ==> CollapseSpaces(s) != [] && (IsJsSpace(CollapseSpaces(s)[0]) <==> IsJsSpace(s[0]))
    decreases |s|
  {
    if s != [] {
      if IsJsSpace(s[0]) {
        var rest := DropLeading(s[1..], IsJsSpace);
        CollapseWellSpaced(rest);
        var c := CollapseSpaces(rest);
        assert CollapseSpaces(s) == [' '] + c;
        assert c == [] || !IsJsSpace(c[0]);
        WellSpacedCons(' ', c);
      } else {
        CollapseWellSpaced(s[1..]);
        var c := CollapseSpaces(s[1..]);
        assert CollapseSpaces(s) == [s[0]] + c;
        WellSpacedCons(s[0], c);
      }
    }
  }

  /** Collapsing ends with white space exactly when the input does. */
  lemma {:induction false} CollapseLast(s: string)
    requires s != []
    ensures CollapseSpaces(s) != []
    ensures IsJsSpace(CollapseSpaces(s)[|CollapseSpaces(s)| - 1]) <==> IsJsSpace(s[|s| - 1])
    decreases |s|
  {
    if IsJsSpace(s[0]) {
      var rest := DropLeading(s[1..], IsJsSpace);
      assert CollapseSpaces(s) == " " + CollapseSpaces(rest);
      if rest != [] {
        CollapseLast(rest);
        assert rest[|rest| - 1] == s[|s| - 1];
      }
    } else {
      assert CollapseSpaces(s) == [s[0]] + CollapseSpaces(s[1..]);
      if |s| > 1 {
        CollapseLast(s[1..]);
      }
    }
  }

  lemma NoUpperSuffix(s: string, k: nat)
    requires HasNoUpper(s) && k <= |s|
    ensures HasNoUpper(s[k..])
  {
    forall i | 0 <= i < |s| - k
      ensures !IsUpper(s[k..][i])
    {
      assert s[k..][i] == s[k + i];
    }
  }

  lemma NoUpperCons(c: char, t: string)
    requires !IsUpper(c) && HasNoUpper(t)
    ensures HasNoUpper([c] + t)
  {
    forall i | 0 <= i < |t| + 1
      ensures !IsUpper(([c] + t)[i])
    {
      if i > 0 {
        assert ([c] + t)[i] == t[i - 1];
      }
    }
  }

  /** Collapsing introduces no upper-case letter. */
  lemma {:induction false} CollapseNoUpper(s: string)
    requires HasNoUpper(s)
    ensures HasNoUpper(CollapseSpaces(s))
    decreases |s|
  {
    if s != [] {
      if IsJsSpace(s[0]) {
        var rest := DropLeading(s[1..], IsJsSpace);
        NoUpperSuffix(s, |s| - |rest|);
        CollapseNoUpper(rest);
        assert CollapseSpaces(s) == [' '] + CollapseSpaces(rest);
        NoUpperCons(' ', CollapseSpaces(rest));
      } else {
        NoUpperSuffix(s, 1);
        CollapseNoUpper(s[1..]);
        assert CollapseSpaces(s) == [s[0]] + CollapseSpaces(s[1..]);
        NoUpperCons(s[0], CollapseSpaces(s[1..]));
      }
    }
  }

  /** Collapsing leaves a well-spaced string as it is. */
  lemma {:induction false} CollapseFixpoint(s: string)
    requires WellSpaced(s)
    ensures CollapseSpaces(s) == s
    decreases |s|
  {
    if s == [] {
    } else {
      assert WellSpaced(s[1..]);
      if IsJsSpace(s[0]) {
        assert s[0] == ' ';
        assert s[1..] == [] || !IsJsSpace(s[1..][0]);
        assert DropLeading(s[1..], IsJsSpace) == s[1..];
      }
      CollapseFixpoint(s[1..]);
    }
  }

  /** `s.trim()` leaves a string without white space at either end as it is. */
  lemma TrimJsFixpoint(s: string)
    requires s == [] || (!IsJsSpace(s[0]) && !IsJsSpace(s[|s| - 1]))
    ensures TrimJs(s) == s
  {
  }

  /** Lower-casing changes no white space into something else, nor the reverse. */
  lemma LowerKeepsSpaces(s: string)
    ensures forall i :: 0 <= i < |s| ==> (IsJsSpace(Lower(s)[i]) <==> IsJsSpace(s[i]))
    ensures HasNoUpper(Lower(s))
  {
  }

  /** JavaScript `parts.join(sep)`. */
  function JoinWith(parts: seq<string>, sep: string): (r: string)
    ensures parts == [] ==> r == ""
    ensures |parts| == 1 ==> r == parts[0]
  {
    if parts == [] then ""
    else if |parts| == 1 then parts[0]
    else parts[0] + sep + JoinWith(parts[1..], sep)
  }

  /** Joining one more part appends the separator and the part. */
  lemma {:induction false} JoinWithSnoc(parts: seq<string>, p: string, sep: string)
    requires parts != []
    ensures JoinWith(parts + [p], sep) == JoinWith(parts, sep) + sep + p
    decreases |parts|
  {
    if |parts| > 1 {
      assert (parts + [p])[1..] == parts[1..] + [p];
      JoinWithSnoc(parts[1..], p, sep);
    }
  }

  predicate IsDigit(c: char) {
    '0' <= c <= '9'
  }

  /** Keeps only the characters `0`-`9`: JavaScript `s.replace(/[^0-9]/g, '')`. */
  function DigitsOnly(s: string): (r: string)
    ensures |r| <= |s|
    ensures forall i :: 0 <= i < |r| ==> IsDigit(r[i])
    ensures r == [] <==> forall i :: 0 <= i < |s| ==> !IsDigit(s[i])
  {
    if s == [] then []
    else if IsDigit(s[0]) then [s[0]] + DigitsOnly(s[1..])
    else
      assert forall i :: 1 <= i < |s| ==> s[i] == s[1..][i - 1];
      DigitsOnly(s[1..])
  }

  /** Every digit is kept, in order: stripping a concatenation strips each part. */
  lemma {:induction false} DigitsOnlyAppend(a: string, b: string)
    ensures DigitsOnly(a + b) == DigitsOnly(a) + DigitsOnly(b)
    decreases |a|
  {
    if a == [] {
      assert a + b == b;
    } else {
      assert (a + b)[0] == a[0] && (a + b)[1..] == a[1..] + b;
      DigitsOnlyAppend(a[1..], b);
    }
  }

  /** Stripping non-digits from a string of digits changes nothing. */
  lemma {:induction false} DigitsOnlyFixpoint(s: string)
    requires forall i :: 0 <= i < |s| ==> IsDigit(s[i])
    ensures DigitsOnly(s) == s
  {
    if s != [] {
      DigitsOnlyFixpoint(s[1..]);
    }
  }

  /** The number a string of decimal digits denotes. */
  function DecimalValue(s: string): nat {
    if s == [] then 0
    else DecimalValue(s[..|s| - 1]) * 10 + (if IsDigit(s[|s| - 1]) then (s[|s| - 1] - '0') as nat else 0)
  }

  /** Decimal rendering of a natural number, as a template literal shows it: digits without a
      leading zero that denote the number. */
  function NatToString(n: nat): (r: string)
    ensures |r| >= 1
    ensures forall i :: 0 <= i < |r| ==> IsDigit(r[i])
    ensures DecimalValue(r) == n
    ensures r[0] == '0' <==> n == 0
    decreases n
  {
    var d := ['0' + (n % 10) as char];
    if n < 10 then d
    else
      var r := NatToString(n / 10) + d;
      assert r[..|r| - 1] == NatToString(n / 10);
      r
  }

  /** Decimal rendering of an integer, with a leading `-` when negative. */
  function IntToString(n: int): (r: string)
    ensures |r| >= 1
    ensures n >= 0 ==> r == NatToString(n)
    ensures n < 0 ==> r[0] == '-' && r[1..] == NatToString(-n)
  {
    if n < 0 then "-" + NatToString(-n) else NatToString(n)
  }
}
