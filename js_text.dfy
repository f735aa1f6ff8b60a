/** JavaScript string behaviour that the dashboard relies on: truthiness of optional string
    properties, the `||` chain, substring search, the case mappings that matter for its fixed
    markers, `trim`, `split`, `String(n)` / `padStart`, and the order of `<` on strings. */
module JsText {

  datatype Option<T> = None | Some(value: T)

  // ---------------------------------------------------------------------------
  // Truthiness and `||`
  // ---------------------------------------------------------------------------

  /** A string-valued property is truthy when it is present and non-empty. */
  predicate Truthy(o: Option<string>) {
    o.Some? && o.value != ""
  }

  /** `a || b` on two string-valued properties: `b` is returned whenever `a` is falsy. */
  function Or(a: Option<string>, b: Option<string>): Option<string> {
    if Truthy(a) then a else b
  }

  /** `a || "literal"`. */
  function OrElse(a: Option<string>, fallback: string): string {
    if Truthy(a) then a.value else fallback
  }

  /** The first truthy entry of a `||` chain, or None when every operand is falsy. */
  function FirstTruthy(xs: seq<Option<string>>): (r: Option<string>)
    ensures r.Some? ==> Truthy(r) && r in xs
    ensures r.Some? ==> exists i :: 0 <= i < |xs| && xs[i] == r && forall j :: 0 <= j < i ==> !Truthy(xs[j])
    ensures r.None? <==> forall i :: 0 <= i < |xs| ==> !Truthy(xs[i])
  {
    if |xs| == 0 then None
    else if Truthy(xs[0]) then xs[0]
    else
      var r := FirstTruthy(xs[1..]);
      assert r.Some? ==> exists i :: 0 <= i < |xs[1..]| && xs[1..][i] == r && forall j :: 0 <= j < i ==> !Truthy(xs[1..][j]);
      if r.Some? then
        var i :| 0 <= i < |xs[1..]| && xs[1..][i] == r && forall j :: 0 <= j < i ==> !Truthy(xs[1..][j]);
        assert xs[i + 1] == r;
        assert forall j :: 0 <= j < i + 1 ==> !Truthy(xs[j]) by {
          forall j | 0 <= j < i + 1 ensures !Truthy(xs[j]) {
            if j > 0 { assert xs[j] == xs[1..][j - 1]; }
          }
        }
        r
      else
        assert forall i :: 0 <= i < |xs| ==> !Truthy(xs[i]) by {
          forall i | 0 <= i < |xs| ensures !Truthy(xs[i]) {
            if i > 0 { assert xs[i] == xs[1..][i - 1]; }
          }
        }
        r
  }

  // ---------------------------------------------------------------------------
  // Prefixes and substrings
  // ---------------------------------------------------------------------------

  /** `s.startsWith(p)`. */
  predicate StartsWith(s: string, p: string) {
    |p| <= |s| && s[..|p|] == p
  }

  /** `s.includes(t)`, scanning from the left. */
  predicate Contains(s: string, t: string)
    decreases |s|
  {
    StartsWith(s, t) || (|s| > 0 && Contains(s[1..], t))
  }

  /** `t` occurs in `s` starting at index `i`. */
  predicate OccursAt(s: string, t: string, i: int) {
    0 <= i && i + |t| <= |s| && s[i..i + |t|] == t
  }

  /** `includes` holds exactly when `t` occurs at some position of `s`. */
  lemma {:induction false} ContainsIff(s: string, t: string)
    ensures Contains(s, t) <==> exists i :: OccursAt(s, t, i)
    decreases |s|
  {
    if StartsWith(s, t) {
      assert OccursAt(s, t, 0);
    } else if |s| > 0 {
      ContainsIff(s[1..], t);
      if Contains(s[1..], t) {
        var i :| OccursAt(s[1..], t, i);
        assert s[i + 1..i + 1 + |t|] == s[1..][i..i + |t|];
        assert OccursAt(s, t, i + 1);
      } else {
        forall i | 0 <= i && i + |t| <= |s| ensures !OccursAt(s, t, i) {
          if i == 0 {
            assert s[i..i + |t|] == s[..|t|];
          } else {
            assert s[i..i + |t|] == s[1..][i - 1..i - 1 + |t|];
            assert !OccursAt(s[1..], t, i - 1);
          }
        }
      }
    }
  }

  /** `s.split(sep)[0]` for a non-empty separator: everything before its first occurrence. */
  function PrefixBefore(s: string, sep: string): (r: string)
    requires sep != ""
    ensures |r| <= |s| && s[..|r|] == r
    ensures r == s || StartsWith(s[|r|..], sep)
    decreases |s|
  {
    if StartsWith(s, sep) || s == "" then ""
    else
      var rest := PrefixBefore(s[1..], sep);
      assert s[1..][|rest|..] == s[1 + |rest|..];
      [s[0]] + rest
  }

  /** Splitting `p + sep + rest` at `sep` gives `p` back when the separator's first character
      does not occur in `p`. */
  lemma {:induction false} PrefixBeforeFirst(p: string, sep: string, rest: string)
    requires sep != "" && sep[0] !in p
    ensures PrefixBefore(p + sep + rest, sep) == p
    decreases |p|
  {
    var s := p + sep + rest;
    if p == [] {
      assert s == sep + rest;
      assert s[..|sep|] == sep;
    } else {
      assert s[0] == p[0] != sep[0];
      assert !StartsWith(s, sep);
      assert s[1..] == p[1..] + sep + rest;
      PrefixBeforeFirst(p[1..], sep, rest);
    }
  }

  // ---------------------------------------------------------------------------
  // Case mapping
  // ---------------------------------------------------------------------------

  /** `toLowerCase` on one character, restricted to the characters whose lower case is an
      ASCII letter: A-Z and the Kelvin sign U+212A. Every marker the dashboard compares
      lowered text against is ASCII or CJK, so no other character can change a comparison. */
  function LowerChar(c: char): char {
    if 'A' <= c <= 'Z' then ((c as int) + 32) as char
    else if c == '\U{212A}' then 'k'
    else c
  }

  /** `toUpperCase` on one character, restricted to the characters whose upper case is an
      ASCII letter: a-z, dotless i U+0131 and long s U+017F. */
  function UpperChar(c: char): char {
    if 'a' <= c <= 'z' then ((c as int) - 32) as char
    else if c == '\U{0131}' then 'I'
    else if c == '\U{017F}' then 'S'
    else c
  }

  function ToLower(s: string): (r: string)
    ensures |r| == |s| && forall i :: 0 <= i < |s| ==> r[i] == LowerChar(s[i])
  {
    seq(|s|, i requires 0 <= i < |s| => LowerChar(s[i]))
  }

  function ToUpper(s: string): (r: string)
    ensures |r| == |s| && forall i :: 0 <= i < |s| ==> r[i] == UpperChar(s[i])
  {
    seq(|s|, i requires 0 <= i < |s| => UpperChar(s[i]))
  }

  /** Lowering is idempotent, so a lowered query matches lowered text the same way twice. */
  lemma ToLowerIdempotent(s: string)
    ensures ToLower(ToLower(s)) == ToLower(s)
  {
  }

  /** Upper-casing is idempotent as well. */
  lemma ToUpperIdempotent(s: string)
    ensures ToUpper(ToUpper(s)) == ToUpper(s)
  {
  }

  // ---------------------------------------------------------------------------
  // trim
  // ---------------------------------------------------------------------------

  /** The white space and line terminators `String.prototype.trim` removes. */
  predicate IsSpace(c: char) {
    c == '\t' || c == '\n' || c == '\U{000B}' || c == '\U{000C}' || c == '\r' || c == ' '
    || c == '\U{00A0}' || c == '\U{1680}' || ('\U{2000}' <= c <= '\U{200A}')
    || c == '\U{2028}' || c == '\U{2029}' || c == '\U{202F}' || c == '\U{205F}'
    || c == '\U{3000}' || c == '\U{FEFF}'
  }

  function TrimStart(s: string): (r: string)
    ensures |r| <= |s| && r == s[|s| - |r|..]
    ensures forall i :: 0 <= i < |s| - |r| ==> IsSpace(s[i])
    ensures r == "" || !IsSpace(r[0])
    decreases |s|
  {
    if s != "" && IsSpace(s[0]) then
      var r := TrimStart(s[1..]);
      SpaceBeforeSuffix(s, r);
      r
    else s
  }

  /** A space in front of a suffix that follows only spaces keeps it a suffix that follows
      only spaces. */
  lemma SpaceBeforeSuffix(s: string, r: string)
    requires s != "" && IsSpace(s[0])
    requires |r| <= |s| - 1 && r == s[1..][|s| - 1 - |r|..]
    requires forall i :: 0 <= i < |s| - 1 - |r| ==> IsSpace(s[1..][i])
    ensures r == s[|s| - |r|..]
    ensures forall i :: 0 <= i < |s| - |r| ==> IsSpace(s[i])
  {
    assert s[1..][|s| - 1 - |r|..] == s[|s| - |r|..];
    forall i | 0 <= i < |s| - |r| ensures IsSpace(s[i]) {
      if i > 0 {
        assert s[i] == s[1..][i - 1];
      }
    }
  }

  function TrimEnd(s: string): (r: string)
    ensures |r| <= |s| && r == s[..|r|]
    ensures forall i :: |r| <= i < |s| ==> IsSpace(s[i])
    ensures r == "" || !IsSpace(r[|r| - 1])
    decreases |s|
  {
    if s != "" && IsSpace(s[|s| - 1]) then
      var r := TrimEnd(s[..|s| - 1]);
      assert s[..|s| - 1][..|r|] == s[..|r|];
      r
    else s
  }

  /** `s.trim()`: a contiguous slice of `s` with only white space cut from either end. */
  function Trim(s: string): (r: string)
    ensures exists i :: OccursAt(s, r, i)
    ensures r == "" || (!IsSpace(r[0]) && !IsSpace(r[|r| - 1]))
  {
    var a := TrimStart(s);
    var r := TrimEnd(a);
    assert r == s[|s| - |a|..][..|r|];
    assert r == s[|s| - |a|..|s| - |a| + |r|];
    assert OccursAt(s, r, |s| - |a|);
    r
  }

  /** A trimmed string is empty exactly when the input held nothing but white space. */
  lemma {:induction false} TrimEmptyIff(s: string)
    ensures Trim(s) == "" <==> forall i :: 0 <= i < |s| ==> IsSpace(s[i])
  {
    var a := TrimStart(s);
    if forall i :: 0 <= i < |s| ==> IsSpace(s[i]) {
    } else if a == "" {
    } else {
      var r := TrimEnd(a);
    }
  }

  // ---------------------------------------------------------------------------
  // String(n) and padStart
  // ---------------------------------------------------------------------------

  function DigitChar(d: nat): (c: char)
    requires d < 10
    ensures '0' <= c <= '9' && (c as int) - ('0' as int) == d
  {
    ((d + ('0' as int)) as char)
  }

  /** `String(n)` for a natural number: decimal digits without leading zeros. */
  function NatToString(n: nat): (s: string)
    ensures |s| >= 1
    ensures forall i :: 0 <= i < |s| ==> '0' <= s[i] <= '9'
    ensures |s| > 1 ==> s[0] != '0'
    ensures n < 10 <==> |s| == 1
  {
    if n < 10 then [DigitChar(n)] else NatToString(n / 10) + [DigitChar(n % 10)]
  }

  /** `String(i)` for an integer: a leading '-' for negative values. */
  function IntToString(i: int): (s: string)
    ensures |s| >= 1
    ensures i >= 0 ==> s == NatToString(i)
    ensures i < 0 ==> s == "-" + NatToString(-i)
  {
    if i >= 0 then NatToString(i) else "-" + NatToString(-i)
  }

  /** `s.padStart(2, '0')`. */
  function PadStart2(s: string): (r: string)
    ensures |r| == if |s| < 2 then 2 else |s|
    ensures r[|r| - |s|..] == s
    ensures forall i :: 0 <= i < |r| - |s| ==> r[i] == '0'
  {
    if |s| == 0 then "00" else if |s| == 1 then "0" + s else s
  }

  // ---------------------------------------------------------------------------
  // split on a single character
  // ---------------------------------------------------------------------------

  /** Index of the first `c` in `s`, or `|s|` when there is none. */
  function IndexOf(s: string, c: char): (i: nat)
    ensures i <= |s|
    ensures forall j :: 0 <= j < i ==> s[j] != c
    ensures i < |s| ==> s[i] == c
    decreases |s|
  {
    if s == "" then 0 else if s[0] == c then 0 else 1 + IndexOf(s[1..], c)
  }

  /** `s.split(sep)` for a one-character separator: the maximal separator-free pieces,
      in order; there is always at least one piece. */
  function Split(s: string, sep: char): (parts: seq<string>)
    ensures |parts| >= 1
    ensures forall k :: 0 <= k < |parts| ==> sep !in parts[k]
    decreases |s|
  {
    var i := IndexOf(s, sep);
    if i == |s| then
      assert forall j :: 0 <= j < |s| ==> s[j] != sep;
      [s]
    else
      assert forall j :: 0 <= j < i ==> s[..i][j] != sep;
      [s[..i]] + Split(s[i + 1..], sep)
  }

  /** `parts.join(sep)`. */
  function Join(parts: seq<string>, sep: char): string
    requires |parts| >= 1
  {
    if |parts| == 1 then parts[0] else parts[0] + [sep] + Join(parts[1..], sep)
  }

  /** `split` undoes `join` when no piece contains the separator. */
  lemma {:induction false} SplitJoin(parts: seq<string>, sep: char)
    requires |parts| >= 1
    requires forall k :: 0 <= k < |parts| ==> sep !in parts[k]
    ensures Split(Join(parts, sep), sep) == parts
    decreases |parts|
  {
    var p := parts[0];
    if |parts| == 1 {
      IndexOfAbsent(p, sep);
    } else {
      var rest := Join(parts[1..], sep);
      var s := p + [sep] + rest;
      IndexOfAfter(p, sep, rest);
      assert s[..|p|] == p;
      assert s[|p| + 1..] == rest;
      SplitJoin(parts[1..], sep);
    }
  }

  lemma IndexOfAbsent(s: string, c: char)
    requires c !in s
    ensures IndexOf(s, c) == |s|
  {
    var i := IndexOf(s, c);
  }

  lemma IndexOfAfter(p: string, c: char, rest: string)
    requires c !in p
    ensures IndexOf(p + [c] + rest, c) == |p|
  {
    var s := p + [c] + rest;
    var i := IndexOf(s, c);
    assert s[|p|] == c;
  }

  // ---------------------------------------------------------------------------
  // `<` on strings
  // ---------------------------------------------------------------------------

  /** The UTF-16 code units of one character: itself on the Basic Multilingual Plane,
      otherwise a high and a low surrogate. */
  function Utf16(c: char): (u: seq<int>)
    ensures |u| == 1 <==> (c as int) < 0x10000
    ensures |u| == 1 || |u| == 2
  {
    var n := c as int;
    if n < 0x10000 then [n]
    else [0xD800 + (n - 0x10000) / 0x400, 0xDC00 + (n - 0x10000) % 0x400]
  }

  /** The UTF-16 code units of a string, as JavaScript stores it. */
  function Utf16Of(s: string): seq<int>
    decreases |s|
  {
    if s == "" then [] else Utf16(s[0]) + Utf16Of(s[1..])
  }

  /** Lexicographic order on code-unit sequences, a proper prefix first. */
  predicate UnitsLess(x: seq<int>, y: seq<int>)
    decreases |x|
  {
    if x == [] then y != []
    else if y == [] then false
    else if x[0] != y[0] then x[0] < y[0]
    else UnitsLess(x[1..], y[1..])
  }

  /** A rank of characters that orders them as their UTF-16 code units do: characters below
      the surrogate range first, then those beyond the Basic Multilingual Plane (whose units
      start with a surrogate), then the rest of the plane. */
  function CodeUnitKey(c: char): (k: int)
    ensures (c as int) < 0xD800 ==> k == c as int
  {
    var n := c as int;
    if n < 0xD800 then n
    else if n >= 0x10000 then 0xD800 + (n - 0x10000)
    else n + 0x100000
  }

  /** JavaScript's `a < b` on strings: lexicographic, a proper prefix first, characters
      compared by their UTF-16 code units (`StrLessIsCodeUnitOrder`). */
  predicate StrLess(a: string, b: string)
    decreases |a|
  {
    if a == "" then b != ""
    else if b == "" then false
    else if a[0] != b[0] then CodeUnitKey(a[0]) < CodeUnitKey(b[0])
    else StrLess(a[1..], b[1..])
  }

  lemma CodeUnitKeyInjective(a: char, b: char)
    requires a != b
    ensures CodeUnitKey(a) != CodeUnitKey(b)
  {
  }

  /** A common prefix of code units does not change their order. */
  lemma {:induction false} UnitsLessCommonPrefix(p: seq<int>, x: seq<int>, y: seq<int>)
    ensures UnitsLess(p + x, p + y) <==> UnitsLess(x, y)
    decreases |p|
  {
    if p != [] {
      assert (p + x)[1..] == p[1..] + x;
      assert (p + y)[1..] == p[1..] + y;
      UnitsLessCommonPrefix(p[1..], x, y);
    } else {
      assert p + x == x && p + y == y;
    }
  }

  /** Two distinct characters differ within their own code units, in the order of their
      ranks, whatever follows them. */
  lemma CharUnitsOrder(a: char, b: char, x: seq<int>, y: seq<int>)
    requires a != b
    ensures UnitsLess(Utf16(a) + x, Utf16(b) + y) <==> CodeUnitKey(a) < CodeUnitKey(b)
  {
    var na, nb := a as int, b as int;
    var u, v := Utf16(a) + x, Utf16(b) + y;
    assert u[0] == Utf16(a)[0] && v[0] == Utf16(b)[0];
    if na >= 0x10000 && nb >= 0x10000 && u[0] == v[0] {
      assert u[1..] == [Utf16(a)[1]] + x && v[1..] == [Utf16(b)[1]] + y;
      assert (u[1..])[0] == Utf16(a)[1] && (v[1..])[0] == Utf16(b)[1];
      assert na - 0x10000 == (na - 0x10000) / 0x400 * 0x400 + (na - 0x10000) % 0x400;
      assert nb - 0x10000 == (nb - 0x10000) / 0x400 * 0x400 + (nb - 0x10000) % 0x400;
    } else if na >= 0x10000 && nb >= 0x10000 {
      assert na - 0x10000 == (na - 0x10000) / 0x400 * 0x400 + (na - 0x10000) % 0x400;
      assert nb - 0x10000 == (nb - 0x10000) / 0x400 * 0x400 + (nb - 0x10000) % 0x400;
    }
  }

  /** `StrLess` is exactly the order of the strings' UTF-16 code units. */
  lemma {:induction false} StrLessIsCodeUnitOrder(a: string, b: string)
    ensures StrLess(a, b) <==> UnitsLess(Utf16Of(a), Utf16Of(b))
    decreases |a|
  {
    if a == "" || b == "" {
      if b != "" { assert Utf16Of(b) == Utf16(b[0]) + Utf16Of(b[1..]); }
      if a != "" { assert Utf16Of(a) == Utf16(a[0]) + Utf16Of(a[1..]); }
    } else if a[0] == b[0] {
      StrLessIsCodeUnitOrder(a[1..], b[1..]);
      UnitsLessCommonPrefix(Utf16(a[0]), Utf16Of(a[1..]), Utf16Of(b[1..]));
    } else {
      CharUnitsOrder(a[0], b[0], Utf16Of(a[1..]), Utf16Of(b[1..]));
    }
  }

  lemma {:induction false} StrLessIrreflexive(a: string)
    ensures !StrLess(a, a)
    decreases |a|
  {
    if a != "" { StrLessIrreflexive(a[1..]); }
  }

  lemma {:induction false} StrLessTransitive(a: string, b: string, c: string)
    requires StrLess(a, b) && StrLess(b, c)
    ensures StrLess(a, c)
    decreases |a|
  {
    if a != "" && b != "" && c != "" && a[0] == b[0] && b[0] == c[0] {
      StrLessTransitive(a[1..], b[1..], c[1..]);
    }
  }

  lemma StrLessAsymmetric(a: string, b: string)
    ensures !(StrLess(a, b) && StrLess(b, a))
  {
    if StrLess(a, b) && StrLess(b, a) {
      StrLessTransitive(a, b, a);
      StrLessIrreflexive(a);
    }
  }

  lemma {:induction false} StrLessTotal(a: string, b: string)
    ensures a == b || StrLess(a, b) || StrLess(b, a)
    decreases |a|
  {
    if a != "" && b != "" && a[0] == b[0] {
      StrLessTotal(a[1..], b[1..]);
      if a[1..] == b[1..] {
        assert a == [a[0]] + a[1..] && b == [b[0]] + b[1..];
      }
    }
  }

  /** A common prefix does not change the order. */
  lemma {:induction false} StrLessCommonPrefix(p: string, a: string, b: string)
    ensures StrLess(p + a, p + b) <==> StrLess(a, b)
    decreases |p|
  {
    if p != "" {
      assert (p + a)[1..] == p[1..] + a;
      assert (p + b)[1..] == p[1..] + b;
      StrLessCommonPrefix(p[1..], a, b);
    } else {
      assert p + a == a && p + b == b;
    }
  }

  /** Strings of one length are compared before whatever follows them. */
  lemma {:induction false} StrLessEqualLengthPrefix(x: string, y: string, r: string, t: string)
    requires |x| == |y|
    ensures StrLess(x + r, y + t) <==> StrLess(x, y) || (x == y && StrLess(r, t))
    decreases |x|
  {
    if x == "" {
      assert x + r == r && y + t == t && x == y;
    } else {
      assert (x + r)[0] == x[0] && (y + t)[0] == y[0];
      assert (x + r)[1..] == x[1..] + r && (y + t)[1..] == y[1..] + t;
      StrLessEqualLengthPrefix(x[1..], y[1..], r, t);
      if x[0] == y[0] && x[1..] == y[1..] {
        assert x == [x[0]] + x[1..] && y == [y[0]] + y[1..];
      }
    }
  }
}
