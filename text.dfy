/** String operations of JavaScript used by the front end, on `seq<char>`.
    Case mapping is ASCII only; `trim` uses JavaScript's full set of white-space
    and line-terminator characters. */
module Text {
  import opened Base

  // ---------------------------------------------------------------- characters

  /** The characters `String.prototype.trim` removes (WhiteSpace and LineTerminator). */
  predicate IsSpace(c: char) {
    var n := c as int;
    n == 9 || n == 10 || n == 11 || n == 12 || n == 13 || n == 32 || n == 0xA0 ||
    n == 0x1680 || (0x2000 <= n <= 0x200A) || n == 0x2028 || n == 0x2029 ||
    n == 0x202F || n == 0x205F || n == 0x3000 || n == 0xFEFF
  }

  predicate IsDigit(c: char) { '0' <= c <= '9' }

  predicate IsLowerAlnum(c: char) { 'a' <= c <= 'z' || IsDigit(c) }

  /** The regular-expression class `\w`. */
  predicate IsWordChar(c: char) { 'a' <= c <= 'z' || 'A' <= c <= 'Z' || IsDigit(c) || c == '_' }

  function ToLowerChar(c: char): (r: char)
    ensures !('A' <= r <= 'Z')
    ensures 'a' <= c <= 'z' || IsDigit(c) ==> r == c
    ensures IsLowerAlnum(r) <==> IsLowerAlnum(c) || 'A' <= c <= 'Z'
  {
    if 'A' <= c <= 'Z' then (c as int + 32) as char else c
  }

  function ToUpperChar(c: char): (r: char)
    ensures !('a' <= r <= 'z')
    ensures 'a' <= c <= 'z' ==> r as int == c as int - 32
    ensures !('a' <= c <= 'z') ==> r == c
  {
    if 'a' <= c <= 'z' then (c as int - 32) as char else c
  }

  /** `toLowerCase` (ASCII letters only). */
  function Lower(s: string): (r: string)
    ensures |r| == |s|
    ensures forall i :: 0 <= i < |s| ==> r[i] == ToLowerChar(s[i])
  {
    seq(|s|, i requires 0 <= i < |s| => ToLowerChar(s[i]))
  }

  // ---------------------------------------------------------------- prefixes and substrings

  predicate StartsWith(s: string, p: string) {
    |p| <= |s| && s[..|p|] == p
  }

  /** `s.startsWith("http://") || s.startsWith("https://")`. */
  predicate IsAbsolute(s: string) {
    StartsWith(s, "http://") || StartsWith(s, "https://")
  }

  /** `s.includes(t)`: `t` occurs in `s` at some position. */
  predicate Contains(s: string, t: string)
    decreases |s|
  {
    StartsWith(s, t) || (s != [] && Contains(s[1..], t))
  }

  /** Every string contains itself. */
  lemma ContainsSelf(s: string)
    ensures Contains(s, s)
  {
    assert StartsWith(s, s);
  }

  /** Every string contains the empty string. */
  lemma ContainsEmpty(s: string)
    ensures Contains(s, [])
  {
    assert StartsWith(s, []);
  }

  /** Lower-casing twice is lower-casing once. */
  lemma LowerIdempotent(s: string)
    ensures Lower(Lower(s)) == Lower(s)
  {
  }

  /** The search boxes: `field.toLowerCase().includes(query.toLowerCase())`. */
  predicate Matches(field: string, query: string) {
    Contains(Lower(field), Lower(query))
  }

  /** An empty query matches every field, and the case of either side does not matter. */
  lemma MatchesFacts(field: string, query: string)
    ensures Matches(field, [])
    ensures Matches(field, query) == Matches(Lower(field), query) == Matches(field, Lower(query))
  {
    ContainsEmpty(Lower(field));
    assert Lower([]) == [];
    LowerIdempotent(field);
    LowerIdempotent(query);
  }

  /** Number of occurrences of the character `c`. */
  function Count(s: string, c: char): (n: nat)
    ensures n <= |s|
    ensures n == 0 <==> c !in s
  {
    if s == [] then 0 else (if s[0] == c then 1 else 0) + Count(s[1..], c)
  }

  lemma {:induction false} CountAppend(a: string, b: string, c: char)
    ensures Count(a + b, c) == Count(a, c) + Count(b, c)
    decreases |a|
  {
    if a == [] {
      assert a + b == b;
    } else {
      assert (a + b)[1..] == a[1..] + b;
      CountAppend(a[1..], b, c);
    }
  }

  /** A string never contains a pattern with more copies of some character than it has. */
  lemma {:induction false} ContainsCount(s: string, t: string, c: char)
    requires Contains(s, t)
    ensures Count(t, c) <= Count(s, c)
    decreases |s|
  {
    if StartsWith(s, t) {
      assert s == t + s[|t|..];
      CountAppend(t, s[|t|..], c);
    } else {
      ContainsCount(s[1..], t, c);
      assert s == [s[0]] + s[1..];
      CountAppend([s[0]], s[1..], c);
    }
  }

  /** A string without the character `c` contains no pattern that has `c`. */
  lemma NoCharNoContains(s: string, t: string, c: char)
    requires c in t && c !in s
    ensures !Contains(s, t)
  {
    if Contains(s, t) {
      ContainsCount(s, t, c);
    }
  }

  /** What a suffix contains, the whole string contains. */
  lemma {:induction false} ContainsInSuffix(s: string, k: nat, t: string)
    requires k <= |s| && Contains(s[k..], t)
    ensures Contains(s, t)
    decreases k
  {
    if k > 0 {
      assert s[1..][k - 1..] == s[k..];
      ContainsInSuffix(s[1..], k - 1, t);
    }
  }

  /** A string holding the character `c` contains the one-character pattern `[c]`. */
  lemma CharIsContained(s: string, c: char)
    requires c in s
    ensures Contains(s, [c])
  {
    var k :| 0 <= k < |s| && s[k] == c;
    assert s[k..][..1] == [c];
    ContainsInSuffix(s, k, [c]);
  }

  // ---------------------------------------------------------------- trimming and rewriting

  function TrimStart(s: string): (r: string)
    ensures |r| <= |s| && r == s[|s| - |r|..]
    ensures r == [] || !IsSpace(r[0])
    ensures s == [] || !IsSpace(s[0]) ==> r == s
  {
    if s != [] && IsSpace(s[0]) then TrimStart(s[1..]) else s
  }

  function TrimEnd(s: string): (r: string)
    ensures |r| <= |s| && r == s[..|r|]
    ensures r == [] || !IsSpace(r[|r| - 1])
    ensures s == [] || !IsSpace(s[|s| - 1]) ==> r == s
    ensures s != [] && !IsSpace(s[0]) ==> r != [] && r[0] == s[0]
  {
    if s != [] && IsSpace(s[|s| - 1]) then TrimEnd(s[..|s| - 1]) else s
  }

  /** `trim()`: removes white space at both ends. */
  function Trim(s: string): (r: string)
    ensures |r| <= |s|
    ensures r == [] || (!IsSpace(r[0]) && !IsSpace(r[|r| - 1]))
    ensures s == [] || (!IsSpace(s[0]) && !IsSpace(s[|s| - 1])) ==> r == s
    ensures s != [] && !IsSpace(s[0]) ==> r != [] && r[0] == s[0]
  {
    var t := TrimStart(s);
    assert t != [] ==> t[0] == s[|s| - |t|];
    TrimEnd(t)
  }

  /** A character absent from a string is absent from any slice of it. */
  lemma NotInSlice(s: string, i: int, j: int, c: char)
    requires 0 <= i <= j <= |s| && c !in s
    ensures c !in s[i..j]
  {
    assert forall k :: 0 <= k < j - i ==> s[i..j][k] == s[i + k];
  }

  /** Stripping the leading and trailing quotes never introduces a character. */
  lemma NotInStripQuotes(s: string, c: char)
    requires c !in s
    ensures c !in StripTrailing(StripLeading(s, '"'), '"')
  {
    var b := StripLeading(s, '"');
    NotInSlice(s, |s| - |b|, |s|, c);
    assert b == s[|s| - |b|..|s|];
    var d := StripTrailing(b, '"');
    NotInSlice(b, 0, |d|, c);
    assert d == b[0..|d|];
  }

  /** Stripping the quotes at both ends and then trimming never introduces a character. */
  lemma {:induction false} NotInStripQuotesTrim(s: string, c: char)
    requires c !in s
    ensures c !in Trim(StripTrailing(StripLeading(s, '"'), '"'))
  {
    NotInStripQuotes(s, c);
    NotInTrim(StripTrailing(StripLeading(s, '"'), '"'), c);
  }

  /** Trimming never introduces a character. */
  lemma NotInTrim(s: string, c: char)
    requires c !in s
    ensures c !in Trim(s)
  {
    var t := TrimStart(s);
    NotInSlice(s, |s| - |t|, |s|, c);
    assert t == s[|s| - |t|..|s|];
    NotInSlice(t, 0, |TrimEnd(t)|, c);
  }

  /** `s.replace(/c/g, "")`: removes every occurrence of `c`. */
  function RemoveAll(s: string, c: char): (r: string)
    ensures |r| <= |s|
    ensures c !in r
    ensures c !in s ==> r == s
  {
    if s == [] then [] else (if s[0] == c then [] else [s[0]]) + RemoveAll(s[1..], c)
  }

  /** `s.replace(/c/g, rep)`: replaces every occurrence of `c` by `rep`. */
  function ReplaceAll(s: string, c: char, rep: string): (r: string)
    requires c !in rep
    ensures |rep| == 1 ==> |r| == |s| && forall i :: 0 <= i < |s| ==> r[i] == (if s[i] == c then rep[0] else s[i])
    ensures c !in r
    ensures c !in s ==> r == s
  {
    if s == [] then [] else (if s[0] == c then rep else [s[0]]) + ReplaceAll(s[1..], c, rep)
  }

  lemma {:induction false} ReplaceAllAppend(a: string, b: string, c: char, rep: string)
    requires c !in rep
    ensures ReplaceAll(a + b, c, rep) == ReplaceAll(a, c, rep) + ReplaceAll(b, c, rep)
    decreases |a|
  {
    if a == [] {
      assert a + b == b;
    } else {
      assert (a + b)[1..] == a[1..] + b;
      ReplaceAllAppend(a[1..], b, c, rep);
    }
  }

  /** `s.replace(/^c+/, "")`: removes the leading run of `c`. */
  function StripLeading(s: string, c: char): (r: string)
    ensures |r| <= |s| && r == s[|s| - |r|..]
    ensures r == [] || r[0] != c
    ensures s == [] || s[0] != c ==> r == s
  {
    if s != [] && s[0] == c then StripLeading(s[1..], c) else s
  }

  /** `s.replace(/c+$/, "")`: removes the trailing run of `c`. */
  function StripTrailing(s: string, c: char): (r: string)
    ensures |r| <= |s| && r == s[..|r|]
    ensures r == [] || r[|r| - 1] != c
    ensures s == [] || s[|s| - 1] != c ==> r == s
  {
    if s != [] && s[|s| - 1] == c then StripTrailing(s[..|s| - 1], c) else s
  }

  /** One `c` put in front of a text not starting with `c` is stripped again. */
  lemma {:induction false} StripOneLeading(s: string, c: char)
    requires s != [] && s[0] != c
    ensures StripLeading([c] + s, c) == s
  {
    assert ([c] + s)[1..] == s;
  }

  /** One `c` put after a text not ending in `c` is stripped again. */
  lemma {:induction false} StripOneTrailing(s: string, c: char)
    requires s != [] && s[|s| - 1] != c
    ensures StripTrailing(s + [c], c) == s
  {
    assert (s + [c])[..|s|] == s;
  }

  /** `s.replace(/^p/, "")`: removes one leading copy of `p`. */
  function DropPrefix(s: string, p: string): (r: string)
    ensures StartsWith(s, p) ==> s == p + r
    ensures !StartsWith(s, p) ==> r == s
  {
    if StartsWith(s, p) then s[|p|..] else s
  }

  /** `s.split(sep).pop()`: the piece after the last separator found by a
      left-to-right split (the whole string when `sep` does not occur). */
  function SplitLast(s: string, sep: string): (r: string)
    requires sep != []
    ensures |r| <= |s| && r == s[|s| - |r|..]
    ensures !Contains(r, sep)
    ensures !Contains(s, sep) ==> r == s
    decreases |s|
  {
    if !Contains(s, sep) then s
    else if StartsWith(s, sep) then SplitLast(s[|sep|..], sep)
    else SplitLast(s[1..], sep)
  }

  /** When `p` ends with the separator `c` and `f` has no `c`, the last piece of
      `p + f` is `f`. */
  lemma {:induction false} SplitLastAfter(p: string, f: string, c: char)
    requires p != [] && p[|p| - 1] == c && c !in f
    ensures SplitLast(p + f, [c]) == f
    decreases |p|
  {
    var s := p + f;
    assert s[|p| - 1..][..1] == [c];
    ContainsInSuffix(s, |p| - 1, [c]);
    NoCharNoContains(f, [c], c);
    assert s[1..] == p[1..] + f;
    if |p| == 1 {
      assert StartsWith(s, [c]);
      assert s[1..] == f;
    } else {
      SplitLastAfter(p[1..], f, c);
    }
  }

  /** `s.split(c)[0]`: the text before the first `c` (all of `s` when there is none). */
  function BeforeFirst(s: string, c: char): (r: string)
    ensures |r| <= |s| && r == s[..|r|]
    ensures c !in r
    ensures |r| < |s| ==> s[|r|] == c
    ensures c !in s ==> r == s
  {
    if s == [] || s[0] == c then [] else [s[0]] + BeforeFirst(s[1..], c)
  }

  /** `s.split(c).slice(1).join(c)`: the text after the first `c` ("" when there is none). */
  function AfterFirst(s: string, c: char): (r: string)
    ensures c in s ==> s == BeforeFirst(s, c) + [c] + r
    ensures c !in s ==> r == []
  {
    if s == [] then []
    else if s[0] == c then
      assert BeforeFirst(s, c) == [];
      s[1..]
    else
      var r := AfterFirst(s[1..], c);
      assert c in s ==> c in s[1..] by {
        if c in s { var i :| 0 <= i < |s| && s[i] == c; assert i > 0 && s[1..][i - 1] == c; }
      }
      assert c in s ==> BeforeFirst(s, c) == [s[0]] + BeforeFirst(s[1..], c);
      r
  }

  /** Splitting at the first `c` of `a + [c] + b`, when `a` has no `c`, gives `a` and `b`. */
  lemma {:induction false} SplitAtFirst(a: string, b: string, c: char)
    requires c !in a
    ensures BeforeFirst(a + [c] + b, c) == a
    ensures AfterFirst(a + [c] + b, c) == b
    decreases |a|
  {
    var s := a + [c] + b;
    if a == [] {
      assert s == [c] + b;
    } else {
      assert s[0] == a[0] && s[1..] == a[1..] + [c] + b;
      assert c !in a[1..] by { assert forall x :: x in a[1..] ==> x in a; }
      SplitAtFirst(a[1..], b, c);
    }
  }

  /** `s.replace(/\D/g, "")`: keeps only the decimal digits. */
  function DigitsOnly(s: string): (r: string)
    ensures |r| <= |s|
    ensures forall c :: c in r ==> IsDigit(c)
    ensures forall c :: c in s && IsDigit(c) ==> c in r
    ensures (forall c :: c in s ==> IsDigit(c)) ==> r == s
  {
    if s == [] then [] else (if IsDigit(s[0]) then [s[0]] else []) + DigitsOnly(s[1..])
  }

  // ---------------------------------------------------------------- numbers

  function DigitChar(d: nat): (c: char)
    requires d < 10
    ensures IsDigit(c) && c as int - '0' as int == d
  {
    ('0' as int + d) as char
  }

  /** Decimal rendering of a natural number, as `String(n)` prints it. */
  function NatToStr(n: nat): (r: string)
    ensures r != []
    ensures forall c :: c in r ==> IsDigit(c)
    decreases n
  {
    if n < 10 then [DigitChar(n)] else NatToStr(n / 10) + [DigitChar(n % 10)]
  }

  /** `String(n)` for an integer. */
  function IntToStr(n: int): (r: string)
    ensures r != []
    ensures n >= 0 ==> forall c :: c in r ==> IsDigit(c)
    ensures n < 0 ==> r[0] == '-' && forall c :: c in r[1..] ==> IsDigit(c)
  {
    if n >= 0 then NatToStr(n) else "-" + NatToStr(-n)
  }

  function DigitValue(c: char): (d: nat)
    requires IsDigit(c)
    ensures d < 10 && DigitChar(d) == c
  {
    c as int - '0' as int
  }

  /** The value of a string of decimal digits. */
  function DigitsValue(s: string): nat
    requires forall c :: c in s ==> IsDigit(c)
  {
    if s == [] then 0
    else
      assert s[|s| - 1] in s;
      assert forall c :: c in s[..|s| - 1] ==> c in s;
      DigitsValue(s[..|s| - 1]) * 10 + DigitValue(s[|s| - 1])
  }

  predicate AllDigits(s: string) { forall c :: c in s ==> IsDigit(c) }

  /** `Number(s)` when it is a finite integer: surrounding white space is ignored, an
      empty string is 0, an optional sign may precede the digits; anything else is
      reported as `None` (not a number). */
  function ParseNumber(s: string): Option<int> {
    var t := Trim(s);
    if t == [] then Some(0)
    else if AllDigits(t) then Some(DigitsValue(t))
    else if (t[0] == '-' || t[0] == '+') && |t| > 1 && AllDigits(t[1..]) then
      var v: int := DigitsValue(t[1..]);
      Some(if t[0] == '-' then -v else v)
    else None
  }

  /** The longest run of digits at the start of `s`. */
  function DigitPrefix(s: string): (r: string)
    ensures |r| <= |s| && r == s[..|r|]
    ensures AllDigits(r)
    ensures |r| < |s| ==> !IsDigit(s[|r|])
  {
    if s == [] || !IsDigit(s[0]) then [] else [s[0]] + DigitPrefix(s[1..])
  }

  /** `parseFloat(s)` as far as its integer part: leading white space and one
      sign are skipped and the digits that follow are read, whatever comes after
      them; no digits at all is `None` (not a number). Unlike `Number`, the empty
      string is not a number. */
  function ParseFloat(s: string): (r: Option<int>)
    ensures TrimStart(s) == [] ==> r.None?
    ensures r.Some? ==> TrimStart(s) != []
  {
    var t := TrimStart(s);
    var body := if t != [] && (t[0] == '-' || t[0] == '+') then t[1..] else t;
    var digits := DigitPrefix(body);
    if digits == [] then None
    else
      var v: int := DigitsValue(digits);
      Some(if t[0] == '-' then -v else v)
  }

  /** A run of digits is its own digit prefix. */
  lemma {:induction false} DigitPrefixAll(s: string)
    requires AllDigits(s)
    ensures DigitPrefix(s) == s
    decreases |s|
  {
    if s != [] {
      assert s[0] in s;
      assert AllDigits(s[1..]) by { assert forall c :: c in s[1..] ==> c in s; }
      DigitPrefixAll(s[1..]);
    }
  }

  /** `parseFloat(String(n)) == n` for an integer `n`. */
  lemma ParseFloatOfInt(n: int)
    ensures ParseFloat(IntToStr(n)) == Some(n)
  {
    var s := IntToStr(n);
    var m: nat := if n >= 0 then n else -n;
    var digits := NatToStr(m);
    assert digits[0] in digits;
    DigitIsNotSpace(s[0]);
    assert TrimStart(s) == s;
    DigitPrefixAll(digits);
    DigitsValueOfNat(m);
    if n < 0 {
      assert s[1..] == digits;
    } else {
      assert s == digits;
      assert s[0] != '-' && s[0] != '+';
    }
  }

  /** The empty price is not a number to `parseFloat`, though `Number` reads it as 0. */
  lemma ParseEmpty()
    ensures ParseFloat([]) == None && ParseNumber([]) == Some(0)
  {
  }

  lemma {:induction false} DigitsValueOfNat(n: nat)
    ensures DigitsValue(NatToStr(n)) == n
    decreases n
  {
    if n >= 10 {
      DigitsValueOfNat(n / 10);
      var s := NatToStr(n);
      assert s[..|s| - 1] == NatToStr(n / 10);
    }
  }

  /** Distinct numbers print differently. */
  lemma NatToStrInjective()
    ensures forall a: nat, b: nat :: NatToStr(a) == NatToStr(b) ==> a == b
  {
    forall a: nat, b: nat | NatToStr(a) == NatToStr(b)
      ensures a == b
    {
      DigitsValueOfNat(a);
      DigitsValueOfNat(b);
    }
  }

  lemma DigitIsNotSpace(c: char)
    requires IsDigit(c) || c == '-'
    ensures !IsSpace(c)
  {
  }

  /** `Number(String(n)) == n`: printing an integer and reading it back is the identity. */
  lemma NumberOfString(n: int)
    ensures ParseNumber(IntToStr(n)) == Some(n)
  {
    var s := IntToStr(n);
    var m: nat := if n >= 0 then n else -n;
    var digits := NatToStr(m);
    assert digits[0] in digits && digits[|digits| - 1] in digits;
    DigitIsNotSpace(s[0]);
    DigitIsNotSpace(s[|s| - 1]);
    assert Trim(s) == s;
    DigitsValueOfNat(m);
    if n < 0 {
      assert s[1..] == digits;
      assert s[0] in s;
      assert !AllDigits(s);
      assert ParseNumber(s) == Some(0 - DigitsValue(digits));
    } else {
      assert ParseNumber(s) == Some(DigitsValue(digits));
    }
  }

  /** A plain file name: non-empty, with no '/', no '\', no '"' and no white space. */
  predicate PlainName(f: string) {
    f != [] && forall c :: c in f ==> c != '/' && c != '\\' && c != '"' && !IsSpace(c)
  }
}
