/** `slugify`, written identically in the course-list page and the
    courses-by-subcategory page: lower-case, trim, "&" becomes "and", every run of
    characters outside [a-z0-9] becomes one "-", and a leading and a trailing "-"
    are removed. */
module Slug {
  import opened Text

  /** No two adjacent hyphens. */
  predicate NoDoubleHyphen(s: string) {
    forall i :: 0 <= i < |s| - 1 ==> !(s[i] == '-' && s[i + 1] == '-')
  }

  /** What a slug looks like: only [a-z0-9-], no hyphen at either end, no "--". */
  predicate SlugShaped(s: string) {
    (forall c :: c in s ==> IsLowerAlnum(c) || c == '-') &&
    (s == [] || (s[0] != '-' && s[|s| - 1] != '-')) &&
    NoDoubleHyphen(s)
  }

  /** Drops the leading run of characters outside [a-z0-9]. */
  function SkipRun(s: string): (r: string)
    ensures |r| <= |s| && r == s[|s| - |r|..]
    ensures r == [] || IsLowerAlnum(r[0])
  {
    if s != [] && !IsLowerAlnum(s[0]) then
      var r := SkipRun(s[1..]);
      assert s[1..][|s| - 1 - |r|..] == s[|s| - |r|..];
      r
    else s
  }

  /** `replace(/[^a-z0-9]+/g, "-")`. */
  function Collapse(s: string): (r: string)
    ensures forall c :: c in r ==> IsLowerAlnum(c) || c == '-'
    ensures NoDoubleHyphen(r)
    ensures s == [] <==> r == []
    ensures r != [] ==> (r[0] == '-' <==> !IsLowerAlnum(s[0]))
    decreases |s|
  {
    if s == [] then []
    else if IsLowerAlnum(s[0]) then [s[0]] + Collapse(s[1..])
    else "-" + Collapse(SkipRun(s))
  }

  /** `replace(/(^-|-$)+/g, "")` on a string without "--": one hyphen goes at each end. */
  function StripEdgeHyphens(s: string): (r: string)
    requires NoDoubleHyphen(s)
    ensures r == [] || (r[0] != '-' && r[|r| - 1] != '-')
    ensures forall c :: c in r ==> c in s
    ensures NoDoubleHyphen(r)
  {
    var a := if s != [] && s[0] == '-' then s[1..] else s;
    assert forall i :: 0 <= i < |a| ==> a[i] == s[i + |s| - |a|];
    if a != [] && a[|a| - 1] == '-' then a[..|a| - 1] else a
  }

  function Slugify(text: string): (r: string)
    ensures SlugShaped(r)
  {
    StripEdgeHyphens(Collapse(ReplaceAll(Trim(Lower(text)), '&', "and")))
  }

  /** Only [a-z0-9-] and no "--". */
  predicate Hyphenated(s: string) {
    (forall c :: c in s ==> IsLowerAlnum(c) || c == '-') && NoDoubleHyphen(s)
  }

  lemma HyphenatedTail(s: string)
    requires Hyphenated(s) && s != []
    ensures Hyphenated(s[1..])
    ensures |s| > 1 && s[0] == '-' ==> IsLowerAlnum(s[1])
  {
    var t := s[1..];
    forall i | 0 <= i < |t| - 1
      ensures !(t[i] == '-' && t[i + 1] == '-')
    {
      assert t[i] == s[i + 1] && t[i + 1] == s[i + 2];
    }
    if |s| > 1 {
      assert s[1] in s;
    }
  }

  /** A string without "--" and made only of [a-z0-9-] is left alone by `Collapse`. */
  lemma {:induction false} CollapseKeeps(s: string)
    requires Hyphenated(s)
    ensures Collapse(s) == s
    decreases |s|
  {
    if s != [] {
      HyphenatedTail(s);
      CollapseKeeps(s[1..]);
      if IsLowerAlnum(s[0]) {
        calc {
          Collapse(s);
          [s[0]] + Collapse(s[1..]);
          { assert Collapse(s[1..]) == s[1..]; }
          s;
        }
      } else {
        assert s[1..] == [] || IsLowerAlnum(s[1]);
        assert SkipRun(s[1..]) == s[1..];
        assert SkipRun(s) == s[1..];
        assert s[0] == '-' by { assert s[0] in s; }
      }
    }
  }

  /** Lower-casing leaves a slug alone. */
  lemma {:induction false} LowerKeepsSlugs(s: string)
    requires SlugShaped(s)
    ensures Lower(s) == s
  {
    var l := Lower(s);
    forall i | 0 <= i < |s| ensures l[i] == s[i] {
      assert s[i] in s;
    }
  }

  /** Trimming leaves a slug alone. */
  lemma {:induction false} TrimKeepsSlugs(s: string)
    requires SlugShaped(s)
    ensures Trim(s) == s
  {
    if s != [] {
      assert s[0] in s && s[|s| - 1] in s;
    }
  }

  /** A slug has no "&" to replace. */
  lemma {:induction false} ReplaceKeepsSlugs(s: string)
    requires SlugShaped(s)
    ensures ReplaceAll(s, '&', "and") == s
  {
    assert '&' !in s;
  }

  /** A slug has no hyphen at either end to strip. */
  lemma {:induction false} StripKeepsSlugs(s: string)
    requires SlugShaped(s)
    ensures StripEdgeHyphens(s) == s
  {
  }

  /** A slug is its own slug. */
  lemma {:induction false} SlugifyKeepsSlugs(s: string)
    requires SlugShaped(s)
    ensures Slugify(s) == s
  {
    LowerKeepsSlugs(s);
    TrimKeepsSlugs(s);
    ReplaceKeepsSlugs(s);
    CollapseKeeps(s);
    StripKeepsSlugs(s);
  }

  /** `slugify` is idempotent. */
  lemma SlugifyIdempotent(text: string)
    ensures Slugify(Slugify(text)) == Slugify(text)
  {
    SlugifyKeepsSlugs(Slugify(text));
  }
}
