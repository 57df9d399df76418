/** `Array.prototype.filter` and the facts about it that the search boxes, the
    paid/unpaid split and delete-by-id rely on. */
module Seqs {
  import opened Base

  /** `s` is obtained from `t` by deleting elements (order is kept). */
  predicate IsSubsequence<T(==)>(s: seq<T>, t: seq<T>)
    decreases |t|
  {
    if s == [] then true
    else if t == [] then false
    else if s[0] == t[0] then IsSubsequence(s[1..], t[1..])
    else IsSubsequence(s, t[1..])
  }

  /** Every list is a subsequence of itself. */
  lemma {:induction false} SubsequenceRefl<T>(s: seq<T>)
    ensures IsSubsequence(s, s)
    decreases |s|
  {
    if s != [] {
      SubsequenceRefl(s[1..]);
    }
  }

  /** `s.filter(p)`. */
  function Filter<T(==,!new)>(s: seq<T>, p: T -> bool): (r: seq<T>)
    ensures |r| <= |s|
    ensures forall i :: 0 <= i < |r| ==> r[i] in s && p(r[i])
    ensures forall i :: 0 <= i < |s| && p(s[i]) ==> s[i] in r
    ensures forall x :: multiset(r)[x] == if p(x) then multiset(s)[x] else 0
    decreases |s|
  {
    assert s != [] ==> s == [s[0]] + s[1..];
    if s == [] then []
    else if p(s[0]) then [s[0]] + Filter(s[1..], p)
    else Filter(s[1..], p)
  }

  /** The filtered list keeps the order of the original list. */
  lemma {:induction false} FilterIsSubsequence<T(!new)>(s: seq<T>, p: T -> bool)
    ensures IsSubsequence(Filter(s, p), s)
    decreases |s|
  {
    if s != [] {
      FilterIsSubsequence(s[1..], p);
      var r := Filter(s[1..], p);
      if p(s[0]) {
        assert ([s[0]] + r)[1..] == r;
      } else {
        SubsequenceOfTail(r, s);
      }
    }
  }

  /** A subsequence of the tail is a subsequence of the whole. */
  lemma {:induction false} SubsequenceOfTail<T>(r: seq<T>, s: seq<T>)
    requires s != [] && IsSubsequence(r, s[1..])
    ensures IsSubsequence(r, s)
    decreases |s|, 0
  {
    if r != [] && r[0] == s[0] {
      DropHead(r, s[1..]);
    }
  }

  /** Dropping the first element keeps a subsequence a subsequence. */
  lemma {:induction false} DropHead<T>(r: seq<T>, t: seq<T>)
    requires r != [] && IsSubsequence(r, t)
    ensures IsSubsequence(r[1..], t)
    decreases |t|, 1
  {
    if r[0] == t[0] {
      SubsequenceOfTail(r[1..], t);
    } else {
      DropHead(r, t[1..]);
      SubsequenceOfTail(r[1..], t);
    }
  }

  /** Filtering a concatenation filters each part. */
  lemma {:induction false} FilterConcat<T(!new)>(a: seq<T>, b: seq<T>, p: T -> bool)
    ensures Filter(a + b, p) == Filter(a, p) + Filter(b, p)
    decreases |a|
  {
    if a == [] {
      assert a + b == b;
    } else {
      assert (a + b)[1..] == a[1..] + b;
      FilterConcat(a[1..], b, p);
    }
  }

  /** Filtering with a predicate every element meets changes nothing. */
  lemma {:induction false} FilterAll<T(!new)>(s: seq<T>, p: T -> bool)
    requires forall i :: 0 <= i < |s| ==> p(s[i])
    ensures Filter(s, p) == s
    decreases |s|
  {
    if s != [] {
      FilterAll(s[1..], p);
    }
  }

  /** Filtering by `p` and by its negation splits the multiset of elements in two. */
  lemma FilterPartition<T(!new)>(s: seq<T>, p: T -> bool, q: T -> bool)
    requires forall i :: 0 <= i < |s| ==> q(s[i]) == !p(s[i])
    ensures multiset(Filter(s, p)) + multiset(Filter(s, q)) == multiset(s)
    ensures |Filter(s, p)| + |Filter(s, q)| == |s|
  {
    var a, b := multiset(Filter(s, p)), multiset(Filter(s, q));
    forall x
      ensures (a + b)[x] == multiset(s)[x]
    {
      if x in s {
        var i :| 0 <= i < |s| && s[i] == x;
      }
    }
    assert a + b == multiset(s);
    assert |a + b| == |s|;
  }

  /** The number of elements that satisfy `p`. */
  function CountWhere<T>(s: seq<T>, p: T -> bool): (n: nat)
    ensures n <= |s|
  {
    if s == [] then 0 else CountWhere(s[..|s| - 1], p) + (if p(s[|s| - 1]) then 1 else 0)
  }

  lemma CountWhereAppend<T>(s: seq<T>, x: T, p: T -> bool)
    ensures CountWhere(s + [x], p) == CountWhere(s, p) + (if p(x) then 1 else 0)
  {
    assert (s + [x])[..|s|] == s;
  }

  /** No element satisfies `p` exactly when the count is zero. */
  lemma {:induction false} CountWhereZero<T>(s: seq<T>, p: T -> bool)
    ensures CountWhere(s, p) == 0 <==> forall i :: 0 <= i < |s| ==> !p(s[i])
  {
    if s != [] {
      CountWhereZero(s[..|s| - 1], p);
      assert forall i :: 0 <= i < |s| - 1 ==> s[..|s| - 1][i] == s[i];
    }
  }

  lemma {:induction false} CountWhereConcat<T>(a: seq<T>, b: seq<T>, p: T -> bool)
    ensures CountWhere(a + b, p) == CountWhere(a, p) + CountWhere(b, p)
    decreases |b|
  {
    if b == [] {
      assert a + b == a;
    } else {
      assert (a + b)[..|a + b| - 1] == a + b[..|b| - 1];
      CountWhereConcat(a, b[..|b| - 1], p);
    }
  }

  /** Removing the element at `k` removes its contribution to the count. */
  lemma {:induction false} CountWhereRemove<T>(s: seq<T>, k: nat, p: T -> bool)
    requires k < |s|
    ensures CountWhere(s[..k] + s[k + 1..], p) == CountWhere(s, p) - (if p(s[k]) then 1 else 0)
  {
    var x, a, b := s[k], s[..k], s[k + 1..];
    assert (a + [x]) + b == s;
    calc {
      CountWhere(s, p);
      CountWhere((a + [x]) + b, p);
      { CountWhereConcat(a + [x], b, p); }
      CountWhere(a + [x], p) + CountWhere(b, p);
      { CountWhereAppend(a, x, p); }
      CountWhere(a, p) + (if p(x) then 1 else 0) + CountWhere(b, p);
      { CountWhereConcat(a, b, p); }
      CountWhere(a + b, p) + (if p(x) then 1 else 0);
    }
  }

  /** Replacing the element at `k` swaps its contribution to the count. */
  lemma CountWhereUpdate<T>(s: seq<T>, k: nat, x: T, p: T -> bool)
    requires k < |s|
    ensures CountWhere(s[k := x], p) == CountWhere(s, p) - (if p(s[k]) then 1 else 0) + (if p(x) then 1 else 0)
  {
    var t := s[k := x];
    assert t[..k] == s[..k] && t[k + 1..] == s[k + 1..] && t[k] == x;
    CountWhereRemove(s, k, p);
    CountWhereRemove(t, k, p);
  }

  /** `xs.map(f)` with a callback that may throw: the first error escapes. */
  function MapResult<A, B>(xs: seq<A>, f: A -> Result<B>): (r: Result<seq<B>>)
    ensures r.Ok? <==> forall i :: 0 <= i < |xs| ==> f(xs[i]).Ok?
    ensures r.Ok? ==> |r.value| == |xs| && forall i :: 0 <= i < |xs| ==> f(xs[i]) == Ok(r.value[i])
    ensures r.Err? ==> exists i :: 0 <= i < |xs| && f(xs[i]) == Err(r.error) &&
                                   forall j :: 0 <= j < i ==> f(xs[j]).Ok?
    decreases |xs|
  {
    if xs == [] then Ok([])
    else match f(xs[0])
      case Err(e) => Err(e)
      case Ok(y) =>
        match MapResult(xs[1..], f)
        case Err(e) =>
          ghost var i :| 0 <= i < |xs[1..]| && f(xs[1..][i]) == Err(e) &&
                         forall j :: 0 <= j < i ==> f(xs[1..][j]).Ok?;
          assert f(xs[i + 1]) == Err(e);
          assert forall j :: 1 <= j < i + 1 ==> f(xs[j]) == f(xs[1..][j - 1]);
          Err(e)
        case Ok(ys) =>
          var out := [y] + ys;
          assert forall i :: 1 <= i < |xs| ==> xs[i] == xs[1..][i - 1] && out[i] == ys[i - 1];
          Ok(out)
  }
}
