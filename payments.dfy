/** The admin payments page (`src/pages/Payments.tsx`): the payment list with
    the backend's "success" status renamed "completed", the search box and the
    revenue figures. */
module Payments {
  import opened Base
  import opened Text
  import opened Seqs

  /** A payment row as the page types it. Amounts are whole rupees. */
  datatype Payment = Payment(id: int, student: string, email: string, course: string,
                             amount: int, currency: string, status: string, createdAt: string)

  /** The status rename of the load: "success" becomes "completed". */
  function NormalizeOne(p: Payment): (q: Payment)
    ensures q.status != "success"
    ensures p.status != "success" ==> q == p
    ensures p.status == "success" ==> q == p.(status := "completed")
  {
    if p.status == "success" then p.(status := "completed") else p
  }

  /** The map over the loaded rows. */
  function Normalize(ps: seq<Payment>): (qs: seq<Payment>)
    ensures |qs| == |ps|
    ensures forall i :: 0 <= i < |ps| ==> qs[i] == NormalizeOne(ps[i])
    ensures forall i :: 0 <= i < |qs| ==> qs[i].status != "success"
  {
    seq(|ps|, i requires 0 <= i < |ps| => NormalizeOne(ps[i]))
  }

  /** Normalising a normalised list changes nothing. */
  lemma NormalizeIdempotent(ps: seq<Payment>)
    ensures Normalize(Normalize(ps)) == Normalize(ps)
  {
  }

  /** `reduce((sum, p) => sum + p.amount, 0)`. */
  function Sum(ps: seq<Payment>): int
  {
    if ps == [] then 0 else Sum(ps[..|ps| - 1]) + ps[|ps| - 1].amount
  }

  lemma {:induction false} SumConcat(a: seq<Payment>, b: seq<Payment>)
    ensures Sum(a + b) == Sum(a) + Sum(b)
    decreases |b|
  {
    if b == [] {
      assert a + b == a;
    } else {
      assert (a + b)[..|a + b| - 1] == a + b[..|b| - 1];
      SumConcat(a, b[..|b| - 1]);
    }
  }

  /** The "Total Payments" figure: every amount, whatever its status. */
  function TotalRevenue(ps: seq<Payment>): (total: int)
    ensures ps == [] ==> total == 0
  {
    Sum(ps)
  }

  predicate IsPending(p: Payment) {
    p.status == "pending"
  }

  /** `pendingAmount`: the amounts of the pending payments. */
  function PendingAmount(ps: seq<Payment>): (amount: int)
    ensures (forall i :: 0 <= i < |ps| ==> !IsPending(ps[i])) ==> amount == 0
  {
    ZeroWhenNonePending(ps);
    Sum(Filter(ps, IsPending))
  }

  lemma ZeroWhenNonePending(ps: seq<Payment>)
    ensures (forall i :: 0 <= i < |ps| ==> !IsPending(ps[i])) ==> Filter(ps, IsPending) == []
  {
  }

  /** The total splits into the pending amount and the rest. */
  lemma {:induction false} TotalSplits(ps: seq<Payment>)
    ensures TotalRevenue(ps) == PendingAmount(ps) + Sum(Filter(ps, p => !IsPending(p)))
    decreases |ps|
  {
    if ps != [] {
      var t := ps[1..];
      TotalSplits(t);
      assert ps == [ps[0]] + t;
      SumConcat([ps[0]], t);
      if IsPending(ps[0]) {
        assert Filter(ps, IsPending) == [ps[0]] + Filter(t, IsPending);
        assert Filter(ps, p => !IsPending(p)) == Filter(t, p => !IsPending(p));
        SumConcat([ps[0]], Filter(t, IsPending));
      } else {
        assert Filter(ps, IsPending) == Filter(t, IsPending);
        assert Filter(ps, p => !IsPending(p)) == [ps[0]] + Filter(t, p => !IsPending(p));
        SumConcat([ps[0]], Filter(t, p => !IsPending(p)));
      }
    }
  }

  /** With no negative amounts, the pending amount never exceeds the total. */
  lemma {:induction false} PendingWithinTotal(ps: seq<Payment>)
    requires forall i :: 0 <= i < |ps| ==> ps[i].amount >= 0
    ensures 0 <= PendingAmount(ps) <= TotalRevenue(ps)
  {
    TotalSplits(ps);
    NonNegativeSum(Filter(ps, IsPending));
    NonNegativeSum(Filter(ps, p => !IsPending(p)));
  }

  lemma {:induction false} NonNegativeSum(ps: seq<Payment>)
    requires forall p :: p in ps ==> p.amount >= 0
    ensures Sum(ps) >= 0
    decreases |ps|
  {
    if ps != [] {
      NonNegativeSum(ps[..|ps| - 1]);
    }
  }

  /** The rename keeps every amount, so the total is that of the raw rows. */
  lemma {:induction false} NormalizeKeepsTotal(ps: seq<Payment>)
    ensures TotalRevenue(Normalize(ps)) == TotalRevenue(ps)
    decreases |ps|
  {
    if ps != [] {
      assert Normalize(ps)[..|ps| - 1] == Normalize(ps[..|ps| - 1]);
      NormalizeKeepsTotal(ps[..|ps| - 1]);
    }
  }

  /** The rename touches no pending payment, so the pending rows are the same. */
  lemma {:induction false} NormalizeKeepsPending(ps: seq<Payment>)
    ensures Filter(Normalize(ps), IsPending) == Filter(ps, IsPending)
    decreases |ps|
  {
    if ps != [] {
      assert Normalize(ps)[1..] == Normalize(ps[1..]);
      NormalizeKeepsPending(ps[1..]);
    }
  }

  /** Both figures are those of the raw rows. */
  lemma NormalizeKeepsFigures(ps: seq<Payment>)
    ensures TotalRevenue(Normalize(ps)) == TotalRevenue(ps)
    ensures PendingAmount(Normalize(ps)) == PendingAmount(ps)
  {
    NormalizeKeepsTotal(ps);
    NormalizeKeepsPending(ps);
  }

  /** The search: the student or the course contains the query, ignoring case. */
  predicate Found(query: string, p: Payment) {
    Matches(p.student, query) || Matches(p.course, query)
  }

  /** `filteredPayments`. */
  function Filtered(ps: seq<Payment>, query: string): (r: seq<Payment>)
    ensures IsSubsequence(r, ps)
    ensures forall i :: 0 <= i < |r| ==> Found(query, r[i])
    ensures forall i :: 0 <= i < |ps| && Found(query, ps[i]) ==> ps[i] in r
    ensures forall x :: multiset(r)[x] == if Found(query, x) then multiset(ps)[x] else 0
    ensures query == [] ==> r == ps
  {
    FilterIsSubsequence(ps, p => Found(query, p));
    EmptyQueryKeepsAll(ps, query);
    Filter(ps, p => Found(query, p))
  }

  lemma EmptyQueryKeepsAll(ps: seq<Payment>, query: string)
    ensures query == [] ==> Filter(ps, p => Found(query, p)) == ps
  {
    if query == [] {
      forall i | 0 <= i < |ps|
        ensures Found(query, ps[i])
      {
        MatchesFacts(ps[i].student, query);
      }
      FilterAll(ps, p => Found(query, p));
    }
  }

  /** The two stat cards: the total (formatted elsewhere) and the count of all
      payments, not of the filtered ones. */
  datatype Stats = Stats(totalPayments: int, transactions: nat)

  function StatsOf(ps: seq<Payment>): (s: Stats)
    ensures s.transactions == |ps|
    ensures s.totalPayments == TotalRevenue(ps)
  {
    Stats(TotalRevenue(ps), |ps|)
  }

  // ---------------------------------------------------------------- the load

  const LOAD_FAILED: string := "Failed to load payments"

  /** What the load got: a failure (the request failed, `ok` was false or the
      body was not JSON), or `success` with `data.data`, `None` when that has no
      `map` (which throws inside the chain). */
  datatype Reply = Failure | Answer(success: bool, data: Option<seq<Payment>>)

  /** The page after the load. */
  datatype View = View(loading: bool, error: Option<string>, payments: seq<Payment>)

  function Load(reply: Reply): (v: View)
    ensures !v.loading
    ensures v.error.None? <==> reply.Answer? && reply.success && reply.data.Some?
    ensures v.error.None? ==> v.payments == Normalize(reply.data.value)
    ensures v.error.Some? ==> v.error.value == LOAD_FAILED && v.payments == []
  {
    if reply.Answer? && reply.success && reply.data.Some? then View(false, None, Normalize(reply.data.value))
    else View(false, Some(LOAD_FAILED), [])
  }

  /** A loaded page shows no "success" status anywhere. */
  lemma LoadedHasNoSuccess(reply: Reply)
    ensures forall p :: p in Load(reply).payments ==> p.status != "success"
  {
  }
}
