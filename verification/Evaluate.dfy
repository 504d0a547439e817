/**
 Batch evaluation: totals over the applications and the aggregate ratios.
 */
module Evaluate {
  import opened Wrappers
  import opened Verify

  /** One application: its metrics, or nothing when no generated manifest was found. */
  type Outcome = Option<Metrics>

  datatype Totals = Totals(tp: nat, fn: nat, safety: nat, extra: nat)

  function Sum(outcomes: seq<Outcome>): Totals {
    if outcomes == [] then Totals(0, 0, 0, 0)
    else
      var s, last := Sum(outcomes[..|outcomes| - 1]), outcomes[|outcomes| - 1];
      match last
      case None => s
      case Some(m) => Totals(s.tp + m.tp, s.fn + m.fn, s.safety + m.safety, s.extra + m.extra)
  }

  datatype Report = Report(evaluated: nat, precision: real, recall: real, f1: real, violations: bool)

  function Evaluated(outcomes: seq<Outcome>): nat {
    if outcomes == [] then 0
    else Evaluated(outcomes[..|outcomes| - 1]) + if outcomes[|outcomes| - 1].Some? then 1 else 0
  }

  /** The accumulation loop, the counting loop and the closing arithmetic. */
  method EvaluateAll(outcomes: seq<Outcome>) returns (r: Option<Report>)
    ensures r.None? <==> forall i :: 0 <= i < |outcomes| ==> outcomes[i].None?
    ensures r.Some? ==>
              var s := Sum(outcomes);
              r.value == Report(Evaluated(outcomes), Ratio(s.tp, s.safety + s.extra), Ratio(s.tp, s.fn),
                                HarmonicMean(Ratio(s.tp, s.safety + s.extra), Ratio(s.tp, s.fn)), s.safety > 0)
  {
    var tp: nat, fn: nat, safety: nat, extra: nat := 0, 0, 0, 0;
    for i := 0 to |outcomes|
      invariant Sum(outcomes[..i]) == Totals(tp, fn, safety, extra)
    {
      assert outcomes[..i + 1][..i] == outcomes[..i];
      if outcomes[i].None? {
        continue;
      }
      var m := outcomes[i].value;
      tp, fn, safety, extra := tp + m.tp, fn + m.fn, safety + m.safety, extra + m.extra;
    }
    var evaluated := 0;
    for i := 0 to |outcomes|
      invariant evaluated == Evaluated(outcomes[..i])
      invariant evaluated == 0 <==> forall j :: 0 <= j < i ==> outcomes[j].None?
    {
      assert outcomes[..i + 1][..i] == outcomes[..i];
      if outcomes[i].Some? {
        evaluated := evaluated + 1;
      }
    }
    assert outcomes[..|outcomes|] == outcomes;
    if evaluated == 0 {
      return None;
    }
    var fp := safety + extra;
    var precision, recall := Ratio(tp, fp), Ratio(tp, fn);
    return Some(Report(evaluated, precision, recall, HarmonicMean(precision, recall), safety > 0));
  }

  // ----- what the totals are

  /** The sum of one of the counts over the evaluated applications. */
  function TotalOf(outcomes: seq<Outcome>, count: Metrics -> nat): nat {
    if outcomes == [] then 0
    else (if outcomes[0].Some? then count(outcomes[0].value) else 0) + TotalOf(outcomes[1..], count)
  }

  lemma {:induction false} TotalAppend(outcomes: seq<Outcome>, last: Outcome, count: Metrics -> nat)
    ensures TotalOf(outcomes + [last], count)
         == TotalOf(outcomes, count) + if last.Some? then count(last.value) else 0
  {
    if outcomes == [] {
      assert [last][1..] == [];
    } else {
      assert (outcomes + [last])[1..] == outcomes[1..] + [last];
      TotalAppend(outcomes[1..], last, count);
    }
  }

  /** Each total is the sum of that count, and the number evaluated is the number of ones. */
  lemma {:induction false} TotalsAreSums(outcomes: seq<Outcome>)
    ensures Sum(outcomes).tp == TotalOf(outcomes, (m: Metrics) => m.tp)
    ensures Sum(outcomes).fn == TotalOf(outcomes, (m: Metrics) => m.fn)
    ensures Sum(outcomes).safety == TotalOf(outcomes, (m: Metrics) => m.safety)
    ensures Sum(outcomes).extra == TotalOf(outcomes, (m: Metrics) => m.extra)
    ensures Evaluated(outcomes) == TotalOf(outcomes, (m: Metrics) => 1)
  {
    if outcomes != [] {
      var init, last := outcomes[..|outcomes| - 1], outcomes[|outcomes| - 1];
      TotalsAreSums(init);
      assert outcomes == init + [last];
      TotalAppend(init, last, (m: Metrics) => m.tp);
      TotalAppend(init, last, (m: Metrics) => m.fn);
      TotalAppend(init, last, (m: Metrics) => m.safety);
      TotalAppend(init, last, (m: Metrics) => m.extra);
      TotalAppend(init, last, (m: Metrics) => 1);
    }
  }

  /** Violations are reported exactly if some application has one. */
  lemma {:induction false} ViolationsIff(outcomes: seq<Outcome>)
    ensures Sum(outcomes).safety > 0 <==>
            exists i :: 0 <= i < |outcomes| && outcomes[i].Some? && outcomes[i].value.safety > 0
  {
    if outcomes != [] {
      var n := |outcomes| - 1;
      ViolationsIff(outcomes[..n]);
      if Sum(outcomes[..n]).safety > 0 {
        var i :| 0 <= i < n && outcomes[..n][i].Some? && outcomes[..n][i].value.safety > 0;
        assert outcomes[i].Some?;
      }
      if exists i :: 0 <= i < |outcomes| && outcomes[i].Some? && outcomes[i].value.safety > 0 {
        var i :| 0 <= i < |outcomes| && outcomes[i].Some? && outcomes[i].value.safety > 0;
        assert i < n ==> outcomes[..n][i].Some?;
      }
    }
  }

  // ----- aggregates lie between the applications

  /** The applications' hits and misses for one ratio. */
  type Shares = seq<(nat, nat)>

  function Hits(shares: Shares): nat {
    if shares == [] then 0 else Hits(shares[..|shares| - 1]) + shares[|shares| - 1].0
  }

  function Misses(shares: Shares): nat {
    if shares == [] then 0 else Misses(shares[..|shares| - 1]) + shares[|shares| - 1].1
  }

  /** A share is within bounds unless it is empty. */
  predicate Within(share: (nat, nat), lo: real, hi: real) {
    share.0 + share.1 > 0 ==> lo <= Ratio(share.0, share.1) <= hi
  }

  /** `lo * n <= x <= hi * n` for a sum of `x` out of `n`. */
  predicate Bounded(x: nat, n: nat, lo: real, hi: real) {
    lo * n as real <= x as real <= hi * n as real
  }

  lemma BoundedSum(x: nat, n: nat, y: nat, d: nat, lo: real, hi: real)
    requires Bounded(x, n, lo, hi) && Bounded(y, d, lo, hi)
    ensures Bounded(x + y, n + d, lo, hi)
  {
    var a, b := n as real, d as real;
    assert (n + d) as real == a + b && (x + y) as real == x as real + y as real;
    assert lo * (a + b) == lo * a + lo * b && hi * (a + b) == hi * a + hi * b;
  }

  lemma BoundedRatio(x: nat, n: nat, lo: real, hi: real)
    requires 0 < n && x <= n && Bounded(x, n, lo, hi)
    ensures lo <= Ratio(x, n - x) <= hi
  {
    var a, q := n as real, Ratio(x, n - x);
    RatioTimes(x, n - x);
    assert (q - lo) * a >= 0.0 && (hi - q) * a >= 0.0;
  }

  lemma {:induction false} SumsWithin(shares: Shares, lo: real, hi: real)
    requires forall i :: 0 <= i < |shares| ==> Within(shares[i], lo, hi)
    ensures Bounded(Hits(shares), Hits(shares) + Misses(shares), lo, hi)
  {
    if shares != [] {
      var init, last := shares[..|shares| - 1], shares[|shares| - 1];
      SumsWithin(init, lo, hi);
      ShareWithin(last, lo, hi);
      BoundedSum(Hits(init), Hits(init) + Misses(init), last.0, last.0 + last.1, lo, hi);
    }
  }

  lemma ShareWithin(share: (nat, nat), lo: real, hi: real)
    requires Within(share, lo, hi)
    ensures Bounded(share.0, share.0 + share.1, lo, hi)
  {
    if share.0 + share.1 > 0 {
      var d := (share.0 + share.1) as real;
      RatioTimes(share.0, share.1);
      assert lo * d <= Ratio(share.0, share.1) * d <= hi * d;
    }
  }

  /**
   The aggregate ratio lies within every interval that holds the ratios of all the
   applications with something to count, so between the smallest and the largest.
   */
  lemma AggregateWithin(shares: Shares, lo: real, hi: real)
    requires forall i :: 0 <= i < |shares| ==> Within(shares[i], lo, hi)
    ensures Within((Hits(shares), Misses(shares)), lo, hi)
  {
    SumsWithin(shares, lo, hi);
    if Hits(shares) + Misses(shares) > 0 {
      BoundedRatio(Hits(shares), Hits(shares) + Misses(shares), lo, hi);
    }
  }

  /** The smallest and largest ratio of the applications with something to count. */
  ghost predicate IsExtreme(shares: Shares, lo: nat, hi: nat) {
    && lo < |shares| && shares[lo].0 + shares[lo].1 > 0
    && hi < |shares| && shares[hi].0 + shares[hi].1 > 0
    && forall i :: 0 <= i < |shares| ==>
         Within(shares[i], Ratio(shares[lo].0, shares[lo].1), Ratio(shares[hi].0, shares[hi].1))
  }

  /** The pairs the precision and the recall of each evaluated application are made of. */
  function PrecisionShares(outcomes: seq<Outcome>): Shares {
    if outcomes == [] then []
    else
      var s, last := PrecisionShares(outcomes[..|outcomes| - 1]), outcomes[|outcomes| - 1];
      if last.None? then s else s + [(last.value.tp, last.value.safety + last.value.extra)]
  }

  function RecallShares(outcomes: seq<Outcome>): Shares {
    if outcomes == [] then []
    else
      var s, last := RecallShares(outcomes[..|outcomes| - 1]), outcomes[|outcomes| - 1];
      if last.None? then s else s + [(last.value.tp, last.value.fn)]
  }

  lemma SumsAppend(shares: Shares, share: (nat, nat))
    ensures Hits(shares + [share]) == Hits(shares) + share.0
    ensures Misses(shares + [share]) == Misses(shares) + share.1
  {
    assert (shares + [share])[..|shares|] == shares;
  }

  lemma {:induction false} SumsOfPrecisionShares(outcomes: seq<Outcome>)
    ensures Hits(PrecisionShares(outcomes)) == Sum(outcomes).tp
    ensures Misses(PrecisionShares(outcomes)) == Sum(outcomes).safety + Sum(outcomes).extra
  {
    if outcomes != [] {
      var init, last := outcomes[..|outcomes| - 1], outcomes[|outcomes| - 1];
      SumsOfPrecisionShares(init);
      if last.Some? {
        SumsAppend(PrecisionShares(init), (last.value.tp, last.value.safety + last.value.extra));
      }
    }
  }

  lemma {:induction false} SumsOfRecallShares(outcomes: seq<Outcome>)
    ensures Hits(RecallShares(outcomes)) == Sum(outcomes).tp && Misses(RecallShares(outcomes)) == Sum(outcomes).fn
  {
    if outcomes != [] {
      var init, last := outcomes[..|outcomes| - 1], outcomes[|outcomes| - 1];
      SumsOfRecallShares(init);
      if last.Some? {
        SumsAppend(RecallShares(init), (last.value.tp, last.value.fn));
      }
    }
  }

  lemma AggregateBetween(shares: Shares, lo: nat, hi: nat)
    requires IsExtreme(shares, lo, hi)
    ensures Ratio(shares[lo].0, shares[lo].1) <= Ratio(Hits(shares), Misses(shares))
    ensures Ratio(Hits(shares), Misses(shares)) <= Ratio(shares[hi].0, shares[hi].1)
  {
    AggregateWithin(shares, Ratio(shares[lo].0, shares[lo].1), Ratio(shares[hi].0, shares[hi].1));
    PositiveSum(shares, lo);
  }

  /**
   Aggregate precision and recall lie between the smallest and the largest value of an
   application that has something to count.
   */
  lemma AggregateBetweenApplications(outcomes: seq<Outcome>, lo: nat, hi: nat)
    ensures var p, s := PrecisionShares(outcomes), Sum(outcomes);
            IsExtreme(p, lo, hi) ==>
              Ratio(p[lo].0, p[lo].1) <= Ratio(s.tp, s.safety + s.extra) <= Ratio(p[hi].0, p[hi].1)
    ensures var r, s := RecallShares(outcomes), Sum(outcomes);
            IsExtreme(r, lo, hi) ==>
              Ratio(r[lo].0, r[lo].1) <= Ratio(s.tp, s.fn) <= Ratio(r[hi].0, r[hi].1)
  {
    SumsOfPrecisionShares(outcomes);
    SumsOfRecallShares(outcomes);
    if IsExtreme(PrecisionShares(outcomes), lo, hi) {
      AggregateBetween(PrecisionShares(outcomes), lo, hi);
    }
    if IsExtreme(RecallShares(outcomes), lo, hi) {
      AggregateBetween(RecallShares(outcomes), lo, hi);
    }
  }

  lemma {:induction false} PositiveSum(shares: Shares, i: nat)
    requires i < |shares| && shares[i].0 + shares[i].1 > 0
    ensures Hits(shares) + Misses(shares) > 0
  {
    if i < |shares| - 1 {
      PositiveSum(shares[..|shares| - 1], i);
    }
  }
}
