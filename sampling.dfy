/** The expression-level part of GenerateIFS: validating and completing the
    probability array, truncating num_points * p into per-corner counts, and the
    in-order concatenation of corner indices that is shuffled afterwards. */
module Sampling {
  import opened Errors

  /** np.sum over the reals. */
  function Sum(p: seq<real>): real {
    if p == [] then 0.0 else Sum(p[..|p| - 1]) + p[|p| - 1]
  }

  lemma SumAppend(p: seq<real>, x: real)
    ensures Sum(p + [x]) == Sum(p) + x
  {
    assert (p + [x])[..|p|] == p;
  }

  /** n copies of c sum to n * c. */
  lemma {:induction false} SumConstant(n: nat, c: real)
    ensures Sum(seq(n, _ => c)) == n as real * c
  {
    if n > 0 {
      assert seq(n, _ => c)[..n - 1] == seq(n - 1, _ => c);
      SumConstant(n - 1, c);
    }
  }

  /** np.full((n,), 1.0 / n): the uniform distribution over n corners. */
  function Uniform(n: nat): seq<real>
    requires n >= 1
  {
    seq(n, _ => 1.0 / n as real)
  }

  /** The uniform distribution sums to 1. */
  lemma UniformSumsToOne(n: nat)
    requires n >= 1
    ensures Sum(Uniform(n)) == 1.0
  {
    SumConstant(n, 1.0 / n as real);
    assert n as real * (1.0 / n as real) == 1.0;
  }

  /** Lines 46-59 of GenerateIFS: the probability array for n corners, in the
      order the source checks it. */
  function Normalise(p: seq<real>, n: int): (r: Result<seq<real>>)
    // an empty array is uniform (and 1.0 / n fails for n = 0, np.full for n < 0)
    ensures |p| == 0 && n >= 1 ==>
      (r.Success? && |r.value| == n && forall i :: 0 <= i < n ==> r.value[i] == 1.0 / n as real)
    ensures |p| == 0 && n == 0 ==> r == Failure(DivisionByZero)
    ensures |p| == 0 && n < 0 ==> r == Failure(NegativeSize)
    // two or more missing entries
    ensures 0 < |p| < n - 1 ==> r == Failure(MissingProbabilities)
    // exactly one missing entry: it is derived, never checked, and always accepted
    ensures 0 < |p| == n - 1 ==> r == Success(p + [1.0 - Sum(p)])
    // more entries than corners
    ensures 0 < |p| && n < |p| ==> r == Failure(ExcessProbabilities)
    // a full array is kept exactly when it sums to 1
    ensures 0 < |p| == n ==> r == (if Sum(p) == 1.0 then Success(p) else Failure(BadSum))
    // whatever is accepted has one entry per corner and sums to 1
    ensures r.Success? ==> n >= 1 && |r.value| == n && Sum(r.value) == 1.0
  {
    if |p| == 0 then
      if n == 0 then Failure(DivisionByZero)
      else if n < 0 then Failure(NegativeSize)
      else
        UniformSumsToOne(n);
        Success(Uniform(n))
    else if |p| < n - 1 then Failure(MissingProbabilities)
    else
      var q := if |p| == n - 1 then p + [1.0 - Sum(p)] else p;
      SumAppend(p, 1.0 - Sum(p));
      if n < |q| then Failure(ExcessProbabilities)
      else if Sum(q) != 1.0 then Failure(BadSum)
      else Success(q)
  }

  /** Python's int() (numpy's astype(int)) on a real: truncation toward zero. */
  function Trunc(x: real): (t: int)
    ensures 0.0 <= x ==> t as real <= x < t as real + 1.0
    ensures x < 0.0 ==> t as real - 1.0 < x <= t as real
  {
    if 0.0 <= x then x.Floor else -((-x).Floor)
  }

  /** Truncation gives a negative number exactly from -1 down. */
  lemma TruncNegative(x: real)
    ensures Trunc(x) < 0 <==> x <= -1.0
  {
  }

  /** One corner's count on line 62: int(num_points * p_k). */
  function CountOf(numPoints: int, pk: real): int {
    Trunc(numPoints as real * pk)
  }

  /** Line 62: (num_points * p).astype(int). */
  function Frequencies(p: seq<real>, numPoints: int): seq<int> {
    seq(|p|, i requires 0 <= i < |p| => CountOf(numPoints, p[i]))
  }

  /** Integer sum of counts. */
  function Total(c: seq<int>): int {
    if c == [] then 0 else Total(c[..|c| - 1]) + c[|c| - 1]
  }

  /** Lines 62-66 on a completed distribution q: one truncated count per corner,
      or the ValueError np.full raises for the first negative count. */
  function Counts(q: seq<real>, numPoints: int): (r: Result<seq<nat>>)
    ensures r.Success? ==> |r.value| == |q|
    ensures r.Success? ==> forall i :: 0 <= i < |q| ==> r.value[i] == Trunc(numPoints as real * q[i])
    ensures r.Failure? <==> exists i :: 0 <= i < |q| && numPoints as real * q[i] <= -1.0
    ensures r.Failure? ==> r.error == NegativeSize
  {
    var f := Frequencies(q, numPoints);
    if forall i :: 0 <= i < |f| ==> f[i] >= 0 then
      Success(f)
    else
      var i :| 0 <= i < |f| && f[i] < 0;
      TruncNegative(numPoints as real * q[i]);
      Failure(NegativeSize)
  }

  /** What GenerateIFS computes before it builds the stream: the completed
      probabilities turned into one count per corner, or the first error. */
  function FrequencyPlan(p: seq<real>, n: int, numPoints: int): (r: Result<seq<nat>>)
    ensures Normalise(p, n).Failure? ==> r == Failure(Normalise(p, n).error)
    ensures Normalise(p, n).Success? ==> r == Counts(Normalise(p, n).value, numPoints)
    ensures r.Success? ==> n >= 1 && |r.value| == n
  {
    match Normalise(p, n)
    case Failure(e) => Failure(e)
    case Success(q) => Counts(q, numPoints)
  }

  /** v repeated k times: np.full((k,), v). */
  function Repeat(v: int, k: nat): seq<int> {
    seq(k, _ => v)
  }

  lemma {:induction false} RepeatCount(v: int, k: nat, x: int)
    ensures multiset(Repeat(v, k))[x] == if x == v then k else 0
  {
    if k > 0 {
      assert Repeat(v, k) == Repeat(v, k - 1) + [v];
      RepeatCount(v, k - 1, x);
    }
  }

  /** Lines 64-69 before the shuffle: counts[0] copies of corner 1, then counts[1]
      copies of corner 2, and so on. */
  function Layout(counts: seq<nat>): seq<int> {
    if counts == [] then []
    else Layout(counts[..|counts| - 1]) + Repeat(|counts|, counts[|counts| - 1])
  }

  /** Corner k occurs exactly counts[k-1] times in the layout, and nothing outside 1..|counts| occurs. */
  lemma {:induction false} LayoutCount(counts: seq<nat>, x: int)
    ensures multiset(Layout(counts))[x] == if 1 <= x <= |counts| then counts[x - 1] else 0
  {
    if counts != [] {
      var m := |counts|;
      LayoutCount(counts[..m - 1], x);
      RepeatCount(m, counts[m - 1], x);
    }
  }

  /** Every index in the layout is a 1-based corner number. */
  lemma LayoutRange(counts: seq<nat>)
    ensures forall x :: x in Layout(counts) ==> 1 <= x <= |counts|
  {
    forall x | x in Layout(counts) ensures 1 <= x <= |counts| {
      LayoutCount(counts, x);
      assert x in multiset(Layout(counts));
    }
  }

  /** The layout is as long as the counts add up to. */
  lemma {:induction false} LayoutLength(counts: seq<nat>)
    ensures |Layout(counts)| == Total(counts)
  {
    if counts != [] {
      LayoutLength(counts[..|counts| - 1]);
    }
  }

  /** Truncated counts of non-negative probabilities never add up to more than numPoints * Sum(q). */
  lemma {:induction false} TruncatedTotal(q: seq<real>, numPoints: nat)
    requires forall i :: 0 <= i < |q| ==> 0.0 <= q[i]
    ensures Total(Frequencies(q, numPoints)) as real <= numPoints as real * Sum(q)
  {
    var f := Frequencies(q, numPoints);
    FrequenciesBelow(q, numPoints);
    BoundedTotal(f, q, numPoints as real);
  }

  lemma FrequenciesBelow(q: seq<real>, numPoints: nat)
    requires forall i :: 0 <= i < |q| ==> 0.0 <= q[i]
    ensures forall i :: 0 <= i < |q| ==> Frequencies(q, numPoints)[i] as real <= numPoints as real * q[i]
  {
    forall i | 0 <= i < |q| ensures Frequencies(q, numPoints)[i] as real <= numPoints as real * q[i] {
      assert Frequencies(q, numPoints)[i] == CountOf(numPoints, q[i]);
      CountBelow(numPoints, q[i]);
    }
  }

  lemma CountBelow(numPoints: nat, pk: real)
    requires 0.0 <= pk
    ensures CountOf(numPoints, pk) as real <= numPoints as real * pk
  {
    NonNegativeProduct(numPoints as real, pk);
  }

  lemma NonNegativeProduct(a: real, b: real)
    requires 0.0 <= a && 0.0 <= b
    ensures 0.0 <= a * b
  {
  }

  lemma {:induction false} BoundedTotal(f: seq<int>, q: seq<real>, N: real)
    requires |f| == |q|
    requires forall i :: 0 <= i < |q| ==> f[i] as real <= N * q[i]
    ensures Total(f) as real <= N * Sum(q)
  {
    if q != [] {
      var m := |q|;
      BoundedTotal(f[..m - 1], q[..m - 1], N);
      assert N * Sum(q) == N * Sum(q[..m - 1]) + N * q[m - 1];
    }
  }

  /** With non-negative completed probabilities the plan succeeds and asks for
      at most numPoints indices in all; the floor may make it fewer. */
  lemma FrequencyBudget(p: seq<real>, n: int, numPoints: nat)
    requires Normalise(p, n).Success?
    requires forall i :: 0 <= i < |Normalise(p, n).value| ==> 0.0 <= Normalise(p, n).value[i]
    ensures FrequencyPlan(p, n, numPoints).Success?
    ensures Total(FrequencyPlan(p, n, numPoints).value) <= numPoints
  {
    var q := Normalise(p, n).value;
    TruncatedTotal(q, numPoints);
  }

  /** A negative count makes Counts fail. */
  lemma NegativeCountFails(p: seq<real>, numPoints: int, i: nat)
    requires i < |p|
    requires Frequencies(p, numPoints)[i] < 0
    ensures Counts(p, numPoints) == Failure(NegativeSize)
  {
    TruncNegative(numPoints as real * p[i]);
  }

  /** Any permutation of the in-order layout holds corner k exactly counts[k-1]
      times, holds nothing but corner numbers 1..|counts|, and is as long as the
      counts add up to. */
  lemma {:induction false} PermutedLayout(out: seq<int>, counts: seq<nat>)
    requires multiset(out) == multiset(Layout(counts))
    ensures forall k :: 1 <= k <= |counts| ==> multiset(out)[k] == counts[k - 1]
    ensures forall x :: x in out ==> 1 <= x <= |counts|
    ensures |out| == Total(counts)
  {
    forall k | 1 <= k <= |counts| ensures multiset(out)[k] == counts[k - 1] {
      LayoutCount(counts, k);
    }
    forall x | x in out ensures 1 <= x <= |counts| {
      assert multiset(out)[x] > 0;
      LayoutCount(counts, x);
    }
    LayoutLength(counts);
    assert |out| == |multiset(out)| == |multiset(Layout(counts))|;
  }

  /** Three corners, uniform, nine points: three of each corner. */
  lemma UniformTriangleCounts()
    ensures FrequencyPlan([], 3, 9) == Success([3, 3, 3])
  {
    var q := Normalise([], 3).value;
    assert q == [1.0 / 3.0, 1.0 / 3.0, 1.0 / 3.0];
    assert CountOf(9, 1.0 / 3.0) == 3;
    assert Frequencies(q, 9) == [3, 3, 3];
  }

  /** Four corners: [0.1, 0.1, 0.1] is completed to the full [0.1, 0.1, 0.1, 0.7]. */
  lemma CompletedMatchesFull()
    ensures Normalise([0.1, 0.1, 0.1], 4) == Success([0.1, 0.1, 0.1, 0.7])
    ensures Normalise([0.1, 0.1, 0.1, 0.7], 4) == Success([0.1, 0.1, 0.1, 0.7])
  {
    assert [0.1, 0.1, 0.1, 0.7][..3] == [0.1, 0.1, 0.1];
    assert [0.1, 0.1, 0.1][..2] == [0.1, 0.1];
    assert [0.1, 0.1][..1] == [0.1];
    assert [0.1][..0] == [];
    assert Sum([0.1, 0.1, 0.1]) == 0.3;
    assert Sum([0.1, 0.1, 0.1, 0.7]) == 1.0;
    assert [0.1, 0.1, 0.1] + [1.0 - Sum([0.1, 0.1, 0.1])] == [0.1, 0.1, 0.1, 0.7];
  }

  /** The derived entry is never checked: with [0.6, 0.6] for three corners it is
      -0.2; four points truncate it to a count of 0, ten points to -2, which np.full rejects. */
  lemma NegativeDerivedEntry()
    ensures Normalise([0.6, 0.6], 3) == Success([0.6, 0.6, -0.2])
    ensures FrequencyPlan([0.6, 0.6], 3, 4) == Success([2, 2, 0])
    ensures FrequencyPlan([0.6, 0.6], 3, 10) == Failure(NegativeSize)
  {
    assert [0.6, 0.6][..1] == [0.6];
    assert [0.6][..0] == [];
    assert Sum([0.6, 0.6]) == 1.2;
    var q := [0.6, 0.6, -0.2];
    assert [0.6, 0.6] + [1.0 - Sum([0.6, 0.6])] == q;
    assert CountOf(4, 0.6) == 2 && CountOf(4, -0.2) == 0;
    assert Frequencies(q, 4) == [2, 2, 0];
    assert CountOf(10, -0.2) == -2;
    NegativeCountFails(q, 10, 2);
  }

  /** A caller-supplied negative entry in a full-length array passes the sum check
      and then gives a negative count. */
  lemma NegativeSuppliedEntry()
    ensures Normalise([1.5, -0.5], 2) == Success([1.5, -0.5])
    ensures FrequencyPlan([1.5, -0.5], 2, 10) == Failure(NegativeSize)
  {
    assert [1.5, -0.5][..1] == [1.5];
    assert [1.5][..0] == [];
    assert Sum([1.5, -0.5]) == 1.0;
    assert CountOf(10, -0.5) == -5;
    NegativeCountFails([1.5, -0.5], 10, 1);
  }
}
