/** The summary of a run (src/core/metrics.cpp): means, percentiles, throughput, utilization
    and Jain's fairness index of the completed tasks. */
module Metrics {
  import opened Tasks

  function Sum(xs: seq<real>): real {
    if xs == [] then 0.0 else Sum(xs[..|xs| - 1]) + xs[|xs| - 1]
  }

  function Product(a: real, b: real): real {
    a * b
  }

  function Square(x: real): real {
    Product(x, x)
  }

  lemma ProductSign(a: real, b: real)
    ensures (a > 0.0 && b > 0.0) || (a < 0.0 && b < 0.0) ==> Product(a, b) > 0.0
    ensures a == 0.0 ==> Product(a, b) == 0.0
  {
  }

  lemma SquareSign(x: real)
    ensures x != 0.0 ==> Square(x) > 0.0
    ensures x == 0.0 ==> Square(x) == 0.0
  {
    ProductSign(x, x);
  }

  function SumOfSquares(xs: seq<real>): real {
    if xs == [] then 0.0 else SumOfSquares(xs[..|xs| - 1]) + Square(xs[|xs| - 1])
  }

  // ------------------------------------------------ Jain's index

  predicate Positive(xs: seq<real>) {
    forall i :: 0 <= i < |xs| ==> xs[i] > 0.0
  }

  /** (sum x)^2 / (n * sum x^2). */
  function Jain(xs: seq<real>): real
    requires xs != [] && Positive(xs)
  {
    SquaresPositive(xs);
    JainRatio(Sum(xs), SumOfSquares(xs), |xs|)
  }

  function JainRatio(sumX: real, sumX2: real, n: nat): real
    requires n as real * sumX2 > 0.0
  {
    sumX * sumX / (n as real * sumX2)
  }

  lemma {:induction false} SquaresPositive(xs: seq<real>)
    requires Positive(xs)
    ensures Sum(xs) >= 0.0 && SumOfSquares(xs) >= 0.0
    ensures xs != [] ==> Sum(xs) > 0.0 && SumOfSquares(xs) > 0.0 && |xs| as real * SumOfSquares(xs) > 0.0
  {
    if xs != [] {
      var n := |xs| - 1;
      SquaresPositive(xs[..n]);
      SquareSign(xs[n]);
      ProductSign(|xs| as real, SumOfSquares(xs));
    }
  }

  /** Sum of squared differences to x. */
  function Deviation(xs: seq<real>, x: real): real {
    if xs == [] then 0.0
    else Deviation(xs[..|xs| - 1], x) + Square(xs[|xs| - 1] - x)
  }

  /** What one more term adds to both sides of the expansion. */
  lemma OneMoreDeviation(n: real, s: real, q: real, x: real, y: real)
    ensures q - 2.0 * x * s + n * x * x + Square(y - x) == q + Square(y) - 2.0 * x * (s + y) + (n + 1.0) * x * x
  {
  }

  lemma {:induction false} DeviationExpands(xs: seq<real>, x: real)
    ensures Deviation(xs, x) == SumOfSquares(xs) - 2.0 * x * Sum(xs) + |xs| as real * x * x
  {
    hide Square;
    if xs != [] {
      var n := |xs| - 1;
      DeviationExpands(xs[..n], x);
      OneMoreDeviation(n as real, Sum(xs[..n]), SumOfSquares(xs[..n]), x, xs[n]);
      assert |xs| as real == n as real + 1.0;
    }
  }

  lemma {:induction false} DeviationSign(xs: seq<real>, x: real)
    ensures Deviation(xs, x) >= 0.0
    ensures Deviation(xs, x) == 0.0 <==> forall i :: 0 <= i < |xs| ==> xs[i] == x
  {
    if xs != [] {
      var n := |xs| - 1;
      DeviationSign(xs[..n], x);
      SquareSign(xs[n] - x);
      assert forall i :: 0 <= i < n ==> xs[..n][i] == xs[i];
    }
  }

  predicate AllEqual(xs: seq<real>) {
    forall i, j :: 0 <= i < j < |xs| ==> xs[i] == xs[j]
  }

  /** Cauchy-Schwarz for the loop's two sums, with equality exactly when all are equal. */
  lemma {:induction false} CauchySchwarz(xs: seq<real>)
    ensures Excess(xs) >= 0.0 && (Excess(xs) == 0.0 <==> AllEqual(xs))
  {
    hide Square, Excess;
    if xs == [] {
      NoExcess(xs);
    } else {
      var n := |xs| - 1;
      var rest, x := xs[..n], xs[n];
      CauchySchwarz(rest);
      ExcessGrows(xs);
      DeviationSign(rest, x);
      EqualToLast(xs);
    }
  }

  /** How much n * sum x^2 exceeds (sum x)^2. */
  function Excess(xs: seq<real>): real {
    |xs| as real * SumOfSquares(xs) - Sum(xs) * Sum(xs)
  }

  lemma NoExcess(xs: seq<real>)
    requires xs == []
    ensures Excess(xs) == 0.0
  {
  }

  /** The excess is the sum of the squared differences of all pairs. */
  lemma ExcessGrows(xs: seq<real>)
    requires xs != []
    ensures Excess(xs) == Excess(xs[..|xs| - 1]) + Deviation(xs[..|xs| - 1], xs[|xs| - 1])
  {
    hide Square;
    var n := |xs| - 1;
    DeviationExpands(xs[..n], xs[n]);
    LastTerm(n as real, Sum(xs[..n]), SumOfSquares(xs[..n]), xs[n]);
    assert |xs| as real == n as real + 1.0;
  }

  lemma LastTerm(n: real, s: real, q: real, x: real)
    ensures (n + 1.0) * (q + Square(x)) - (s + x) * (s + x) == n * q - s * s + (q - 2.0 * x * s + n * x * x)
  {
  }

  lemma EqualToLast(xs: seq<real>)
    requires xs != []
    ensures var n := |xs| - 1;
            AllEqual(xs) <==> forall i :: 0 <= i < n ==> xs[..n][i] == xs[n]
  {
    var n := |xs| - 1;
    if forall i :: 0 <= i < n ==> xs[..n][i] == xs[n] {
      forall i, j | 0 <= i < j < |xs|
        ensures xs[i] == xs[j]
      {
        assert xs[i] == xs[..n][i] && (j < n ==> xs[j] == xs[..n][j]);
      }
    }
  }

  /** Squares of positive numbers add up to at most the square of their sum. */
  lemma {:induction false} SquaresBelowSquare(xs: seq<real>)
    requires Positive(xs)
    ensures SumOfSquares(xs) <= Sum(xs) * Sum(xs)
  {
    if xs != [] {
      var n := |xs| - 1;
      SquaresBelowSquare(xs[..n]);
      SquaresPositive(xs[..n]);
      var s, x := Sum(xs[..n]), xs[n];
      assert s * x >= 0.0;
      assert (s + x) * (s + x) == s * s + 2.0 * (s * x) + x * x;
    }
  }

  /** Jain's index lies between 1/n and 1, and is 1 exactly when all shares are equal. */
  lemma JainBounds(xs: seq<real>)
    requires xs != [] && Positive(xs)
    ensures 1.0 / |xs| as real <= Jain(xs) <= 1.0
    ensures Jain(xs) == 1.0 <==> AllEqual(xs)
  {
    CauchySchwarz(xs);
    SquaresBelowSquare(xs);
    SquaresPositive(xs);
    QuotientBounds(Sum(xs) * Sum(xs), SumOfSquares(xs), |xs| as real);
  }

  lemma QuotientBounds(a: real, q: real, n: real)
    requires n >= 1.0 && q > 0.0 && q <= a <= n * q && n * q > 0.0
    ensures 1.0 / n <= a / (n * q) <= 1.0
    ensures a / (n * q) == 1.0 <==> a == n * q
  {
    var r, u, k := a / (n * q), 1.0 / n, n * q;
    assert r * k == a && u * n == 1.0;
    assert u * k == q;
    CancelFactor(u, r, k);
    CancelFactor(r, 1.0, k);
  }

  lemma CancelFactor(x: real, y: real, k: real)
    requires k > 0.0 && x * k <= y * k
    ensures x <= y
  {
    var d := y * k - x * k;
    assert d == (y - x) * k;
    assert y - x == d / k;
  }

  // ------------------------------------------------ percentiles

  predicate Sorted(xs: seq<real>) {
    forall i, j :: 0 <= i < j < |xs| ==> xs[i] <= xs[j]
  }

  /** x behind all elements of a sorted sequence that are not greater. */
  function Insert(xs: seq<real>, x: real): seq<real> {
    if xs == [] || xs[|xs| - 1] <= x then xs + [x]
    else Insert(xs[..|xs| - 1], x) + [xs[|xs| - 1]]
  }

  /** What std::sort returns for numbers. */
  function Sort(xs: seq<real>): seq<real> {
    if xs == [] then [] else Insert(Sort(xs[..|xs| - 1]), xs[|xs| - 1])
  }

  lemma {:induction false} InsertHolds(xs: seq<real>, x: real)
    ensures multiset(Insert(xs, x)) == multiset(xs) + multiset{x}
    ensures |Insert(xs, x)| == |xs| + 1
  {
    if xs != [] && xs[|xs| - 1] > x {
      var n := |xs| - 1;
      InsertHolds(xs[..n], x);
      assert xs == xs[..n] + [xs[n]];
    }
  }

  lemma AppendSorted(xs: seq<real>, y: real)
    requires Sorted(xs) && (xs == [] || xs[|xs| - 1] <= y)
    ensures Sorted(xs + [y])
  {
  }

  /** The largest element stays last. */
  lemma {:induction false} InsertSorts(xs: seq<real>, x: real)
    requires Sorted(xs)
    ensures Sorted(Insert(xs, x)) && Insert(xs, x) != []
    ensures Insert(xs, x)[|Insert(xs, x)| - 1] == if xs == [] || xs[|xs| - 1] <= x then x else xs[|xs| - 1]
  {
    if xs == [] || xs[|xs| - 1] <= x {
      AppendSorted(xs, x);
    } else {
      var n := |xs| - 1;
      InsertSorts(xs[..n], x);
      assert n > 0 ==> xs[..n][n - 1] == xs[n - 1] && xs[n - 1] <= xs[n];
      AppendSorted(Insert(xs[..n], x), xs[n]);
    }
  }

  lemma NothingSorted(xs: seq<real>)
    requires xs == []
    ensures Sorted(xs)
  {
  }

  lemma {:induction false} SortSorts(xs: seq<real>)
    ensures Sorted(Sort(xs)) && multiset(Sort(xs)) == multiset(xs) && |Sort(xs)| == |xs|
  {
    hide Insert, Sorted;
    if xs == [] {
      NothingSorted(xs);
    } else {
      var n := |xs| - 1;
      SortSorts(xs[..n]);
      InsertSorts(Sort(xs[..n]), xs[n]);
      InsertHolds(Sort(xs[..n]), xs[n]);
      assert xs == xs[..n] + [xs[n]];
    }
  }

  /** The index used for a percentile; the conversion to an integer truncates. */
  function Rank(n: nat, fraction: real): (k: nat)
    requires n > 0 && 0.0 <= fraction < 1.0
    ensures k < n
  {
    RankBound(n as real, fraction);
    Product(n as real, fraction).Floor
  }

  lemma RankBound(n: real, fraction: real)
    requires n >= 1.0 && 0.0 <= fraction < 1.0
    ensures 0.0 <= Product(n, fraction) < n
  {
    ProductSign(n, 1.0 - fraction);
    ProductSplits(n, fraction);
    ProductSign(fraction, n);
  }

  lemma ProductSplits(n: real, fraction: real)
    ensures Product(n, fraction) + Product(n, 1.0 - fraction) == n
    ensures Product(fraction, n) == Product(n, fraction)
  {
  }

  function Percentile(xs: seq<real>, fraction: real): real
    requires xs != [] && 0.0 <= fraction < 1.0
  {
    SortSorts(xs);
    Sort(xs)[Rank(|xs|, fraction)]
  }

  function CountAtMost(xs: seq<real>, p: real): nat {
    if xs == [] then 0 else CountAtMost(xs[..|xs| - 1], p) + if xs[|xs| - 1] <= p then 1 else 0
  }

  lemma {:induction false} CountInsert(xs: seq<real>, x: real, p: real)
    ensures CountAtMost(Insert(xs, x), p) == CountAtMost(xs, p) + if x <= p then 1 else 0
  {
    if xs == [] || xs[|xs| - 1] <= x {
      assert (xs + [x])[..|xs|] == xs;
    } else {
      var n := |xs| - 1;
      CountInsert(xs[..n], x, p);
      var r := Insert(xs[..n], x);
      assert (r + [xs[n]])[..|r|] == r;
    }
  }

  lemma {:induction false} CountSort(xs: seq<real>, p: real)
    ensures CountAtMost(Sort(xs), p) == CountAtMost(xs, p)
  {
    if xs != [] {
      CountSort(xs[..|xs| - 1], p);
      CountInsert(Sort(xs[..|xs| - 1]), xs[|xs| - 1], p);
    }
  }

  lemma {:induction false} CountPrefix(xs: seq<real>, n: nat, p: real)
    requires n <= |xs| && forall i :: 0 <= i < n ==> xs[i] <= p
    ensures CountAtMost(xs, p) >= n
    decreases |xs|
  {
    if xs != [] {
      CountPrefix(xs[..|xs| - 1], if n < |xs| then n else n - 1, p);
    }
  }

  lemma {:induction false} CountLimit(xs: seq<real>, n: nat, p: real)
    requires n <= |xs| && forall i :: n <= i < |xs| ==> xs[i] > p
    ensures CountAtMost(xs, p) <= n
    decreases |xs|
  {
    if xs != [] {
      CountLimit(xs[..|xs| - 1], if n < |xs| then n else n - 1, p);
    }
  }

  lemma RankIs(n: nat, fraction: real, k: nat)
    requires n > 0 && 0.0 <= fraction < 1.0 && k as real <= Product(n as real, fraction) < (k + 1) as real
    ensures Rank(n, fraction) == k
  {
    hide Product;
    var x := Product(n as real, fraction);
    assert x.Floor as real <= x < x.Floor as real + 1.0;
  }

  lemma PercentileCounts(xs: seq<real>, fraction: real, k: nat, below: real)
    requires xs != [] && 0.0 <= fraction < 1.0 && k == Rank(|xs|, fraction)
    ensures Percentile(xs, fraction) in multiset(xs)
    ensures CountAtMost(xs, Percentile(xs, fraction)) >= k + 1
    ensures below < Percentile(xs, fraction) ==> CountAtMost(xs, below) <= k
  {
    hide Sort, Rank, CountAtMost;
    var s := Sort(xs);
    SortSorts(xs);
    CountSort(xs, s[k]);
    CountPrefix(s, k + 1, s[k]);
    CountSort(xs, below);
    if below < s[k] {
      CountLimit(s, k, below);
    }
    assert s[k] in multiset(s);
  }

  /** The percentile of a fraction of n values, k being the fraction of n rounded down, is one of
      the values: more than k are at most as large, and at most k are below it. */
  lemma PercentileMeans(xs: seq<real>, fraction: real, k: nat, below: real)
    requires xs != [] && 0.0 <= fraction < 1.0 && k as real <= |xs| as real * fraction < (k + 1) as real
    ensures Percentile(xs, fraction) in multiset(xs)
    ensures CountAtMost(xs, Percentile(xs, fraction)) >= k + 1
    ensures below < Percentile(xs, fraction) ==> CountAtMost(xs, below) <= k
  {
    hide Percentile, CountAtMost, Rank;
    RankIs(|xs|, fraction, k);
    PercentileCounts(xs, fraction, k, below);
  }

  /** Larger fractions give larger percentiles. */
  lemma PercentilesOrdered(xs: seq<real>, a: real, b: real)
    requires xs != [] && 0.0 <= a <= b < 1.0
    ensures Percentile(xs, a) <= Percentile(xs, b)
  {
    hide Rank;
    SortSorts(xs);
    RankMonotone(|xs|, a, b);
  }

  lemma RankMonotone(n: nat, a: real, b: real)
    requires n > 0 && 0.0 <= a <= b < 1.0
    ensures Rank(n, a) <= Rank(n, b)
  {
    ProductMonotone(n as real, a, b);
  }

  lemma ProductMonotone(n: real, a: real, b: real)
    requires n >= 0.0 && a <= b
    ensures Product(n, a) <= Product(n, b)
  {
  }

  // ------------------------------------------------ the summary

  function Responses(tasks: seq<Task>): seq<real> {
    if tasks == [] then [] else Responses(tasks[..|tasks| - 1]) + [tasks[|tasks| - 1].ResponseTime()]
  }

  function Waits(tasks: seq<Task>): seq<real> {
    if tasks == [] then [] else Waits(tasks[..|tasks| - 1]) + [tasks[|tasks| - 1].wait]
  }

  function Turnarounds(tasks: seq<Task>): seq<real> {
    if tasks == [] then [] else Turnarounds(tasks[..|tasks| - 1]) + [tasks[|tasks| - 1].TurnaroundTime()]
  }

  function Executions(tasks: seq<Task>): seq<real> {
    if tasks == [] then [] else Executions(tasks[..|tasks| - 1]) + [tasks[|tasks| - 1].execution]
  }

  /** The division by turnaround times that calculate does without looking. */
  predicate Measurable(tasks: seq<Task>) {
    forall i :: 0 <= i < |tasks| ==> tasks[i].execution > 0.0 && tasks[i].TurnaroundTime() > 0.0
  }

  /** Execution over turnaround time of each task. */
  function Shares(tasks: seq<Task>): (xs: seq<real>)
    requires Measurable(tasks)
    ensures |xs| == |tasks| && Positive(xs)
    ensures forall i :: 0 <= i < |tasks| ==> xs[i] == tasks[i].execution / tasks[i].TurnaroundTime()
  {
    if tasks == [] then []
    else
      var t := tasks[|tasks| - 1];
      ShareIsPositive(t.execution, t.TurnaroundTime());
      Shares(tasks[..|tasks| - 1]) + [t.execution / t.TurnaroundTime()]
  }

  lemma ShareIsPositive(a: real, b: real)
    requires a > 0.0 && b > 0.0
    ensures a / b > 0.0
  {
  }

  lemma {:induction false} SameLengths(tasks: seq<Task>)
    ensures |Responses(tasks)| == |Waits(tasks)| == |Turnarounds(tasks)| == |Executions(tasks)| == |tasks|
    ensures forall i :: 0 <= i < |tasks| ==> Turnarounds(tasks)[i] == tasks[i].TurnaroundTime()
  {
    if tasks != [] {
      SameLengths(tasks[..|tasks| - 1]);
    }
  }

  /** The lists hold the times of the tasks, in their order. */
  lemma {:induction false} ListsAt(tasks: seq<Task>, i: nat)
    requires i < |tasks|
    ensures |Responses(tasks)| == |Waits(tasks)| == |Turnarounds(tasks)| == |Executions(tasks)| == |tasks|
    ensures Responses(tasks)[i] == tasks[i].ResponseTime() && Waits(tasks)[i] == tasks[i].wait
    ensures Turnarounds(tasks)[i] == tasks[i].TurnaroundTime() && Executions(tasks)[i] == tasks[i].execution
    decreases |tasks|
  {
    var rest := tasks[..|tasks| - 1];
    SameLengths(rest);
    if i < |rest| {
      ListsAt(rest, i);
    }
  }

  function Average(sum: real, n: nat): real
    requires n > 0
  {
    sum / n as real
  }

  function Throughput(n: nat, totalTime: real): real {
    if totalTime > 0.0 then n as real * 1000.0 / totalTime else 0.0
  }

  function Utilization(tasks: seq<Task>, totalTime: real, cores: nat): real {
    if totalTime > 0.0 then UsageRatio(Sum(Executions(tasks)), totalTime, cores) else 0.0
  }

  function UsageRatio(work: real, totalTime: real, cores: nat): real
    requires totalTime > 0.0
  {
    UsageDivisor(totalTime, cores);
    work / (totalTime * AtLeastOne(cores))
  }

  function AtLeastOne(cores: nat): (r: real)
    ensures r >= 1.0
  {
    if cores == 0 then 1.0 else cores as real
  }

  lemma UsageDivisor(totalTime: real, cores: nat)
    requires totalTime > 0.0
    ensures totalTime * AtLeastOne(cores) > 0.0
  {
    ProductSign(totalTime, AtLeastOne(cores));
  }

  /** A quotient times its divisor is its dividend: means times the number are sums, throughput
      times time is a thousand times the number, utilization times the capacity the work, and
      Jain's index times n times the sum of squares the square of the sum. */
  lemma QuotientsMean(sum: real, squares: real, n: nat, totalTime: real, cores: nat)
    requires n > 0
    ensures Average(sum, n) * n as real == sum
    ensures totalTime > 0.0 ==> Throughput(n, totalTime) * totalTime == n as real * 1000.0
    ensures totalTime > 0.0 ==> UsageRatio(sum, totalTime, cores) * (totalTime * AtLeastOne(cores)) == sum
    ensures n as real * squares > 0.0 ==> JainRatio(sum, squares, n) * (n as real * squares) == sum * sum
  {
    Cancels(sum, n as real);
    if totalTime > 0.0 {
      Cancels(n as real * 1000.0, totalTime);
      UsageDivisor(totalTime, cores);
      Cancels(sum, totalTime * AtLeastOne(cores));
    }
    if n as real * squares > 0.0 {
      Cancels(sum * sum, n as real * squares);
    }
  }

  /** Utilization times the capacity is the work done; without time both rates are 0. */
  lemma RatesMean(tasks: seq<Task>, totalTime: real, cores: nat)
    ensures totalTime > 0.0 ==>
              Utilization(tasks, totalTime, cores) * (totalTime * if cores == 0 then 1.0 else cores as real) == Sum(Executions(tasks))
    ensures totalTime <= 0.0 ==> Throughput(|tasks|, totalTime) == Utilization(tasks, totalTime, cores) == 0.0
  {
    hide Sum, UsageRatio, Executions;
    QuotientsMean(Sum(Executions(tasks)), 0.0, 1, totalTime, cores);
  }

  lemma Cancels(a: real, b: real)
    requires b != 0.0
    ensures a / b * b == a
  {
  }

  /** The summary of a list of tasks, through the sums over the list. */
  predicate Summarizes(tasks: seq<Task>, mean: real, xs: seq<real>) {
    |xs| == |tasks| && mean * |tasks| as real == Sum(xs)
  }

  lemma AverageSummarizes(tasks: seq<Task>, xs: seq<real>)
    requires |xs| == |tasks| && tasks != []
    ensures Summarizes(tasks, Average(Sum(xs), |tasks|), xs)
  {
    hide Average, Sum;
    QuotientsMean(Sum(xs), 0.0, |tasks|, 0.0, 0);
  }

  /** The struct, filled in by calculate. */
  class Metrics {
    var numCompleted: nat
    var meanResponseTime: real
    var p95ResponseTime: real
    var p99ResponseTime: real
    var meanTurnaroundTime: real
    var meanWaitTime: real
    var throughput: real
    var utilization: real
    var jainsFairness: real

    constructor ()
      ensures numCompleted == 0
    {
      numCompleted := 0;
      meanResponseTime, p95ResponseTime, p99ResponseTime, meanTurnaroundTime := 0.0, 0.0, 0.0, 0.0;
      meanWaitTime, throughput, utilization, jainsFairness := 0.0, 0.0, 0.0, 0.0;
    }

    method Calculate(completed: seq<Task>, totalTime: real, cores: nat)
      requires Measurable(completed)
      modifies this
      ensures completed == [] ==> unchanged(this)
      ensures completed != [] ==>
                && numCompleted == |completed|
                && |Responses(completed)| == |Waits(completed)| == |Turnarounds(completed)| == |completed|
                && Summarizes(completed, meanResponseTime, Responses(completed))
                && Summarizes(completed, meanWaitTime, Waits(completed))
                && Summarizes(completed, meanTurnaroundTime, Turnarounds(completed))
                && p95ResponseTime == Percentile(Responses(completed), 0.95)
                && p99ResponseTime == Percentile(Responses(completed), 0.99)
                && throughput == Throughput(|completed|, totalTime)
                && utilization == Utilization(completed, totalTime, cores)
                && jainsFairness == Jain(Shares(completed))
      ensures completed != [] ==>
                p95ResponseTime <= p99ResponseTime && 1.0 / numCompleted as real <= jainsFairness <= 1.0
    {
      hide Average, UsageRatio, JainRatio, Sum, SumOfSquares, Summarizes, Rank, Sort, Responses, Waits, Turnarounds, Shares, Executions, AtLeastOne;
      if completed == [] {
        return;
      }
      numCompleted := |completed|;
      var responseTimes, waitTimes, turnaroundTimes, totalExecTime := Collect(completed);
      var total := Accumulate(responseTimes);
      meanResponseTime := Average(total, numCompleted);
      AverageSummarizes(completed, responseTimes);
      total := Accumulate(waitTimes);
      meanWaitTime := Average(total, numCompleted);
      AverageSummarizes(completed, waitTimes);
      total := Accumulate(turnaroundTimes);
      meanTurnaroundTime := Average(total, numCompleted);
      AverageSummarizes(completed, turnaroundTimes);

      SortSorts(responseTimes);
      var sorted := Sort(responseTimes);
      p95ResponseTime := sorted[Rank(numCompleted, 0.95)];
      p99ResponseTime := sorted[Rank(numCompleted, 0.99)];
      PercentilesOrdered(responseTimes, 0.95, 0.99);

      if totalTime > 0.0 {
        throughput := Throughput(numCompleted, totalTime);
        utilization := UsageRatio(totalExecTime, totalTime, cores);
      } else {
        throughput, utilization := 0.0, 0.0;
      }

      var sumX, sumX2 := SumShares(completed, turnaroundTimes);
      JainBounds(Shares(completed));
      SquaresPositive(Shares(completed));
      jainsFairness := JainRatio(sumX, sumX2, numCompleted);
    }
  }

  /** The first loop of calculate. */
  method Collect(tasks: seq<Task>)
    returns (responses: seq<real>, waits: seq<real>, turnarounds: seq<real>, total: real)
    ensures responses == Responses(tasks) && waits == Waits(tasks) && turnarounds == Turnarounds(tasks)
    ensures |responses| == |waits| == |turnarounds| == |tasks|
    ensures total == Sum(Executions(tasks))
  {
    hide Responses, Waits, Turnarounds, Executions, Sum;
    responses, waits, turnarounds, total := [], [], [], 0.0;
    CollectNothing(tasks);
    for k := 0 to |tasks|
      invariant responses == Responses(tasks[..k]) && waits == Waits(tasks[..k]) && turnarounds == Turnarounds(tasks[..k])
      invariant total == Sum(Executions(tasks[..k]))
    {
      CollectOne(tasks, k);
      responses := responses + [tasks[k].ResponseTime()];
      waits := waits + [tasks[k].wait];
      turnarounds := turnarounds + [tasks[k].TurnaroundTime()];
      total := total + tasks[k].execution;
    }
    assert tasks[..|tasks|] == tasks;
    SameLengths(tasks);
  }

  lemma CollectNothing(tasks: seq<Task>)
    ensures Responses(tasks[..0]) == [] && Waits(tasks[..0]) == [] && Turnarounds(tasks[..0]) == []
    ensures Sum(Executions(tasks[..0])) == 0.0
  {
  }

  lemma CollectOne(tasks: seq<Task>, k: nat)
    requires k < |tasks|
    ensures Responses(tasks[..k + 1]) == Responses(tasks[..k]) + [tasks[k].ResponseTime()]
    ensures Waits(tasks[..k + 1]) == Waits(tasks[..k]) + [tasks[k].wait]
    ensures Turnarounds(tasks[..k + 1]) == Turnarounds(tasks[..k]) + [tasks[k].TurnaroundTime()]
    ensures Sum(Executions(tasks[..k + 1])) == Sum(Executions(tasks[..k])) + tasks[k].execution
  {
    assert tasks[..k + 1][..k] == tasks[..k];
    var e := Executions(tasks[..k]);
    assert (e + [tasks[k].execution])[..|e|] == e;
  }

  /** std::accumulate. */
  method Accumulate(xs: seq<real>) returns (sum: real)
    ensures sum == Sum(xs)
  {
    sum := 0.0;
    for k := 0 to |xs|
      invariant sum == Sum(xs[..k])
    {
      assert xs[..k + 1][..k] == xs[..k];
      sum := sum + xs[k];
    }
    assert xs[..|xs|] == xs;
  }

  lemma NoShare(xs: seq<real>)
    ensures Sum(xs[..0]) == SumOfSquares(xs[..0]) == 0.0
  {
  }

  lemma NextShare(xs: seq<real>, k: nat)
    requires k < |xs|
    ensures Sum(xs[..k + 1]) == Sum(xs[..k]) + xs[k]
    ensures SumOfSquares(xs[..k + 1]) == SumOfSquares(xs[..k]) + xs[k] * xs[k]
  {
    assert xs[..k + 1][..k] == xs[..k];
  }

  /** The last loop of calculate. */
  method SumShares(tasks: seq<Task>, turnarounds: seq<real>) returns (sumX: real, sumX2: real)
    requires Measurable(tasks) && turnarounds == Turnarounds(tasks)
    ensures sumX == Sum(Shares(tasks)) && sumX2 == SumOfSquares(Shares(tasks))
  {
    hide Turnarounds, Shares, Sum, SumOfSquares, Positive;
    SameLengths(tasks);
    sumX, sumX2 := 0.0, 0.0;
    NoShare(Shares(tasks));
    for k := 0 to |tasks|
      invariant sumX == Sum(Shares(tasks)[..k]) && sumX2 == SumOfSquares(Shares(tasks)[..k])
    {
      NextShare(Shares(tasks), k);
      var x := tasks[k].execution / turnarounds[k];
      sumX := sumX + x;
      sumX2 := sumX2 + x * x;
    }
    assert Shares(tasks)[..|tasks|] == Shares(tasks);
  }
}
