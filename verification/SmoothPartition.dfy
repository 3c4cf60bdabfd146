/**
  Splitting a total of n steps into k positive parts: non-increasing, with smooth adjacent
  differences, and with as many distinct values as any split can have
  (backend/core/utils/smooth_partition.py).

  The algorithm keeps an array of k - 1 adjacent differences, adds whole "prefix layers" to it
  greedily, and rebuilds the parts from the back.  Greedy and Rebuild below say what the two
  in-place passes compute; the lemmas say what that is good for.
 */
module SmoothPartition {

  datatype Failure =
    | StepNotPositive | KNotPositive | NotAMultiple | SumTooSmall
    | WrongSum | NotDescending

  datatype Result<+T> = Ok(value: T) | Err(error: Failure)

  // ----- Integer arithmetic -----

  /** The integer square root, Python's math.isqrt. */
  function Isqrt(n: nat): (r: nat)
    ensures r * r <= n < (r + 1) * (r + 1)
  {
    if n == 0 then 0
    else
      var r := Isqrt(n - 1);
      if (r + 1) * (r + 1) <= n then r + 1 else r
  }

  function Tri(j: nat): nat {
    if j == 0 then 0 else Tri(j - 1) + j
  }

  lemma {:induction false} TriClosedForm(j: nat)
    ensures j * (j + 1) == 2 * Tri(j)
    ensures j > 0 ==> Tri(j) > 0
  {
    if j > 0 {
      TriClosedForm(j - 1);
      assert j * (j + 1) == (j - 1) * j + 2 * j;
    }
  }

  /** The triangular number as the code computes it. */
  function Triangular(j: nat): (t: nat)
    ensures t == Tri(j)
    ensures j > 0 ==> t > 0
  {
    TriClosedForm(j);
    j * (j + 1) / 2
  }

  /** Largest D with Tri(D - 1) <= m, by the closed form that the code uses. */
  function MaxDistinct(m: nat): nat {
    (1 + Isqrt(1 + 8 * m)) / 2
  }

  function DStar(n: nat, k: nat): nat
    requires k <= n
  {
    if k <= MaxDistinct(n - k) then k else MaxDistinct(n - k)
  }

  lemma EightTri(d: nat)
    requires d > 0
    ensures 8 * Tri(d - 1) + 1 == (2 * d - 1) * (2 * d - 1)
  {
    TriClosedForm(d - 1);
    assert (2 * d - 1) * (2 * d - 1) == 4 * ((d - 1) * d) + 1;
  }

  lemma SquareMonotone(a: nat, b: nat)
    ensures a <= b ==> a * a <= b * b
    ensures a < b ==> a * a < b * b
  {
    if a <= b {
      assert b * b == a * a + (b - a) * (b + a);
    }
  }

  /** The closed form really is the largest D whose triangular number fits the budget. */
  lemma ClosedFormIsLargest(m: nat, d: nat)
    requires d > 0
    ensures Tri(d - 1) <= m <==> d <= MaxDistinct(m)
  {
    var r := Isqrt(1 + 8 * m);
    EightTri(d);
    SquareMonotone(2 * d - 1, r);
    SquareMonotone(r + 1, 2 * d - 1);
    assert Tri(d - 1) <= m <==> (2 * d - 1) * (2 * d - 1) <= 1 + 8 * m;
    assert d <= MaxDistinct(m) <==> 2 * d - 1 <= r;
  }

  // ----- What the passes compute -----

  function Zeros(m: nat): seq<int> {
    seq(m, _ => 0)
  }

  function AddPrefix(d: seq<int>, j: nat, q: int): seq<int> {
    seq(|d|, i requires 0 <= i < |d| => if i < j then d[i] + q else d[i])
  }

  /** Differences after the greedy pass has tried the prefix lengths j, j - 1, ..., 1 with budget b. */
  function Greedy(d: seq<int>, j: nat, b: nat): (r: seq<int>)
    requires j <= |d|
    ensures |r| == |d|
    decreases j
  {
    if j == 0 then d
    else
      Greedy(AddPrefix(d, j, b / Triangular(j)), j - 1, b % Triangular(j))
  }

  function GreedyRest(j: nat, b: nat): nat {
    if j == 0 then b
    else
      GreedyRest(j - 1, b % Triangular(j))
  }

  /** Parts from differences: the last part is 1, each earlier one adds its difference. */
  function Rebuild(d: seq<int>): (x: seq<int>)
    ensures |x| == |d| + 1
  {
    if d == [] then [1]
    else
      var rest := Rebuild(d[1..]);
      [rest[0] + d[0]] + rest
  }

  function Budget(n: nat, k: nat): int
    requires 0 < k <= n
  {
    var dStar := DStar(n, k);
    n - (Triangular(dStar) + (k - dStar))
  }

  lemma DStarFits(n: nat, k: nat)
    requires 0 < k <= n
    ensures 1 <= DStar(n, k) <= k
    ensures Tri(DStar(n, k) - 1) <= n - k
    ensures Budget(n, k) == n - k - Tri(DStar(n, k) - 1)
  {
    ClosedFormIsLargest(n - k, 1);
    ClosedFormIsLargest(n - k, DStar(n, k));
  }

  /** The differences, and the parts, that the code arrives at. */
  function Differences(n: nat, k: nat): (d: seq<int>)
    requires 0 < k <= n
    ensures |d| == k - 1
  {
    DStarFits(n, k);
    Greedy(AddPrefix(Zeros(k - 1), DStar(n, k) - 1, 1), DStar(n, k) - 1, Budget(n, k))
  }

  function Parts(n: nat, k: nat): (x: seq<int>)
    requires 0 < k <= n
    ensures |x| == k
  {
    Rebuild(Differences(n, k))
  }

  // ----- The code -----

  method AddToPrefix(deltas: array<int>, j: nat, q: int)
    requires j <= deltas.Length
    modifies deltas
    ensures deltas[..] == AddPrefix(old(deltas[..]), j, q)
  {
    for i := 0 to j
      invariant forall m :: 0 <= m < i ==> deltas[m] == old(deltas[m]) + q
      invariant forall m :: i <= m < deltas.Length ==> deltas[m] == old(deltas[m])
    {
      deltas[i] := deltas[i] + q;
    }
  }

  /** The clean-up loop after the greedy pass.  It does nothing when no budget is left. */
  method SpendRemainder(deltas: array<int>, maxJ: nat, budget: int) returns (rest: int)
    requires maxJ <= deltas.Length
    modifies deltas
    ensures budget <= 0 || maxJ == 0 ==> rest == budget && deltas[..] == old(deltas[..])
    ensures Weight(deltas[..]) + rest == old(Weight(deltas[..])) + budget
  {
    rest := budget;
    while rest > 0 && maxJ > 0
      invariant (rest == budget && deltas[..] == old(deltas[..])) || (budget > 0 && maxJ > 0)
      invariant Weight(deltas[..]) + rest == old(Weight(deltas[..])) + budget
      decreases rest
    {
      var j := (1 + Isqrt(1 + 8 * rest)) / 2;
      if maxJ < j {
        j := maxJ;
      }
      if j <= 0 {
        j := 1;
      }
      WeightOfLayer(deltas[..], j, 1);
      AddToPrefix(deltas, j, 1);
      rest := rest - Triangular(j);
    }
  }

  predicate Descending(x: seq<int>) {
    forall i :: 0 <= i < |x| - 1 ==> x[i] >= x[i + 1]
  }

  /** The two internal-error checks before the result is returned. */
  function Checked(x: seq<int>, n: int): Result<seq<int>> {
    if Sum(x) != n then Err(WrongSum)
    else if !Descending(x) then Err(NotDescending)
    else Ok(x)
  }

  /** The greedy pass: try every prefix length from maxJ down to 1. */
  method GreedyPass(deltas: array<int>, maxJ: nat, budget: nat) returns (rest: nat)
    requires maxJ <= deltas.Length
    modifies deltas
    ensures deltas[..] == Greedy(old(deltas[..]), maxJ, budget)
    ensures rest == GreedyRest(maxJ, budget)
  {
    var j := maxJ;
    rest := budget;
    while j > 0
      invariant 0 <= j <= maxJ
      invariant Greedy(deltas[..], j, rest) == Greedy(old(deltas[..]), maxJ, budget)
      invariant GreedyRest(j, rest) == GreedyRest(maxJ, budget)
    {
      var t := Triangular(j);
      if rest >= t && t > 0 {
        var q := rest / t;
        rest := rest % t;
        if q != 0 {
          AddToPrefix(deltas, j, q);
        }
      } else {
        SmallBudget(rest, t);
        assert AddPrefix(deltas[..], j, 0) == deltas[..];
      }
      j := j - 1;
    }
  }

  lemma SmallBudget(b: nat, t: nat)
    requires b < t
    ensures b / t == 0 && b % t == b
  {
  }

  /** The last pass: accumulate the differences from the back. */
  method RebuildPass(deltas: array<int>) returns (x: array<int>)
    ensures fresh(x) && x[..] == Rebuild(deltas[..])
  {
    var k := deltas.Length + 1;
    x := new int[k];
    x[k - 1] := 1;
    var i := k - 2;
    assert x[i + 1..] == [1];
    while i >= 0
      invariant -1 <= i <= k - 2
      invariant x[i + 1..] == Rebuild(deltas[i + 1..])
    {
      ghost var done := x[i + 1..];
      x[i] := x[i + 1] + deltas[i];
      assert deltas[i..][1..] == deltas[i + 1..];
      assert x[i..] == [x[i]] + done;
      i := i - 1;
    }
    assert x[0..] == x[..] && deltas[0..] == deltas[..];
  }

  /** The integer core.  It succeeds exactly when there are two parts to vary, or nothing to spread. */
  method PartitionSteps(n: nat, k: nat) returns (r: Result<seq<int>>)
    requires 0 < k <= n
    ensures r == if k >= 2 || n == k then Ok(Parts(n, k)) else Err(WrongSum)
  {
    DStarFits(n, k);
    var dStar := DStar(n, k);
    var deltas := new int[k - 1](_ => 0);
    assert deltas[..] == Zeros(k - 1);
    AddToPrefix(deltas, dStar - 1, 1);
    var baseSum := Triangular(dStar) + (k - dStar);
    var b := GreedyPass(deltas, dStar - 1, n - baseSum);
    GreedySpendsAll(dStar - 1, n - baseSum);
    b := SpendRemainder(deltas, dStar - 1, b);
    var x := RebuildPass(deltas);
    PartsSum(n, k);
    PartsAreDescending(n, k);
    r := Checked(x[..], n);
  }

  /** A whole number of steps, in the caller's unit. */
  function Units(n: int, step: real): real {
    n as real * step
  }

  function InUnits(x: seq<int>, step: real): seq<real> {
    seq(|x|, i requires 0 <= i < |x| => Units(x[i], step))
  }

  /** The whole function, from a total and a step in the caller's unit to parts in that unit. */
  method Partition(total: real, k: int, step: real) returns (r: Result<seq<real>>)
    ensures step <= 0.0 ==> r == Err(StepNotPositive)
    ensures step > 0.0 && k <= 0 ==> r == Err(KNotPositive)
    ensures step > 0.0 && k > 0 && (forall n: int :: total != Units(n, step)) ==> r == Err(NotAMultiple)
    ensures forall n: int :: step > 0.0 && k > 0 && total == Units(n, step) ==>
      r == if n < k then Err(SumTooSmall)
           else if k >= 2 || n == k then Ok(InUnits(Parts(n, k), step))
           else Err(WrongSum)
  {
    if step <= 0.0 {
      return Err(StepNotPositive);
    }
    if k <= 0 {
      return Err(KNotPositive);
    }
    StepsOf(total, step);
    var n := (total / step).Floor;
    if total / step != n as real {
      return Err(NotAMultiple);
    }
    assert total == Units(n, step);
    if n < k {
      return Err(SumTooSmall);
    }
    var parts := PartitionSteps(n, k);
    match parts
    case Ok(x) =>
      r := Ok(InUnits(x, step));
    case Err(e) =>
      r := Err(e);
  }

  lemma StepsOf(total: real, step: real)
    requires step > 0.0
    ensures forall n: int :: total == Units(n, step) <==> total / step == n as real
  {
    forall n: int
      ensures total == Units(n, step) <==> total / step == n as real
    {
      assert (total / step) * step == total;
      if total == Units(n, step) {
        assert (total / step - n as real) * step == 0.0;
      }
    }
  }

  function RealSum(x: seq<real>): real {
    if x == [] then 0.0 else x[0] + RealSum(x[1..])
  }

  lemma {:induction false} UnitsSum(x: seq<int>, step: real)
    ensures RealSum(InUnits(x, step)) == Units(Sum(x), step)
  {
    if x != [] {
      UnitsSum(x[1..], step);
      assert InUnits(x, step)[1..] == InUnits(x[1..], step);
      assert Units(Sum(x), step) == Units(x[0], step) + Units(Sum(x[1..]), step);
    }
  }

  // ----- Conservation: the parts sum to n -----

  function Sum(x: seq<int>): int {
    if x == [] then 0 else x[0] + Sum(x[1..])
  }

  /** What a sequence of differences adds to the all-ones partition. */
  function Weight(d: seq<int>): int {
    if d == [] then 0 else Sum(d) + Weight(d[1..])
  }

  lemma {:induction false} RebuildSum(d: seq<int>)
    ensures Sum(Rebuild(d)) == |d| + 1 + Weight(d)
    ensures Rebuild(d)[0] == 1 + Sum(d)
  {
    if d != [] {
      RebuildSum(d[1..]);
      assert Rebuild(d)[1..] == Rebuild(d[1..]);
    }
  }

  lemma {:induction false} WeightOfLayer(d: seq<int>, j: nat, q: int)
    requires j <= |d|
    ensures Sum(AddPrefix(d, j, q)) == Sum(d) + q * j
    ensures Weight(AddPrefix(d, j, q)) == Weight(d) + q * Tri(j)
  {
    if j == 0 {
      assert AddPrefix(d, j, q) == d;
    } else {
      WeightOfLayer(d[1..], j - 1, q);
      assert AddPrefix(d, j, q)[1..] == AddPrefix(d[1..], j - 1, q);
      assert q * Tri(j) == q * Tri(j - 1) + q * j;
    }
  }

  lemma {:induction false} WeightOfZeros(m: nat)
    ensures Sum(Zeros(m)) == 0 && Weight(Zeros(m)) == 0
  {
    if m > 0 {
      WeightOfZeros(m - 1);
      assert Zeros(m)[1..] == Zeros(m - 1);
    }
  }

  /** The share of the budget one layer takes, and what is left of it. */
  lemma Shares(j: nat, b: nat) returns (q: nat, rest: nat)
    requires j > 0
    ensures q == b / Triangular(j) && rest == b % Triangular(j)
    ensures b == q * Tri(j) + rest
  {
    q, rest := b / Triangular(j), b % Triangular(j);
  }

  lemma {:induction false} GreedyConserves(d: seq<int>, j: nat, b: nat)
    requires j <= |d|
    ensures Weight(Greedy(d, j, b)) + GreedyRest(j, b) == Weight(d) + b
    decreases j
  {
    if j > 0 {
      var q, rest := Shares(j, b);
      WeightOfLayer(d, j, q);
      GreedyConserves(AddPrefix(d, j, q), j - 1, rest);
    }
  }

  /** One layer of length 1 absorbs any remainder, so nothing is left after the greedy pass. */
  lemma {:induction false} GreedySpendsAll(j: nat, b: nat)
    ensures GreedyRest(j, b) == if j == 0 then b else 0
  {
    if j > 0 {
      GreedySpendsAll(j - 1, b % Triangular(j));
    }
  }

  /** The differences weigh what the budget adds to the first layer, short of what is left over. */
  lemma DifferencesWeigh(n: nat, k: nat)
    requires 0 < k <= n
    ensures DStar(n, k) >= 1 && Weight(Differences(n, k)) == if DStar(n, k) == 1 then 0 else n - k
  {
    hide Greedy, Weight, DStar, Isqrt;
    DStarFits(n, k);
    var m := DStar(n, k) - 1;
    WeightOfZeros(k - 1);
    WeightOfLayer(Zeros(k - 1), m, 1);
    GreedyConserves(AddPrefix(Zeros(k - 1), m, 1), m, Budget(n, k));
    GreedySpendsAll(m, Budget(n, k));
  }

  /** With room for it, there is a second value. */
  lemma TwoValuesFit(n: nat, k: nat)
    requires 2 <= k < n
    ensures DStar(n, k) >= 2
  {
    hide Isqrt;
    ClosedFormIsLargest(n - k, 2);
  }

  /** The parts sum to n, except for one part and more than one step. */
  lemma PartsSum(n: nat, k: nat)
    requires 0 < k <= n
    ensures Sum(Parts(n, k)) == if k >= 2 || n == k then n else 1
  {
    hide Differences, DStar, Weight, Rebuild, Sum;
    DStarFits(n, k);
    DifferencesWeigh(n, k);
    RebuildSum(Differences(n, k));
    if 2 <= k < n {
      TwoValuesFit(n, k);
    }
  }

  // ----- Shape: smooth differences, descending parts -----

  predicate SmoothFrom(d: seq<int>, m: nat) {
    && (forall i, j :: 0 <= i < j < |d| ==> d[i] >= d[j])
    && (forall i :: 0 <= i < |d| ==> if i < m then d[i] >= 1 else d[i] == 0)
  }

  lemma LayerKeepsShape(d: seq<int>, m: nat, j: nat, q: nat)
    requires j <= m <= |d| && SmoothFrom(d, m)
    ensures SmoothFrom(AddPrefix(d, j, q), m)
  {
  }

  lemma {:induction false} GreedyKeepsShape(d: seq<int>, m: nat, j: nat, b: nat)
    requires j <= m <= |d| && SmoothFrom(d, m)
    ensures SmoothFrom(Greedy(d, j, b), m)
    decreases j
  {
    if j > 0 {
      var q, rest := Shares(j, b);
      LayerKeepsShape(d, m, j, q);
      GreedyKeepsShape(AddPrefix(d, j, q), m, j - 1, rest);
    }
  }

  lemma DifferencesAreSmooth(n: nat, k: nat)
    requires 0 < k <= n
    ensures SmoothFrom(Differences(n, k), DStar(n, k) - 1)
  {
    DStarFits(n, k);
    var m := DStar(n, k) - 1;
    GreedyKeepsShape(AddPrefix(Zeros(k - 1), m, 1), m, m, Budget(n, k));
  }

  lemma {:induction false} RebuildSteps(d: seq<int>, i: nat)
    requires i < |d|
    ensures Rebuild(d)[i] == Rebuild(d)[i + 1] + d[i]
    ensures Rebuild(d)[|d|] == 1
  {
    if i > 0 {
      RebuildSteps(d[1..], i - 1);
    } else if |d| > 1 {
      RebuildSteps(d[1..], 0);
    }
  }

  lemma LastPartIsOne(n: nat, k: nat)
    requires 0 < k <= n
    ensures Parts(n, k)[k - 1] == 1
  {
    if k > 1 {
      RebuildSteps(Differences(n, k), 0);
    }
  }

  /**
    The documented shape: parts never grow, they are strictly decreasing on the first D* of them and
    constant after that, and adjacent differences never grow.
   */
  lemma PartsShape(n: nat, k: nat, i: nat)
    requires 0 < k <= n && i + 1 < k
    ensures Parts(n, k)[i] >= Parts(n, k)[i + 1]
    ensures Parts(n, k)[i] > Parts(n, k)[i + 1] <==> i < DStar(n, k) - 1
    ensures i + 2 < k ==>
      Parts(n, k)[i] - Parts(n, k)[i + 1] >= Parts(n, k)[i + 1] - Parts(n, k)[i + 2]
  {
    DifferencesAreSmooth(n, k);
    RebuildSteps(Differences(n, k), i);
    if i + 2 < k {
      RebuildSteps(Differences(n, k), i + 1);
      assert Differences(n, k)[i] >= Differences(n, k)[i + 1];
    }
  }

  lemma PartsAreDescending(n: nat, k: nat)
    requires 0 < k <= n
    ensures Descending(Parts(n, k))
  {
    forall i | 0 <= i < k - 1 ensures Parts(n, k)[i] >= Parts(n, k)[i + 1] {
      PartsShape(n, k, i);
    }
  }

  lemma {:induction false} PartsAreOrdered(n: nat, k: nat, i: nat, j: nat)
    requires 0 < k <= n && i < j < k
    ensures Parts(n, k)[i] >= Parts(n, k)[j]
    ensures i < DStar(n, k) - 1 ==> Parts(n, k)[i] > Parts(n, k)[j]
    ensures i >= DStar(n, k) - 1 ==> Parts(n, k)[i] == Parts(n, k)[j]
    decreases j
  {
    PartsShape(n, k, j - 1);
    if i < j - 1 {
      PartsAreOrdered(n, k, i, j - 1);
    }
  }

  // ----- The split is the greedy one -----

  function Diffs(x: seq<int>): (d: seq<int>)
    requires x != []
    ensures |d| == |x| - 1
  {
    seq(|x| - 1, i requires 0 <= i < |x| - 1 => x[i] - x[i + 1])
  }

  /** By how much difference j exceeds the next one, counting from 1: the layers of length j. */
  function Drop(d: seq<int>, j: nat): int
    requires 1 <= j <= |d|
  {
    d[j - 1] - if j < |d| then d[j] else 0
  }

  /** What the layers of length up to j add to the sum of the parts. */
  function DropCost(d: seq<int>, j: nat): int
    requires j <= |d|
  {
    if j == 0 then 0 else DropCost(d, j - 1) + Drop(d, j) * Tri(j)
  }

  /**
    The layers are those of a greedy choice: none is longer than top, one of length top is always there,
    and all that are shorter than j together cost less than one of length j.
   */
  predicate GreedyLayers(d: seq<int>, top: nat) {
    forall j :: 1 <= j <= |d| ==>
      && (if j < top then Drop(d, j) >= 0 else if j == top then Drop(d, j) >= 1 else Drop(d, j) == 0)
      && (j <= top ==> DropCost(d, j - 1) < Tri(j))
  }

  lemma DropOfLayer(d: seq<int>, j: nat, q: int, h: nat)
    requires j <= |d| && 1 <= h <= |d|
    ensures Drop(AddPrefix(d, j, q), h) == Drop(d, h) + if h == j then q else 0
  {
  }

  lemma {:induction false} GreedyDrops(d: seq<int>, j: nat, b: nat)
    requires 1 <= j <= |d| && forall h :: 1 <= h < j ==> Drop(d, h) == 0
    ensures var g := Greedy(d, j, b);
      && (forall h :: j < h <= |d| ==> Drop(g, h) == Drop(d, h))
      && Drop(g, j) == Drop(d, j) + b / Triangular(j)
      && (forall h :: 1 <= h < j ==> Drop(g, h) >= 0 && DropCost(g, h - 1) < Tri(h))
      && DropCost(g, j - 1) == b % Triangular(j) < Tri(j)
    decreases j
  {
    hide Greedy, Drop, DropCost, AddPrefix, Triangular, Tri;
    var q, rest := Shares(j, b);
    var d1 := AddPrefix(d, j, q);
    assert |d1| == |d| by {
      LayerKeepsLength(d, j, q);
    }
    GreedyStep(d, j, b);
    forall h | 1 <= h <= |d|
      ensures Drop(d1, h) == Drop(d, h) + if h == j then q else 0
    {
      DropOfLayer(d, j, q, h);
    }
    if j > 1 {
      GreedyDrops(d1, j - 1, rest);
      CostStep(Greedy(d1, j - 1, rest), j - 1);
      var q', rest' := Shares(j - 1, rest);
    } else {
      OneLayer(d1, rest);
    }
  }

  lemma LayerKeepsLength(d: seq<int>, j: nat, q: int)
    ensures |AddPrefix(d, j, q)| == |d|
  {
  }

  lemma GreedyStep(d: seq<int>, j: nat, b: nat)
    requires 1 <= j <= |d|
    ensures Greedy(d, j, b) == Greedy(AddPrefix(d, j, b / Triangular(j)), j - 1, b % Triangular(j))
    ensures b % Triangular(j) < Tri(j)
  {
  }

  lemma CostStep(d: seq<int>, j: nat)
    requires 1 <= j <= |d|
    ensures DropCost(d, j) == DropCost(d, j - 1) + Drop(d, j) * Tri(j)
  {
  }

  lemma OneLayer(d: seq<int>, b: nat)
    ensures Greedy(d, 0, b) == d && DropCost(d, 0) == 0 && Triangular(1) == Tri(1) == 1
  {
  }

  lemma PartsHaveGreedyLayers(n: nat, k: nat)
    requires 0 < k <= n
    ensures Diffs(Parts(n, k)) == Differences(n, k) && GreedyLayers(Differences(n, k), DStar(n, k) - 1)
  {
    hide Greedy, DStar, Isqrt, DropCost, Drop, AddPrefix, Rebuild, Triangular, Tri;
    DStarFits(n, k);
    var d, m := Differences(n, k), DStar(n, k) - 1;
    forall i | 0 <= i < k - 1
      ensures Diffs(Parts(n, k))[i] == d[i]
    {
      RebuildSteps(d, i);
    }
    var base := AddPrefix(Zeros(k - 1), m, 1);
    forall h | 1 <= h <= k - 1
      ensures Drop(base, h) == if h == m then 1 else 0
    {
      DropOfZeros(k - 1, h);
      DropOfLayer(Zeros(k - 1), m, 1, h);
    }
    if m > 0 {
      GreedyDrops(base, m, Budget(n, k));
    } else {
      NoLayers(base, Budget(n, k));
    }
  }

  lemma NoLayers(d: seq<int>, b: nat)
    ensures Greedy(d, 0, b) == d
  {
  }

  lemma DropOfZeros(m: nat, h: nat)
    requires 1 <= h <= m
    ensures Drop(Zeros(m), h) == 0
  {
  }

  /** Layers of any kind add their costs to the weight. */
  lemma {:induction false} CostIsWeight(d: seq<int>, j: nat)
    requires j <= |d| && forall i :: j <= i < |d| ==> d[i] == 0
    ensures DropCost(d, j) == Weight(d)
    decreases j
  {
    if j == 0 {
      assert d == Zeros(|d|);
      WeightOfZeros(|d|);
    } else {
      hide Weight, Sum, DropCost, Tri, AddPrefix, Drop;
      var d1 := AddPrefix(d, j, -d[j - 1]);
      PeelLayers(d, j);
      WeightOfLayer(d, j, -d[j - 1]);
      CostIsWeight(d1, j - 1);
      SameDropsSameCost(d, d1, j - 1);
      CostStep(d, j);
    }
  }

  lemma PeelLayers(d: seq<int>, j: nat)
    requires 1 <= j <= |d| && forall i :: j <= i < |d| ==> d[i] == 0
    ensures var d1 := AddPrefix(d, j, -d[j - 1]);
      && |d1| == |d| && (forall i :: j - 1 <= i < |d| ==> d1[i] == 0)
      && Drop(d, j) == d[j - 1] && (forall h :: 1 <= h < j ==> Drop(d, h) == Drop(d1, h))
  {
  }

  lemma {:induction false} SameDropsSameCost(d: seq<int>, e: seq<int>, j: nat)
    requires j <= |d| == |e| && forall h :: 1 <= h <= j ==> Drop(d, h) == Drop(e, h)
    ensures DropCost(d, j) == DropCost(e, j)
  {
    if j > 0 {
      SameDropsSameCost(d, e, j - 1);
    }
  }

  lemma {:induction false} CostIsNonNegative(d: seq<int>, j: nat)
    requires j <= |d| && forall h :: 1 <= h <= j ==> Drop(d, h) >= 0
    ensures DropCost(d, j) >= 0
  {
    if j > 0 {
      CostIsNonNegative(d, j - 1);
    }
  }

  lemma LayersAt(d: seq<int>, top: nat, j: nat)
    requires 1 <= j <= top && j <= |d| && GreedyLayers(d, top)
    ensures Drop(d, j) >= 0 && 0 <= DropCost(d, j - 1) < Tri(j)
    ensures DropCost(d, j) == DropCost(d, j - 1) + Drop(d, j) * Tri(j)
  {
    hide Drop, Tri;
    CostIsNonNegative(d, j - 1);
  }

  /** A cost can be paid greedily in one way only. */
  lemma {:induction false} SameCostSameDrops(d: seq<int>, e: seq<int>, top: nat, j: nat)
    requires j <= top && j <= |d| == |e| && GreedyLayers(d, top) && GreedyLayers(e, top)
    requires DropCost(d, j) == DropCost(e, j)
    ensures forall h :: 1 <= h <= j ==> Drop(d, h) == Drop(e, h)
  {
    hide *;
    if j > 0 {
      SameTopLayers(d, e, top, j);
      SameCostSameDrops(d, e, top, j - 1);
    }
  }

  lemma SameTopLayers(d: seq<int>, e: seq<int>, top: nat, j: nat)
    requires 1 <= j <= top && j <= |d| == |e| && GreedyLayers(d, top) && GreedyLayers(e, top)
    requires DropCost(d, j) == DropCost(e, j)
    ensures Drop(d, j) == Drop(e, j) && DropCost(d, j - 1) == DropCost(e, j - 1)
  {
    hide *;
    LayersAt(d, top, j);
    LayersAt(e, top, j);
    QuotientIsUnique(Drop(d, j), DropCost(d, j - 1), Drop(e, j), DropCost(e, j - 1), Tri(j));
  }

  lemma QuotientIsUnique(q: int, r: int, q': int, r': int, t: int)
    requires 0 <= r < t && 0 <= r' < t && r + q * t == r' + q' * t
    ensures q == q' && r == r'
  {
    assert (q - q') * t == r' - r && (q' - q) * t == r - r';
    AtLeastOnce(q - q', t);
    AtLeastOnce(q' - q, t);
  }

  lemma AtLeastOnce(m: int, t: int)
    requires t > 0
    ensures m >= 1 ==> m * t >= t
  {
    if m >= 1 {
      assert m * t == (m - 1) * t + t;
    }
  }

  lemma {:induction false} SameDropsSameDifferences(d: seq<int>, e: seq<int>, i: nat)
    requires |d| == |e| && i < |d| && forall h :: 1 <= h <= |d| ==> Drop(d, h) == Drop(e, h)
    ensures d[i] == e[i]
    decreases |d| - i
  {
    assert Drop(d, i + 1) == Drop(e, i + 1);
    if i + 1 < |d| {
      SameDropsSameDifferences(d, e, i + 1);
    }
  }

  lemma {:induction false} RebuildOfDiffs(x: seq<int>)
    requires x != [] && x[|x| - 1] == 1
    ensures Rebuild(Diffs(x)) == x
  {
    if |x| > 1 {
      RebuildOfDiffs(x[1..]);
      assert Diffs(x)[1..] == Diffs(x[1..]);
    }
  }

  /** Without layers longer than top, what the layers cost is what the parts sum to beyond one each. */
  lemma SumIsCost(x: seq<int>, top: nat)
    requires x != [] && x[|x| - 1] == 1 && top < |x| && GreedyLayers(Diffs(x), top)
    ensures Sum(x) == |x| + DropCost(Diffs(x), top)
  {
    var d := Diffs(x);
    RebuildOfDiffs(x);
    RebuildSum(d);
    var none := Zeros(|d|);
    forall i | top <= i < |d|
      ensures d[i] == 0
    {
      NothingFrom(d, top, i);
    }
    CostIsWeight(d, top);
  }

  lemma {:induction false} NothingFrom(d: seq<int>, top: nat, i: nat)
    requires GreedyLayers(d, top) && top <= i < |d|
    ensures d[i] == 0
    decreases |d| - i
  {
    assert Drop(d, i + 1) == 0;
    if i + 1 < |d| {
      NothingFrom(d, top, i + 1);
    }
  }

  /**
    Which split it is: the one with sum n and last part 1 whose layers are chosen greedily. No other
    sequence has these properties.
   */
  lemma PartsAreGreedy(n: nat, k: nat, x: seq<int>)
    requires 0 < k <= n && (k >= 2 || n == k) && |x| == k
    ensures x == Parts(n, k) <==> x[k - 1] == 1 && Sum(x) == n && GreedyLayers(Diffs(x), DStar(n, k) - 1)
  {
    hide Parts, Differences, DStar, Isqrt, GreedyLayers, Rebuild, Sum, Diffs, Drop, DropCost;
    DStarFits(n, k);
    PartsHaveGreedyLayers(n, k);
    LastPartIsOne(n, k);
    PartsSum(n, k);
    if x[k - 1] == 1 && Sum(x) == n && GreedyLayers(Diffs(x), DStar(n, k) - 1) {
      SumIsCost(x, DStar(n, k) - 1);
      SumIsCost(Parts(n, k), DStar(n, k) - 1);
      SameCostSameDiffs(Diffs(x), Diffs(Parts(n, k)), DStar(n, k) - 1);
      RebuildOfDiffs(x);
      RebuildOfDiffs(Parts(n, k));
    }
  }

  /** For instance the split of 44 into 3 parts. */
  lemma DocumentedSplit()
    ensures Parts(44, 3) == [29, 14, 1]
  {
    hide Parts, DStar, Isqrt, MaxDistinct;
    ThreeValues();
    var x := [29, 14, 1];
    assert Sum(x) == 44 by {
      assert x[1..] == [14, 1] && [14, 1][1..] == [1] && [1][1..] == [];
    }
    assert Diffs(x) == [15, 13];
    LayersOfExample();
    PartsAreGreedy(44, 3, x);
  }

  lemma LayersOfExample()
    ensures GreedyLayers([15, 13], 2)
  {
    var d := [15, 13];
    assert Drop(d, 1) == 2 && Drop(d, 2) == 13;
    assert Tri(1) == 1 && Tri(2) == 3;
    assert DropCost(d, 0) == 0 && DropCost(d, 1) == 2;
  }

  lemma ThreeValues()
    ensures DStar(44, 3) == 3
  {
    hide MaxDistinct;
    assert Tri(1) == 1 && Tri(2) == 3;
    ClosedFormIsLargest(41, 3);
  }

  lemma SameCostSameDiffs(d: seq<int>, e: seq<int>, top: nat)
    requires top <= |d| == |e| && GreedyLayers(d, top) && GreedyLayers(e, top)
    requires DropCost(d, top) == DropCost(e, top)
    ensures d == e
  {
    SameCostSameDrops(d, e, top, top);
    forall i | 0 <= i < |d|
      ensures d[i] == e[i]
    {
      assert forall h :: top < h <= |d| ==> Drop(d, h) == Drop(e, h);
      SameDropsSameDifferences(d, e, i);
    }
  }

  // ----- Optimality: no split has more distinct values -----

  function Values(x: seq<int>): set<int> {
    set v | v in x
  }

  lemma {:induction false} StrictRunHasDistinctValues(x: seq<int>)
    requires forall i, j :: 0 <= i < j < |x| ==> x[i] > x[j]
    ensures |Values(x)| == |x|
  {
    if x == [] {
      assert Values(x) == {};
    } else {
      var rest := x[1..];
      StrictRunHasDistinctValues(rest);
      assert x == [x[0]] + rest;
      assert Values(x) == {x[0]} + Values(rest);
      assert x[0] !in rest;
    }
  }

  /** The split found has exactly D* distinct values. */
  lemma PartsAttainDStar(n: nat, k: nat)
    requires 0 < k <= n
    ensures |Values(Parts(n, k))| == DStar(n, k)
  {
    DStarFits(n, k);
    var x, dStar := Parts(n, k), DStar(n, k);
    forall i, j | 0 <= i < j < dStar ensures x[i] > x[j] {
      PartsAreOrdered(n, k, i, j);
    }
    StrictRunHasDistinctValues(x[..dStar]);
    forall v | v in x ensures v in x[..dStar] {
      var j :| 0 <= j < k && x[j] == v;
      if j >= dStar {
        PartsAreOrdered(n, k, dStar - 1, j);
        assert v == x[..dStar][dStar - 1];
      }
    }
    assert Values(x) == Values(x[..dStar]);
  }

  lemma {:induction false} PositiveSetFits(s: set<int>, m: nat)
    requires forall v :: v in s ==> 1 <= v <= m
    ensures |s| <= m
  {
    if m == 0 {
      assert forall v :: v !in s;
      assert s == {};
    } else {
      PositiveSetFits(s - {m}, m - 1);
      assert |s| <= |s - {m}| + 1 by {
        if m in s { assert s == (s - {m}) + {m}; } else { assert s == s - {m}; }
      }
    }
  }

  lemma {:induction false} SumOfConcat(a: seq<int>, b: seq<int>)
    ensures Sum(a + b) == Sum(a) + Sum(b)
  {
    if a == [] {
      assert a + b == b;
    } else {
      SumOfConcat(a[1..], b);
      assert (a + b)[1..] == a[1..] + b;
    }
  }

  lemma {:induction false} MaxIndex(y: seq<int>) returns (i: nat)
    requires y != []
    ensures i < |y| && forall v :: v in y ==> v <= y[i]
  {
    if |y| == 1 {
      i := 0;
    } else {
      var j := MaxIndex(y[1..]);
      assert forall v :: v in y ==> v == y[0] || v in y[1..];
      i := if y[0] >= y[j + 1] then 0 else j + 1;
    }
  }

  lemma WithoutIndex(y: seq<int>, i: nat) returns (rest: seq<int>)
    requires i < |y|
    ensures |rest| == |y| - 1 && Sum(y) == y[i] + Sum(rest)
    ensures Values(y) == Values(rest) + {y[i]}
    ensures forall v :: v in rest ==> v in y
  {
    rest := y[..i] + y[i + 1..];
    assert y == y[..i] + ([y[i]] + y[i + 1..]);
    SumOfConcat(y[..i], [y[i]] + y[i + 1..]);
    SumOfConcat(y[..i], y[i + 1..]);
    assert ([y[i]] + y[i + 1..])[1..] == y[i + 1..];
  }

  /** d distinct positive values among |y| positive parts cost at least Tri(d) + (|y| - d). */
  lemma {:induction false} DistinctValuesCost(y: seq<int>)
    requires forall v :: v in y ==> v >= 1
    ensures |Values(y)| <= |y|
    ensures Sum(y) >= Tri(|Values(y)|) + |y| - |Values(y)|
    decreases |y|
  {
    if y == [] {
      assert Values(y) == {};
    } else {
      var i := MaxIndex(y);
      assert y[i] in y;
      PositiveSetFits(Values(y), y[i]);
      var rest := WithoutIndex(y, i);
      DistinctValuesCost(rest);
      if y[i] in Values(rest) {
        assert Values(y) == Values(rest);
      } else {
        assert |Values(y)| == |Values(rest)| + 1;
      }
    }
  }

  /** No sequence of k positive integers with sum n has more than D* distinct values. */
  lemma DStarIsOptimal(n: nat, k: nat, y: seq<int>)
    requires 0 < k <= n
    requires |y| == k && Sum(y) == n && forall v :: v in y ==> v >= 1
    ensures |Values(y)| <= DStar(n, k)
  {
    DistinctValuesCost(y);
    var d := |Values(y)|;
    assert y[0] in Values(y);
    assert d > 0;
    ClosedFormIsLargest(n - k, d);
  }

  /**
    What the function promises, in one statement: where it returns, its parts are a split of n
    into k positive parts and no split of n into k positive parts has more distinct values.
   */
  lemma PartsAreOptimal(n: nat, k: nat, y: seq<int>)
    requires 0 < k <= n && (k >= 2 || n == k)
    requires |y| == k && Sum(y) == n && forall v :: v in y ==> v >= 1
    ensures Sum(Parts(n, k)) == n
    ensures forall i :: 0 <= i < k ==> Parts(n, k)[i] >= 1
    ensures |Values(y)| <= |Values(Parts(n, k))|
  {
    PartsSum(n, k);
    forall i | 0 <= i < k ensures Parts(n, k)[i] >= 1 {
      PartsArePositive(n, k, i);
    }
    PartsAttainDStar(n, k);
    DStarIsOptimal(n, k, y);
  }

  lemma PartsArePositive(n: nat, k: nat, i: nat)
    requires 0 < k <= n && i < k
    ensures Parts(n, k)[i] >= 1
  {
    LastPartIsOne(n, k);
    if i < k - 1 {
      PartsAreOrdered(n, k, i, k - 1);
    }
  }

  /** One part and two steps: a valid split exists, the code raises instead of returning it. */
  lemma OnePartIsNotFilled()
    ensures Sum([2]) == 2 && Checked(Parts(2, 1), 2) == Err(WrongSum)
  {
    PartsSum(2, 1);
    assert Sum([2]) == 2 + Sum([2][1..]);
  }
}
