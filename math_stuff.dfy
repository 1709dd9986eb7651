/** Averaging and clean-up helpers of `math_stuff.js`. */
module MathStuff {
  import opened Vectors

  /** The threshold below which `unNoise` snaps a number to zero (`1e-4`). */
  const NOISE_LEVEL: real := 0.0001

  /** `arr.reduce((a, b) => a + b, 0)`: a left fold from 0. */
  function Sum(xs: seq<real>): (s: real) {
    if |xs| == 0 then 0.0 else Sum(xs[..|xs| - 1]) + xs[|xs| - 1]
  }

  /** The accumulated `arr[i] * weights[i]` of `wAvgArray`, in loop order. */
  function WSum(arr: seq<real>, weights: seq<real>): (s: real)
    requires |arr| == |weights|
  {
    if |arr| == 0 then 0.0
    else WSum(arr[..|arr| - 1], weights[..|arr| - 1]) + arr[|arr| - 1] * weights[|arr| - 1]
  }

  /** `avgArray`: 0 for an empty array, otherwise the sum over the length. */
  function AvgArray(xs: seq<real>): (r: real)
    ensures |xs| == 0 ==> r == 0.0
    ensures |xs| > 0 ==> r * (|xs| as real) == Sum(xs)
  {
    if |xs| == 0 then 0.0 else Sum(xs) / (|xs| as real)
  }

  lemma {:induction false} SumAbove(xs: seq<real>, c: real)
    requires |xs| > 0
    requires forall i :: 0 <= i < |xs| ==> xs[i] > c
    ensures Sum(xs) > (|xs| as real) * c
  {
    var n := |xs|;
    if n > 1 {
      SumAbove(xs[..n - 1], c);
    }
  }

  lemma {:induction false} SumBelow(xs: seq<real>, c: real)
    requires |xs| > 0
    requires forall i :: 0 <= i < |xs| ==> xs[i] < c
    ensures Sum(xs) < (|xs| as real) * c
  {
    var n := |xs|;
    if n > 1 {
      SumBelow(xs[..n - 1], c);
    }
  }

  /** The average of a non-empty array lies between its least and its greatest element. */
  lemma AvgArrayBetween(xs: seq<real>)
    requires |xs| > 0
    ensures exists i :: 0 <= i < |xs| && xs[i] <= AvgArray(xs)
    ensures exists j :: 0 <= j < |xs| && AvgArray(xs) <= xs[j]
  {
    var avg := AvgArray(xs);
    if forall i :: 0 <= i < |xs| ==> xs[i] > avg {
      SumAbove(xs, avg);
      assert false;
    }
    if forall j :: 0 <= j < |xs| ==> xs[j] < avg {
      SumBelow(xs, avg);
      assert false;
    }
  }

  lemma {:induction false} SumConst(xs: seq<real>, c: real)
    requires forall i :: 0 <= i < |xs| ==> xs[i] == c
    ensures Sum(xs) == (|xs| as real) * c
  {
    if |xs| > 0 {
      SumConst(xs[..|xs| - 1], c);
    }
  }

  /** Averaging copies of one value gives that value back. */
  lemma AvgArrayConst(xs: seq<real>, c: real)
    requires |xs| > 0
    requires forall i :: 0 <= i < |xs| ==> xs[i] == c
    ensures AvgArray(xs) == c
  {
    SumConst(xs, c);
  }

  /** Specification of `wAvgArray`: 0 on mismatched or empty arrays and on a zero weight sum. */
  function WeightedAverage(arr: seq<real>, weights: seq<real>): (r: real)
    ensures r != 0.0 ==> |arr| == |weights| > 0 && Sum(weights) != 0.0
    ensures |arr| == |weights| > 0 && Sum(weights) != 0.0 ==> r * Sum(weights) == WSum(arr, weights)
  {
    if |arr| != |weights| then 0.0
    else if |arr| == 0 then 0.0
    else if Sum(weights) == 0.0 then 0.0
    else WSum(arr, weights) / Sum(weights)
  }

  /** `wAvgArray`, with its accumulating loop. */
  method WAvgArray(arr: seq<real>, weights: seq<real>) returns (r: real)
    ensures r == WeightedAverage(arr, weights)
  {
    if |arr| != |weights| {
      return 0.0;
    }
    if |arr| == 0 || |weights| == 0 {
      return 0.0;
    }
    var arrSum := 0.0;
    var weightSum := 0.0;
    for i := 0 to |arr|
      invariant arrSum == WSum(arr[..i], weights[..i])
      invariant weightSum == Sum(weights[..i])
    {
      assert arr[..i + 1][..i] == arr[..i] && weights[..i + 1][..i] == weights[..i];
      arrSum := arrSum + arr[i] * weights[i];
      weightSum := weightSum + weights[i];
    }
    assert arr[..|arr|] == arr && weights[..|arr|] == weights;
    if weightSum == 0.0 {
      return 0.0;
    }
    r := arrSum / weightSum;
  }

  lemma {:induction false} WSumConstWeight(arr: seq<real>, weights: seq<real>, c: real)
    requires |arr| == |weights|
    requires forall i :: 0 <= i < |weights| ==> weights[i] == c
    ensures WSum(arr, weights) == c * Sum(arr)
  {
    if |arr| > 0 {
      WSumConstWeight(arr[..|arr| - 1], weights[..|arr| - 1], c);
    }
  }

  /** With equal nonzero weights the weighted average is the plain average. */
  lemma WeightedAverageEqualWeights(arr: seq<real>, weights: seq<real>, c: real)
    requires |arr| == |weights| > 0 && c != 0.0
    requires forall i :: 0 <= i < |weights| ==> weights[i] == c
    ensures WeightedAverage(arr, weights) == AvgArray(arr)
  {
    var n := |arr| as real;
    SumConst(weights, c);
    WSumConstWeight(arr, weights, c);
    assert WeightedAverage(arr, weights) * (n * c) == c * Sum(arr);
    assert WeightedAverage(arr, weights) * n == Sum(arr);
  }

  /** The `c`-th coordinates of a list of points. */
  function Component(pts: seq<Vec3>, c: nat): (cs: seq<real>)
    requires c < 3
    ensures |cs| == |pts| && forall i :: 0 <= i < |pts| ==> cs[i] == pts[i].Coord(c)
  {
    seq(|pts|, i requires 0 <= i < |pts| => pts[i].Coord(c))
  }

  /** `avgPoints`: the componentwise `avgArray` of the points. */
  function AvgPoints(pts: seq<Vec3>): (r: Vec3)
    ensures |pts| == 0 ==> r == ORIGIN
    ensures forall c :: 0 <= c < 3 ==> r.Coord(c) == AvgArray(Component(pts, c))
  {
    Vec3(AvgArray(Component(pts, 0)), AvgArray(Component(pts, 1)), AvgArray(Component(pts, 2)))
  }

  /** The average of one point is that point. */
  lemma AvgPointsSingle(p: Vec3)
    ensures AvgPoints([p]) == p
  {
    forall c | 0 <= c < 3
      ensures AvgPoints([p]).Coord(c) == p.Coord(c)
    {
      AvgArrayConst(Component([p], c), p.Coord(c));
    }
  }

  /** The average of three points, as the triangle centroid and the plane anchor use it. */
  lemma AvgPointsOfThree(p1: Vec3, p2: Vec3, p3: Vec3)
    ensures AvgPoints([p1, p2, p3])
         == Vec3((p1.x + p2.x + p3.x) / 3.0, (p1.y + p2.y + p3.y) / 3.0, (p1.z + p2.z + p3.z) / 3.0)
  {
    var pts := [p1, p2, p3];
    forall c | 0 <= c < 3
      ensures Sum(Component(pts, c)) == p1.Coord(c) + p2.Coord(c) + p3.Coord(c)
    {
      var cs := Component(pts, c);
      assert cs == [p1.Coord(c), p2.Coord(c), p3.Coord(c)];
      SumOfThree(p1.Coord(c), p2.Coord(c), p3.Coord(c));
    }
  }

  lemma SumOfThree(a: real, b: real, c: real)
    ensures Sum([a, b, c]) == a + b + c
  {
    assert [a, b, c][..2] == [a, b];
    assert [a, b][..1] == [a];
    assert [a][..0] == [];
    assert Sum([a]) == a;
    assert Sum([a, b]) == a + b;
  }

  /** The axis directions `DIRECTIONS.X`, `DIRECTIONS.Y` and `DIRECTIONS.Z`. */
  const X := Vec3(1.0, 0.0, 0.0)
  const Y := Vec3(0.0, 1.0, 0.0)
  const Z := Vec3(0.0, 0.0, 1.0)

  /** `unNoise`: numbers within `1e-4` of zero become zero; the rest are kept. */
  function UnNoise(xs: seq<real>): (r: seq<real>)
    ensures |r| == |xs|
    ensures forall i :: 0 <= i < |xs| ==> r[i] == 0.0 || r[i] == xs[i]
    ensures forall i :: 0 <= i < |xs| ==> (r[i] == xs[i] <==> Abs(xs[i]) > NOISE_LEVEL || xs[i] == 0.0)
    ensures forall i :: 0 <= i < |xs| ==> r[i] == 0.0 || Abs(r[i]) > NOISE_LEVEL
  {
    seq(|xs|, i requires 0 <= i < |xs| => if Abs(xs[i]) <= NOISE_LEVEL then 0.0 else xs[i])
  }

  /** Cleaning twice is cleaning once. */
  lemma UnNoiseIdempotent(xs: seq<real>)
    ensures UnNoise(UnNoise(xs)) == UnNoise(xs)
  {
  }
}
