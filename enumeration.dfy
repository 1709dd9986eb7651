/**
  The three nested loops of `Polygon.allTriangles`, taken apart from what they build: for a list of
  vertices `vs` and a function `make` on three vertices, the loops push `make(vs[a], vs[b], vs[c])`
  for every `a < b < c`, with `a` outermost and `c` innermost.
 */
module Enumeration {

  /**
    What the loops have pushed when their counters stand at `i`, `j`, `k`: the entries of every
    triple before `(i, j, k)` in loop order. The recursion retraces the loops' last step: the last
    push of the innermost loop, or, at the start of a row, the end of the previous row, or, at the
    start of a round of the outer loop, the end of the previous round.
   */
  function Pushed<V, T>(vs: seq<V>, make: (V, V, V) -> T, i: nat, j: nat, k: nat): (pushed: seq<T>)
    requires i < j < k <= |vs|
    decreases i, j, k
  {
    if k > j + 1 then Pushed(vs, make, i, j, k - 1) + [make(vs[i], vs[j], vs[k - 1])]
    else if j > i + 1 then Pushed(vs, make, i, j - 1, |vs|)
    else if i > 0 then Pushed(vs, make, i - 1, |vs| - 1, |vs|)
    else []
  }

  /** What the three loops build: the outer loop runs while `i < length - 2`. */
  function Triples<V, T>(vs: seq<V>, make: (V, V, V) -> T): (all: seq<T>) {
    if |vs| >= 3 then Pushed(vs, make, |vs| - 2, |vs| - 1, |vs|) else []
  }

  /** `(a, b, c)` comes before `(i, j, k)` in the order the loops visit triples. */
  predicate Before(a: int, b: int, c: int, i: int, j: int, k: int) {
    a < i || (a == i && b < j) || (a == i && b == j && c < k)
  }

  /** `x` is what the loops push for the vertices at `a < b < c`. */
  ghost predicate Entry<V, T>(vs: seq<V>, make: (V, V, V) -> T, x: T, a: int, b: int, c: int) {
    0 <= a < b < c < |vs| && x == make(vs[a], vs[b], vs[c])
  }

  /** Every entry pushed so far comes from a triple the loops have already visited. */
  lemma {:induction false} PushedSound<V, T>(vs: seq<V>, make: (V, V, V) -> T, i: nat, j: nat, k: nat, x: T)
    requires i < j < k <= |vs|
    requires x in Pushed(vs, make, i, j, k)
    ensures exists a, b, c :: Before(a, b, c, i, j, k) && Entry(vs, make, x, a, b, c)
    decreases i, j, k
  {
    if k > j + 1 {
      if x in Pushed(vs, make, i, j, k - 1) {
        PushedSound(vs, make, i, j, k - 1, x);
      } else {
        assert Before(i, j, k - 1, i, j, k) && Entry(vs, make, x, i, j, k - 1);
      }
    } else if j > i + 1 {
      PushedSound(vs, make, i, j - 1, |vs|, x);
    } else if i > 0 {
      PushedSound(vs, make, i - 1, |vs| - 1, |vs|, x);
    }
  }

  /** Every triple the loops have already visited has its entry pushed. */
  lemma {:induction false} PushedHas<V, T>(vs: seq<V>, make: (V, V, V) -> T, i: nat, j: nat, k: nat, a: nat, b: nat, c: nat)
    requires i < j < k <= |vs|
    requires a < b < c < |vs| && Before(a, b, c, i, j, k)
    ensures make(vs[a], vs[b], vs[c]) in Pushed(vs, make, i, j, k)
    decreases i, j, k
  {
    var front := Pushed(vs, make, i, j, k);
    if k > j + 1 {
      var last := make(vs[i], vs[j], vs[k - 1]);
      assert front == Pushed(vs, make, i, j, k - 1) + [last];
      if a == i && b == j && c == k - 1 {
        assert front[|front| - 1] == last;
      } else {
        assert Before(a, b, c, i, j, k - 1);
        PushedHas(vs, make, i, j, k - 1, a, b, c);
      }
    } else if j > i + 1 {
      assert Before(a, b, c, i, j - 1, |vs|);
      PushedHas(vs, make, i, j - 1, |vs|, a, b, c);
    } else if i > 0 {
      assert Before(a, b, c, i - 1, |vs| - 1, |vs|);
      PushedHas(vs, make, i - 1, |vs| - 1, |vs|, a, b, c);
    }
  }

  /** The loops visit every triple of vertices `a < b < c`, and nothing else. */
  lemma TriplesMembers<V, T>(vs: seq<V>, make: (V, V, V) -> T, x: T)
    ensures x in Triples(vs, make) <==> exists a, b, c :: Entry(vs, make, x, a, b, c)
  {
    var n := |vs|;
    if n >= 3 {
      if x in Triples(vs, make) {
        PushedSound(vs, make, n - 2, n - 1, n, x);
      }
      if exists a, b, c :: Entry(vs, make, x, a, b, c) {
        var a, b, c :| Entry(vs, make, x, a, b, c);
        PushedHas(vs, make, n - 2, n - 1, n, a, b, c);
      }
    }
  }

  /** `(a, b, c)` is `(i, j, k)` or comes before it: the loops reach the first state no later than the second. */
  predicate NoLater(a: int, b: int, c: int, i: int, j: int, k: int) {
    Before(a, b, c, i, j, k) || (a == i && b == j && c == k)
  }

  /** What the loops have pushed at an earlier state is a prefix of what they push later: nothing is reordered. */
  lemma {:induction false} PushedPrefix<V, T>(vs: seq<V>, make: (V, V, V) -> T, a: nat, b: nat, c: nat, i: nat, j: nat, k: nat)
    requires a < b < c <= |vs| && i < j < k <= |vs|
    requires NoLater(a, b, c, i, j, k)
    ensures Pushed(vs, make, a, b, c) <= Pushed(vs, make, i, j, k)
    decreases i, j, k
  {
    if a == i && b == j && c == k {
    } else if k > j + 1 {
      assert NoLater(a, b, c, i, j, k - 1);
      PushedPrefix(vs, make, a, b, c, i, j, k - 1);
    } else if j > i + 1 {
      assert NoLater(a, b, c, i, j - 1, |vs|);
      PushedPrefix(vs, make, a, b, c, i, j - 1, |vs|);
    } else if i > 0 {
      assert NoLater(a, b, c, i - 1, |vs| - 1, |vs|);
      PushedPrefix(vs, make, a, b, c, i - 1, |vs| - 1, |vs|);
    }
  }

  /**
    The loops push the entry of `a < b < c` right after everything they pushed before reaching
    `(a, b, c)`: its index in the finished list is the length of `Pushed(vs, make, a, b, c)`,
    which `PushedSound` and `PushedHas` describe as the entries of the earlier triples and
    `PushedLength` counts.
   */
  lemma TriplesAt<V, T>(vs: seq<V>, make: (V, V, V) -> T, a: nat, b: nat, c: nat)
    requires a < b < c < |vs|
    ensures |Pushed(vs, make, a, b, c)| < |Triples(vs, make)|
    ensures Triples(vs, make)[|Pushed(vs, make, a, b, c)|] == make(vs[a], vs[b], vs[c])
  {
    var n := |vs|;
    var front := Pushed(vs, make, a, b, c);
    var upTo := Pushed(vs, make, a, b, c + 1);
    RowStep(vs, make, a, b, c);
    assert upTo == front + [make(vs[a], vs[b], vs[c])];
    PushedPrefix(vs, make, a, b, c + 1, n - 2, n - 1, n);
    PrefixAt(upTo, Triples(vs, make), |front|);
  }

  /** An entry of a prefix is the entry at the same index of the whole sequence. */
  lemma PrefixAt<T>(p: seq<T>, q: seq<T>, i: nat)
    requires p <= q && i < |p|
    ensures i < |q| && q[i] == p[i]
  {
    assert p == q[..|p|];
  }

  /** `m (m - 1) (m - 2)`, six times the number of ways to choose three of `m` things. */
  function Falling3(m: int): (f: int) {
    m * (m - 1) * (m - 2)
  }

  /** Six times the number of triples `a < b < c < n` before `(i, j, k)`. */
  function SixTimesBefore(n: int, i: int, j: int, k: int): (six: int) {
    Falling3(n) - Falling3(n - i) + 3 * (j - i - 1) * (2 * n - i - j - 2) + 6 * (k - j - 1)
  }

  /** Finishing row `j - 1` and starting row `j` reach the same count. */
  lemma RowJumpCount(n: int, i: int, j: int)
    ensures SixTimesBefore(n, i, j, j + 1) == SixTimesBefore(n, i, j - 1, n)
  {
    var u := j - i - 1;
    var w := 2 * n - i - j - 2;
    assert (u - 1) * (w + 1) == u * w + u - w - 1;
  }

  /** Finishing round `i - 1` of the outer loop and starting round `i` reach the same count. */
  lemma RoundJumpCount(n: int, i: int)
    ensures SixTimesBefore(n, i, i + 1, i + 2) == SixTimesBefore(n, i - 1, n - 1, n)
  {
    var m := n - i;
    assert Falling3(m + 1) == (m + 1) * m * (m - 1);
    assert Falling3(m) == m * (m - 1) * (m - 2);
    assert (m + 1) * (m * (m - 1)) - (m * (m - 1)) * (m - 2) == 3 * (m * (m - 1));
    assert SixTimesBefore(n, i - 1, n - 1, n) == Falling3(n) - Falling3(m + 1) + 3 * (m - 1) * m;
  }

  lemma {:induction false} PushedLength<V, T>(vs: seq<V>, make: (V, V, V) -> T, i: nat, j: nat, k: nat)
    requires i < j < k <= |vs|
    ensures 6 * |Pushed(vs, make, i, j, k)| == SixTimesBefore(|vs|, i, j, k)
    decreases i, j, k
  {
    var n := |vs|;
    if k > j + 1 {
      PushedLength(vs, make, i, j, k - 1);
    } else if j > i + 1 {
      PushedLength(vs, make, i, j - 1, n);
      RowJumpCount(n, i, j);
    } else if i > 0 {
      PushedLength(vs, make, i - 1, n - 1, n);
      RoundJumpCount(n, i);
    } else {
      assert SixTimesBefore(n, 0, 1, 2) == 0;
    }
  }

  /** The loops push one entry per choice of three vertices: `n (n - 1) (n - 2) / 6` of them. */
  lemma TriplesCount<V, T>(vs: seq<V>, make: (V, V, V) -> T)
    ensures 6 * |Triples(vs, make)| == |vs| * (|vs| - 1) * (|vs| - 2)
  {
    var n := |vs|;
    if n >= 3 {
      PushedLength(vs, make, n - 2, n - 1, n);
      assert Falling3(2) == 0;
    } else {
      assert n * (n - 1) * (n - 2) == 0;
    }
  }

  /** One push of the innermost loop. */
  lemma RowStep<V, T>(vs: seq<V>, make: (V, V, V) -> T, i: nat, j: nat, k: nat)
    requires i < j < k < |vs|
    ensures Pushed(vs, make, i, j, k + 1) == Pushed(vs, make, i, j, k) + [make(vs[i], vs[j], vs[k])]
  {
  }

  /** A finished row is where the next row starts. */
  lemma NextRow<V, T>(vs: seq<V>, make: (V, V, V) -> T, i: nat, j: nat)
    requires i < j && j + 1 < |vs|
    ensures Pushed(vs, make, i, j + 1, j + 2) == Pushed(vs, make, i, j, |vs|)
  {
  }

  /** A finished round of the outer loop is where the next round starts. */
  lemma NextRound<V, T>(vs: seq<V>, make: (V, V, V) -> T, i: nat)
    requires i + 3 <= |vs|
    ensures Pushed(vs, make, i + 1, i + 2, i + 3) == Pushed(vs, make, i, |vs| - 1, |vs|)
  {
  }

  /** Nothing is pushed before the loops start. */
  lemma FirstRound<V, T>(vs: seq<V>, make: (V, V, V) -> T)
    requires 2 <= |vs|
    ensures Pushed(vs, make, 0, 1, 2) == []
  {
  }
}
