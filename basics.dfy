/** Small value types shared by the whole model: an optional value, a 2D point in
    simulated space, and the integer conversions the engine performs on floats. */
module Basics {

  /** A reference that may be absent (Python's `None`). */
  datatype Option<T> = None | Some(value: T)

  /** A position in simulated space. */
  datatype Point = Point(x: real, y: real) {
    function Plus(d: Point): Point {
      Point(x + d.x, y + d.y)
    }
  }

  /** Squared Euclidean distance; the model compares squared distances so that no
      square root is needed. */
  function DistSq(p: Point, q: Point): (d: real)
    ensures d >= 0.0
    ensures p == q ==> d == 0.0
  {
    (p.x - q.x) * (p.x - q.x) + (p.y - q.y) * (p.y - q.y)
  }

  function MinR(a: real, b: real): real { if a <= b then a else b }
  function MaxR(a: real, b: real): real { if a >= b then a else b }
  function Min(a: int, b: int): int { if a <= b then a else b }
  function Max(a: int, b: int): int { if a >= b then a else b }

  /** Python's `int(x)` on a float: truncation toward zero. */
  function Trunc(x: real): (n: int)
    ensures 0.0 <= x ==> 0 <= n && n as real <= x < n as real + 1.0
    ensures x < 0.0 ==> n <= 0 && x <= n as real < x + 1.0
  {
    if x >= 0.0 then x.Floor else -((-x).Floor)
  }

  /** The exponential `x |-> exp(-x)` as the caller supplies it: the model has no
      transcendental functions of its own, so the table is a parameter. */
  type NegExp = imap<real, real>

  /** The table is defined at every argument. */
  ghost predicate Defined(e: NegExp) {
    forall x :: x in e
  }

  /** exp(-rate * dt): the fraction that survives a decay at `rate` for `dt` days. */
  function Remaining(expNeg: NegExp, rate: real, dt: real): (f: real)
    requires Defined(expNeg)
    ensures rate == 0.0 || dt == 0.0 ==> f == expNeg[0.0]
  {
    expNeg[rate * dt]
  }

  /** 1 - exp(-rate * dt): the chance that an event of the given daily rate happens
      within `dt` days. */
  function Chance(expNeg: NegExp, rate: real, dt: real): (p: real)
    requires Defined(expNeg)
    ensures rate == 0.0 || dt == 0.0 ==> p == 1.0 - expNeg[0.0]
  {
    1.0 - Remaining(expNeg, rate, dt)
  }

  /** The elements of `s` are pairwise different. */
  predicate Distinct<T(==)>(s: seq<T>) {
    forall i, j :: 0 <= i < j < |s| ==> s[i] != s[j]
  }

  /** The members of a sequence. */
  function Elements<T>(s: seq<T>): set<T> {
    set x | x in s
  }

  /** A sequence without repetitions has as many elements as its set. */
  lemma {:induction false} DistinctCard<T>(s: seq<T>)
    requires Distinct(s)
    ensures |Elements(s)| == |s|
  {
    if s != [] {
      var t := s[..|s| - 1];
      var last := s[|s| - 1];
      assert Distinct(t);
      DistinctCard(t);
      assert last !in t;
      assert Elements(s) == Elements(t) + {last} by {
        assert s == t + [last];
      }
    }
  }

  /** The naturals below `n`. */
  function Below(n: nat): (r: set<nat>)
    ensures |r| == n
    ensures forall x :: x in r <==> 0 <= x < n
  {
    if n == 0 then {} else Below(n - 1) + {n - 1}
  }

  /** A sequence of different naturals below `n` has at most `n` elements. */
  lemma DistinctBelow(s: seq<nat>, n: nat)
    requires Distinct(s) && forall i :: 0 <= i < |s| ==> s[i] < n
    ensures |s| <= n
  {
    DistinctCard(s);
    var elems := Elements(s);
    assert elems <= Below(n);
    SubsetCard(elems, Below(n));
  }

  /** A subset is no larger than its superset. */
  lemma {:induction false} SubsetCard<T>(a: set<T>, b: set<T>)
    requires a <= b
    ensures |a| <= |b|
    decreases |b|
  {
    if a != {} {
      var x :| x in a;
      SubsetCard(a - {x}, b - {x});
    }
  }

  /** `random.sample(pool, k)`: `min(|pool|, k)` different members of the pool. */
  predicate IsSample(sample: seq<nat>, pool: set<nat>, k: int) {
    Distinct(sample) && (forall j :: 0 <= j < |sample| ==> sample[j] in pool) && |sample| == Min(|pool|, k)
  }
}
