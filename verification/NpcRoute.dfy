/** Points, distances and walking along an authored route (internal/npc/vector.go, internal/npc/route.go). */
module NpcRoute {
  import opened Common

  datatype Vector3 = Vector3(x: real, y: real, z: real)

  const ORIGIN := Vector3(0.0, 0.0, 0.0)

  function Plus(a: Vector3, b: Vector3): (v: Vector3) {
    Vector3(a.x + b.x, a.y + b.y, a.z + b.z)
  }

  function Minus(a: Vector3, b: Vector3): (v: Vector3) {
    Vector3(a.x - b.x, a.y - b.y, a.z - b.z)
  }

  function Scaled(a: Vector3, factor: real): (v: Vector3) {
    Vector3(Times(a.x, factor), Times(a.y, factor), Times(a.z, factor))
  }

  function Times(x: real, y: real): (p: real) {
    x * y
  }

  function Square(x: real): (s: real) {
    Times(x, x)
  }

  function Dot(a: Vector3, b: Vector3): (d: real) {
    Times(a.x, b.x) + Times(a.y, b.y) + Times(a.z, b.z)
  }

  function DistanceSquared(a: Vector3, b: Vector3): (d: real) {
    Dot(Minus(a, b), Minus(a, b))
  }

  /** The square root of the floating-point library, taken as exact. */
  type Root = real -> real

  ghost predicate IsRoot(root: Root) {
    forall x: real :: x >= 0.0 ==> root(x) >= 0.0 && Square(root(x)) == x
  }

  function Norm(root: Root, v: Vector3): (n: real) {
    root(Dot(v, v))
  }

  function Distance(root: Root, a: Vector3, b: Vector3): (d: real) {
    Norm(root, Minus(a, b))
  }

  function Hypot(root: Root, dx: real, dz: real): (d: real) {
    root(Square(dx) + Square(dz))
  }

  function HorizontalDistance(root: Root, a: Vector3, b: Vector3): (d: real) {
    Hypot(root, a.x - b.x, a.z - b.z)
  }

  function HorizontalDirection(root: Root, a: Vector3, b: Vector3): (v: Vector3) {
    var dx, dz := b.x - a.x, b.z - a.z;
    var length := Hypot(root, dx, dz);
    if length == 0.0 then ORIGIN else Vector3(dx / length, 0.0, dz / length)
  }

  // ---------- Geometry ----------

  lemma ProductIsPositive(a: real, b: real)
    requires a >= 0.0 && b >= 0.0
    ensures Times(a, b) >= 0.0
    ensures a > 0.0 && b > 0.0 ==> Times(a, b) > 0.0
  {
  }

  lemma DifferenceOfSquares(u: real, v: real)
    ensures Square(u) - Square(v) == Times(u - v, u + v)
  {
  }

  lemma SquaresGrow(u: real, v: real)
    requires 0.0 <= v < u
    ensures Square(u) > Square(v)
  {
    ProductIsPositive(u - v, u + v);
    DifferenceOfSquares(u, v);
  }

  lemma SquaresOrder(u: real, v: real)
    requires 0.0 <= u && 0.0 <= v && Square(u) <= Square(v)
    ensures u <= v
  {
    if u > v {
      SquaresGrow(u, v);
    }
  }

  lemma SquareOfNegative(x: real)
    ensures Square(-x) == Square(x)
  {
  }

  lemma SquareIsPositive(x: real)
    ensures Square(x) >= 0.0
    ensures x != 0.0 ==> Square(x) > 0.0
  {
    SquareOfNegative(x);
    if x >= 0.0 { ProductIsPositive(x, x); } else { ProductIsPositive(-x, -x); }
  }

  lemma DotIsPositive(v: Vector3)
    ensures Dot(v, v) >= 0.0
    ensures v != ORIGIN ==> Dot(v, v) > 0.0
  {
    SquareIsPositive(v.x);
    SquareIsPositive(v.y);
    SquareIsPositive(v.z);
  }

  lemma NormIsRoot(root: Root, v: Vector3)
    requires IsRoot(root)
    ensures Norm(root, v) >= 0.0 && Square(Norm(root, v)) == Dot(v, v)
    ensures Norm(root, v) == 0.0 ==> v == ORIGIN
  {
    DotIsPositive(v);
  }

  lemma SameSquares(u: real, v: real)
    requires 0.0 <= u && 0.0 <= v && Square(u) == Square(v)
    ensures u == v
  {
    SquaresOrder(u, v);
    SquaresOrder(v, u);
  }

  lemma ProductOfRoots(n: real, factor: real, m: real)
    requires 0.0 <= n && 0.0 <= factor && 0.0 <= m && Square(m) == Times(Square(n), Square(factor))
    ensures m == Times(n, factor)
  {
    ProductIsPositive(n, factor);
    SquareOfProduct(n, factor);
    SameSquares(m, Times(n, factor));
  }

  lemma DistanceIsPositive(root: Root, a: Vector3, b: Vector3)
    requires IsRoot(root)
    ensures Distance(root, a, b) >= 0.0
  {
    NormIsRoot(root, Minus(a, b));
  }

  lemma NormScales(root: Root, v: Vector3, factor: real)
    requires IsRoot(root) && factor >= 0.0
    ensures Norm(root, Scaled(v, factor)) == Times(Norm(root, v), factor)
  {
    NormIsRoot(root, v);
    NormIsRoot(root, Scaled(v, factor));
    DotScales(v, factor);
    ProductOfRoots(Norm(root, v), factor, Norm(root, Scaled(v, factor)));
  }

  lemma SquareOfProduct(a: real, b: real)
    ensures Square(Times(a, b)) == Times(Square(a), Square(b))
  {
  }

  lemma DotScales(v: Vector3, factor: real)
    ensures Dot(Scaled(v, factor), Scaled(v, factor)) == Times(Dot(v, v), Square(factor))
  {
    SquareOfProduct(v.x, factor);
    SquareOfProduct(v.y, factor);
    SquareOfProduct(v.z, factor);
  }

  /** Lagrange's identity: what the Cauchy-Schwarz inequality leaves over is a sum of squares. */
  lemma Lagrange(p: real, q: real, r: real, s: real, t: real, u: real)
    ensures (p * p + q * q + r * r) * (s * s + t * t + u * u) - (p * s + q * t + r * u) * (p * s + q * t + r * u)
      == (p * t - q * s) * (p * t - q * s) + (p * u - r * s) * (p * u - r * s) + (q * u - r * t) * (q * u - r * t)
  {
  }

  lemma NoNegativeSquare(x: real)
    ensures x * x >= 0.0
  {
  }

  lemma ProductOfSums(p: real, q: real, r: real, s: real, t: real, u: real, a: real, b: real, c: real)
    requires a == p * p + q * q + r * r && b == s * s + t * t + u * u && c == p * s + q * t + r * u
    ensures c * c <= a * b
  {
    Lagrange(p, q, r, s, t, u);
    var x, y, z := p * t - q * s, p * u - r * s, q * u - r * t;
    NoNegativeSquare(x);
    NoNegativeSquare(y);
    NoNegativeSquare(z);
    assert a * b - c * c == x * x + y * y + z * z;
  }

  lemma DotSquared(a: Vector3, b: Vector3)
    ensures Square(Dot(a, b)) <= Times(Dot(a, a), Dot(b, b))
  {
    ProductOfSums(a.x, a.y, a.z, b.x, b.y, b.z, Dot(a, a), Dot(b, b), Dot(a, b));
  }

  lemma BelowProduct(d: real, n: real, m: real)
    requires 0.0 <= n && 0.0 <= m && Square(d) <= Times(Square(n), Square(m))
    ensures d <= Times(n, m)
  {
    ProductIsPositive(n, m);
    if d > 0.0 {
      SquareOfProduct(n, m);
      SquaresOrder(d, Times(n, m));
    }
  }

  lemma CauchySchwarz(root: Root, a: Vector3, b: Vector3)
    requires IsRoot(root)
    ensures Dot(a, b) <= Times(Norm(root, a), Norm(root, b))
  {
    NormIsRoot(root, a);
    NormIsRoot(root, b);
    DotSquared(a, b);
    BelowProduct(Dot(a, b), Norm(root, a), Norm(root, b));
  }

  lemma DotOfSum(a: Vector3, b: Vector3)
    ensures Dot(Plus(a, b), Plus(a, b)) == Dot(a, a) + 2.0 * Dot(a, b) + Dot(b, b)
  {
  }

  lemma SquareOfSum(a: real, b: real)
    ensures Square(a + b) == Square(a) + 2.0 * Times(a, b) + Square(b)
  {
  }

  /** From a dot product at most the product of lengths: the sum is at most as long as both together. */
  lemma SumOfRoots(n: real, m: real, k: real, uu: real, uv: real, vv: real)
    requires n >= 0.0 && m >= 0.0 && k >= 0.0
    requires Square(n) == uu && Square(m) == vv && Square(k) == uu + 2.0 * uv + vv && uv <= Times(n, m)
    ensures k <= n + m
  {
    SquareOfSum(n, m);
    SquaresOrder(k, n + m);
  }

  lemma NormOfSum(root: Root, u: Vector3, v: Vector3)
    requires IsRoot(root)
    ensures Norm(root, Plus(u, v)) <= Norm(root, u) + Norm(root, v)
  {
    NormIsRoot(root, u);
    NormIsRoot(root, v);
    NormIsRoot(root, Plus(u, v));
    CauchySchwarz(root, u, v);
    DotOfSum(u, v);
    SumOfRoots(Norm(root, u), Norm(root, v), Norm(root, Plus(u, v)), Dot(u, u), Dot(u, v), Dot(v, v));
  }

  lemma Triangle(root: Root, a: Vector3, b: Vector3, c: Vector3)
    requires IsRoot(root)
    ensures Distance(root, a, c) <= Distance(root, a, b) + Distance(root, b, c)
  {
    assert Minus(a, c) == Plus(Minus(a, b), Minus(b, c));
    NormOfSum(root, Minus(a, b), Minus(b, c));
  }

  lemma RootOrder(root: Root, a: real, b: real)
    requires IsRoot(root) && 0.0 <= a <= b
    ensures 0.0 <= root(a) <= root(b)
  {
    SquaresOrder(root(a), root(b));
  }

  lemma FlatIsLess(v: Vector3)
    ensures 0.0 <= Square(v.x) + Square(v.z) <= Dot(v, v)
  {
    SquareIsPositive(v.x);
    SquareIsPositive(v.y);
    SquareIsPositive(v.z);
  }

  lemma HorizontalIsShorter(root: Root, a: Vector3, b: Vector3)
    requires IsRoot(root)
    ensures 0.0 <= HorizontalDistance(root, a, b) <= Distance(root, a, b)
  {
    var v := Minus(a, b);
    FlatIsLess(v);
    RootOrder(root, Square(v.x) + Square(v.z), Dot(v, v));
  }

  lemma SamePoint(root: Root, a: Vector3)
    requires IsRoot(root)
    ensures Distance(root, a, a) == 0.0
  {
    var n := Norm(root, ORIGIN);
    assert Minus(a, a) == ORIGIN && Dot(ORIGIN, ORIGIN) == 0.0;
    assert Square(root(0.0)) == 0.0;
    SquareIsPositive(n);
  }

  // ---------- Segments ----------

  function Between(a: Vector3, b: Vector3, progress: real): (v: Vector3) {
    Plus(a, Scaled(Minus(b, a), progress))
  }

  /** How far along a segment of length `length` the remaining distance reaches. */
  function Progress(length: real, remaining: real): (p: real) {
    if length > 0.0 then (if remaining / length < 1.0 then remaining / length else 1.0) else 1.0
  }

  lemma QuotientTimes(a: real, b: real)
    requires b > 0.0
    ensures Times(a / b, b) == a
  {
  }

  lemma ProgressReaches(length: real, remaining: real)
    requires length >= 0.0 && remaining >= 0.0
    ensures
      var p := Progress(length, remaining);
      0.0 <= p <= 1.0 && Times(p, length) == if remaining < length then remaining else length
  {
    if length > 0.0 {
      var q := remaining / length;
      QuotientTimes(remaining, length);
      assert q < 1.0 <==> remaining < length by { DivisionOrder(remaining, length); }
      assert q >= 0.0;
    }
  }

  lemma DivisionOrder(a: real, b: real)
    requires b > 0.0
    ensures a / b < 1.0 <==> a < b
  {
  }

  lemma NormOfNegative(root: Root, a: Vector3, b: Vector3)
    ensures Distance(root, a, b) == Distance(root, b, a)
  {
    SquareOfNegative(a.x - b.x);
    SquareOfNegative(a.y - b.y);
    SquareOfNegative(a.z - b.z);
    assert Dot(Minus(a, b), Minus(a, b)) == Dot(Minus(b, a), Minus(b, a));
  }

  lemma DifferenceOfScaled(x: real, s: real, t: real)
    ensures Times(x, t) - Times(x, s) == Times(x, t - s)
  {
  }

  lemma BetweenDistance(root: Root, a: Vector3, b: Vector3, s: real, t: real)
    requires IsRoot(root) && s <= t
    ensures Distance(root, Between(a, b, s), Between(a, b, t)) == Times(t - s, Distance(root, a, b))
  {
    var v := Minus(b, a);
    DifferenceOfScaled(v.x, s, t);
    DifferenceOfScaled(v.y, s, t);
    DifferenceOfScaled(v.z, s, t);
    assert Minus(Between(a, b, t), Between(a, b, s)) == Scaled(v, t - s);
    NormScales(root, v, t - s);
    NormOfNegative(root, Between(a, b, s), Between(a, b, t));
    NormOfNegative(root, a, b);
    assert Times(Norm(root, v), t - s) == Times(t - s, Norm(root, v));
  }

  lemma BetweenEnds(a: Vector3, b: Vector3)
    ensures Between(a, b, 0.0) == a && Between(a, b, 1.0) == b
  {
  }

  // ---------- Sampling ----------

  datatype Place = Place(segment: nat, progress: real)

  datatype RouteSample = RouteSample(position: Vector3, direction: Vector3, segment: nat, progress: real)

  /** Where `remaining` leads from the start of segment `index - 1`. */
  function Locate(root: Root, points: seq<Vector3>, index: nat, remaining: real): (p: Place)
    requires 1 <= index < |points|
    ensures index - 1 <= p.segment < |points| - 1
    decreases |points| - index
  {
    var length := Distance(root, points[index - 1], points[index]);
    if remaining <= length || index == |points| - 1 then Place(index - 1, Progress(length, remaining))
    else Locate(root, points, index + 1, remaining - length)
  }

  function PositionAt(points: seq<Vector3>, p: Place): (v: Vector3)
    requires p.segment + 1 < |points|
  {
    Between(points[p.segment], points[p.segment + 1], p.progress)
  }

  function Clamped(distance: real): (d: real) {
    if distance < 0.0 then 0.0 else distance
  }

  function Sample(root: Root, points: seq<Vector3>, distance: real): (s: Option<RouteSample>) {
    if |points| == 0 then None
    else if |points| == 1 then Some(RouteSample(points[0], ORIGIN, 0, 0.0))
    else
      var p := Locate(root, points, 1, Clamped(distance));
      Some(RouteSample(
        PositionAt(points, p), HorizontalDirection(root, points[p.segment], points[p.segment + 1]), p.segment, p.progress))
  }

  /** The length of the first `n` segments. */
  function PrefixLength(root: Root, points: seq<Vector3>, n: nat): (length: real)
    requires n < |points|
  {
    if n == 0 then 0.0 else PrefixLength(root, points, n - 1) + Distance(root, points[n - 1], points[n])
  }

  function RouteLength(root: Root, points: seq<Vector3>): (length: real) {
    if points == [] then 0.0 else PrefixLength(root, points, |points| - 1)
  }

  method MeasureRoute(root: Root, points: seq<Vector3>) returns (length: real)
    ensures length == RouteLength(root, points)
  {
    length := 0.0;
    if points == [] { return; }
    for index := 1 to |points|
      invariant length == PrefixLength(root, points, index - 1)
    {
      length := length + Distance(root, points[index - 1], points[index]);
    }
  }

  method SampleRoute(root: Root, points: seq<Vector3>, distance: real) returns (s: Option<RouteSample>)
    ensures s == Sample(root, points, distance)
  {
    if |points| == 0 { return None; }
    if |points| == 1 { return Some(RouteSample(points[0], ORIGIN, 0, 0.0)); }
    var remaining := if distance < 0.0 then 0.0 else distance;
    for index := 1 to |points|
      invariant index < |points|
      invariant Locate(root, points, index, remaining) == Locate(root, points, 1, Clamped(distance))
    {
      var previous, current := points[index - 1], points[index];
      var length := Distance(root, previous, current);
      if remaining <= length || index == |points| - 1 {
        var progress := 1.0;
        if length > 0.0 && remaining / length < 1.0 {
          progress := remaining / length;
        }
        return Some(RouteSample(
          Between(previous, current, progress), HorizontalDirection(root, previous, current), index - 1, progress));
      }
      remaining := remaining - length;
    }
    assert false;
  }

  // ---------- What sampling means ----------

  lemma {:induction false} PrefixesGrow(root: Root, points: seq<Vector3>, m: nat, n: nat)
    requires IsRoot(root) && m <= n < |points|
    ensures PrefixLength(root, points, m) <= PrefixLength(root, points, n)
  {
    if m < n {
      PrefixesGrow(root, points, m, n - 1);
      DistanceIsPositive(root, points[n - 1], points[n]);
    }
  }

  function Min(a: real, b: real): (m: real) {
    if a < b then a else b
  }

  /** On a segment that the distance ends in, or on the last one. */
  lemma SegmentInverts(root: Root, points: seq<Vector3>, index: nat, remaining: real)
    requires IsRoot(root) && 1 <= index < |points| && remaining >= 0.0
    requires remaining <= Distance(root, points[index - 1], points[index]) || index == |points| - 1
    ensures
      var length := Distance(root, points[index - 1], points[index]);
      && 0.0 <= Progress(length, remaining) <= 1.0
      && PrefixLength(root, points, index - 1) + Times(Progress(length, remaining), length)
        == Min(PrefixLength(root, points, index - 1) + remaining, RouteLength(root, points))
  {
    NormIsRoot(root, Minus(points[index - 1], points[index]));
    ProgressReaches(Distance(root, points[index - 1], points[index]), remaining);
    PrefixesGrow(root, points, index, |points| - 1);
  }

  lemma {:induction false} LocateInverts(root: Root, points: seq<Vector3>, index: nat, remaining: real)
    requires IsRoot(root) && 1 <= index < |points| && remaining >= 0.0
    ensures
      var p := Locate(root, points, index, remaining);
      && 0.0 <= p.progress <= 1.0
      && PrefixLength(root, points, p.segment) + Times(p.progress, Distance(root, points[p.segment], points[p.segment + 1]))
        == Min(PrefixLength(root, points, index - 1) + remaining, RouteLength(root, points))
    decreases |points| - index
  {
    var length := Distance(root, points[index - 1], points[index]);
    DistanceIsPositive(root, points[index - 1], points[index]);
    if remaining <= length || index == |points| - 1 {
      SegmentInverts(root, points, index, remaining);
    } else {
      LocateInverts(root, points, index + 1, remaining - length);
    }
  }

  /** Sampling inverts arc length: the prefix and the part of the segment add up to the clamped distance. */
  lemma SampleInvertsLength(root: Root, points: seq<Vector3>, distance: real)
    requires IsRoot(root) && |points| > 1
    ensures
      var s := Sample(root, points, distance).value;
      && s.segment + 1 < |points| && 0.0 <= s.progress <= 1.0
      && s.position == Between(points[s.segment], points[s.segment + 1], s.progress)
      && PrefixLength(root, points, s.segment) + Times(s.progress, Distance(root, points[s.segment], points[s.segment + 1]))
        == Min(Clamped(distance), RouteLength(root, points))
  {
    LocateInverts(root, points, 1, Clamped(distance));
  }

  lemma StartOfOne(root: Root, a: Vector3, b: Vector3)
    requires IsRoot(root)
    ensures Distance(root, a, Between(a, b, Progress(Distance(root, a, b), 0.0))) == 0.0
  {
    var length := Distance(root, a, b);
    NormIsRoot(root, Minus(a, b));
    ProgressReaches(length, 0.0);
    BetweenDistance(root, a, b, 0.0, Progress(length, 0.0));
    BetweenEnds(a, b);
  }

  lemma LocateAtZero(root: Root, points: seq<Vector3>, index: nat)
    requires IsRoot(root) && 1 <= index < |points|
    ensures Locate(root, points, index, 0.0) == Place(index - 1, Progress(Distance(root, points[index - 1], points[index]), 0.0))
  {
    DistanceIsPositive(root, points[index - 1], points[index]);
  }

  lemma StartOfSegment(root: Root, points: seq<Vector3>, index: nat)
    requires IsRoot(root) && 1 <= index < |points|
    ensures Distance(root, points[index - 1], PositionAt(points, Locate(root, points, index, 0.0))) == 0.0
  {
    LocateAtZero(root, points, index);
    StartOfOne(root, points[index - 1], points[index]);
  }

  lemma SegmentIsLipschitz(root: Root, a: Vector3, b: Vector3, near: real, far: real)
    requires IsRoot(root) && 0.0 <= near <= far
    ensures
      var length := Distance(root, a, b);
      Distance(root, Between(a, b, Progress(length, near)), Between(a, b, Progress(length, far))) <= far - near
  {
    var length := Distance(root, a, b);
    NormIsRoot(root, Minus(a, b));
    ProgressReaches(length, near);
    ProgressReaches(length, far);
    var s, t := Progress(length, near), Progress(length, far);
    assert s <= t by { if length > 0.0 { DivisionGrows(near, far, length); } }
    BetweenDistance(root, a, b, s, t);
    Distributes(t, s, length);
  }

  lemma DivisionGrows(a: real, b: real, length: real)
    requires a <= b && length > 0.0
    ensures a / length <= b / length
  {
  }

  lemma Distributes(t: real, s: real, length: real)
    ensures Times(t - s, length) == Times(t, length) - Times(s, length)
  {
  }

  lemma SegmentEnd(root: Root, a: Vector3, b: Vector3, near: real)
    requires IsRoot(root) && 0.0 <= near <= Distance(root, a, b)
    ensures Distance(root, Between(a, b, Progress(Distance(root, a, b), near)), b) <= Distance(root, a, b) - near
  {
    var length := Distance(root, a, b);
    SegmentIsLipschitz(root, a, b, near, length);
    BetweenEnds(a, b);
    if length > 0.0 { assert length / length == 1.0; }
  }

  lemma {:induction false} LocateIsLipschitz(root: Root, points: seq<Vector3>, index: nat, near: real, far: real)
    requires IsRoot(root) && 1 <= index < |points| && 0.0 <= near <= far
    ensures Distance(
      root, PositionAt(points, Locate(root, points, index, near)), PositionAt(points, Locate(root, points, index, far)))
      <= far - near
    decreases |points| - index
  {
    var a, b := points[index - 1], points[index];
    var length := Distance(root, a, b);
    NormIsRoot(root, Minus(a, b));
    if far <= length || index == |points| - 1 {
      SegmentIsLipschitz(root, a, b, near, far);
    } else if near <= length {
      var p, q := PositionAt(points, Locate(root, points, index, near)), PositionAt(points, Locate(root, points, index, far));
      var start := PositionAt(points, Locate(root, points, index + 1, 0.0));
      SegmentEnd(root, a, b, near);
      StartOfSegment(root, points, index + 1);
      LocateIsLipschitz(root, points, index + 1, 0.0, far - length);
      Triangle(root, p, b, start);
      Triangle(root, p, start, q);
    } else {
      LocateIsLipschitz(root, points, index + 1, near - length, far - length);
    }
  }

  /** Walking a distance along a route never moves anybody further than that distance. */
  lemma SamplingIsLipschitz(root: Root, points: seq<Vector3>, near: real, far: real)
    requires IsRoot(root) && points != [] && near <= far
    ensures
      var p, q := Sample(root, points, near).value.position, Sample(root, points, far).value.position;
      0.0 <= HorizontalDistance(root, p, q) <= Distance(root, p, q) <= far - near
  {
    var p, q := Sample(root, points, near).value.position, Sample(root, points, far).value.position;
    HorizontalIsShorter(root, p, q);
    if |points| == 1 {
      SamePoint(root, p);
    } else {
      LocateIsLipschitz(root, points, 1, Clamped(near), Clamped(far));
    }
  }
}
