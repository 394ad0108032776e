/** The fractal curve of `koch_curve` (music.py): a seed square of four
    points, and an expansion step that replaces every cyclic edge (a, b) of
    the previous order by the four points a, c, d, e.

    Points are complex numbers with `real` parts. The rotation factor
    e^{i*pi/3} = 1/2 + i*sqrt(3)/2 is irrational, so it is a parameter `w`
    throughout: the layout, length and scaling properties hold for every `w`,
    and the geometric ones are stated for any `w` that satisfies
    `IsSixtyDegrees(w)`. */
module Koch {

  /** A complex number re + i*im, the element type of the numpy arrays. */
  datatype Point = Point(re: real, im: real) {
    function Plus(q: Point): Point { Point(re + q.re, im + q.im) }
    function Minus(q: Point): Point { Point(re - q.re, im - q.im) }
    /** Multiplication by a real scalar. */
    function Scaled(k: real): Point { Point(k * re, k * im) }
    /** Division by a non-zero real scalar. */
    function Over(k: real): Point requires k != 0.0 { Point(re / k, im / k) }
    /** Complex multiplication. */
    function Times(q: Point): Point { Point(re * q.re - im * q.im, re * q.im + im * q.re) }
    /** Squared modulus |p|^2. */
    function Norm2(): real { re * re + im * im }
  }

  /** Real part of the product p * conj(q): zero iff p and q are perpendicular. */
  function Dot(p: Point, q: Point): real { p.re * q.re + p.im * q.im }

  /** Imaginary part of conj(p) * q: positive iff q points to the left of p. */
  function Cross(p: Point, q: Point): real { p.re * q.im - p.im * q.re }

  /** `w` is e^{i*pi/3}: real part 1/2, positive imaginary part whose square is 3/4. */
  predicate IsSixtyDegrees(w: Point) { w.re == 0.5 && w.im > 0.0 && w.im * w.im == 0.75 }

  function Pow4(k: nat): nat { if k == 0 then 1 else 4 * Pow4(k - 1) }

  /** Order 0: scale * e^{i*theta} for theta = 0, 90, 180, 270 degrees. */
  function Seed(scale: real): (s: seq<Point>)
    ensures |s| == 4 && s[0] == Point(scale, 0.0)
    ensures s[1] == s[0].Times(Point(0.0, 1.0)) && s[2] == s[1].Times(Point(0.0, 1.0))
    ensures s[3] == s[2].Times(Point(0.0, 1.0))
  {
    [Point(scale, 0.0), Point(0.0, scale), Point(-scale, 0.0), Point(0.0, -scale)]
  }

  /** The four points that replace the edge (a, b): a, the 1/3 point c, the
      apex d and the 2/3 point e. The endpoint b is not emitted. Written in
      coordinates, with (x, y) one sixth of the edge b - a: c = a + 2(x, y),
      e = a + 4(x, y), and d is the midpoint a + 3(x, y) plus (x, y) * w. */
  function Bump(a: Point, b: Point, w: Point): seq<Point>
  {
    BumpBySixth(a, (b.re - a.re) / 6.0, (b.im - a.im) / 6.0, w)
  }

  /** The bump from a, given the sixth (x, y) of its edge. */
  function BumpBySixth(a: Point, x: real, y: real, w: Point): seq<Point>
  {
    [a,
     Point(a.re + 2.0 * x, a.im + 2.0 * y),
     Point(a.re + 3.0 * x + (x * w.re - y * w.im), a.im + 3.0 * y + (x * w.im + y * w.re)),
     Point(a.re + 4.0 * x, a.im + 4.0 * y)]
  }

  /** The bumps of the edges (starts[k], ends[k]), concatenated in order. */
  function Subdivide(starts: seq<Point>, ends: seq<Point>, w: Point): seq<Point>
    requires |starts| == |ends|
    decreases |starts|
  {
    if starts == [] then []
    else Bump(starts[0], ends[0], w) + Subdivide(starts[1..], ends[1..], w)
  }

  /** The closing successor of every point: prev[i + 1], and prev[0] for the last one. */
  function Successors(prev: seq<Point>): (t: seq<Point>)
    requires prev != []
    ensures |t| == |prev|
    ensures forall i :: 0 <= i < |prev| ==> t[i] == prev[(i + 1) % |prev|]
  {
    prev[1..] + [prev[0]]
  }

  /** One expansion step: every point paired with its cyclic successor. */
  function Expand(prev: seq<Point>, w: Point): seq<Point>
  {
    if prev == [] then [] else Subdivide(prev, Successors(prev), w)
  }

  /** The curve of the given order. */
  function Curve(order: nat, scale: real, w: Point): seq<Point>
  {
    if order == 0 then Seed(scale) else Expand(Curve(order - 1, scale, w), w)
  }

  function ScaleAll(ps: seq<Point>, k: real): seq<Point>
  {
    seq(|ps|, i requires 0 <= i < |ps| => ps[i].Scaled(k))
  }

  // ---------------------------------------------------------------------
  // Layout of one expansion step

  lemma {:induction false} SubdivideLength(starts: seq<Point>, ends: seq<Point>, w: Point)
    requires |starts| == |ends|
    ensures |Subdivide(starts, ends, w)| == 4 * |starts|
    decreases |starts|
  {
    if starts != [] {
      SubdivideLength(starts[1..], ends[1..], w);
    }
  }

  lemma {:induction false} SubdivideAt(starts: seq<Point>, ends: seq<Point>, w: Point, i: nat, j: nat)
    requires |starts| == |ends| && i < |starts| && j < 4
    ensures |Subdivide(starts, ends, w)| == 4 * |starts|
    ensures Subdivide(starts, ends, w)[4 * i + j] == Bump(starts[i], ends[i], w)[j]
    decreases i
  {
    SubdivideLength(starts, ends, w);
    if i > 0 {
      SubdivideAt(starts[1..], ends[1..], w, i - 1, j);
    }
  }

  /** Each step produces exactly four points per point of the previous order. */
  lemma ExpandLength(prev: seq<Point>, w: Point)
    ensures |Expand(prev, w)| == 4 * |prev|
  {
    if prev != [] {
      SubdivideLength(prev, Successors(prev), w);
    }
  }

  /** The cyclic successor of index i < n is i + 1, or 0 for the last index. */
  lemma NextIndex(i: nat, n: nat)
    requires i < n
    ensures (i + 1) % n == if i + 1 < n then i + 1 else 0
  {
  }

  /** Slot 4*i + j of the next order is point j of the bump of the edge
      (prev[i], prev[(i + 1) % n]); the last edge wraps to prev[0]. */
  lemma ExpandAt(prev: seq<Point>, w: Point, i: nat, j: nat)
    requires i < |prev| && j < 4
    ensures |Expand(prev, w)| == 4 * |prev|
    ensures Expand(prev, w)[4 * i + j] == Bump(prev[i], prev[(i + 1) % |prev|], w)[j]
  {
    var ends := Successors(prev);
    SubdivideAt(prev, ends, w, i, j);
    NextIndex(i, |prev|);
    assert ends[i] == prev[(i + 1) % |prev|];
  }

  /** Every point of the previous order is kept, in order, at index 4*i. */
  lemma ExpandKeepsPoints(prev: seq<Point>, w: Point)
    ensures |Expand(prev, w)| == 4 * |prev|
    ensures forall i :: 0 <= i < |prev| ==> Expand(prev, w)[4 * i] == prev[i]
  {
    ExpandLength(prev, w);
    forall i | 0 <= i < |prev|
      ensures Expand(prev, w)[4 * i] == prev[i]
    {
      ExpandAt(prev, w, i, 0);
    }
  }

  /** The last four slots of the next order come from the closing edge
      (last point, first point). */
  lemma ExpandWrapsAround(prev: seq<Point>, w: Point)
    requires |prev| > 0
    ensures |Expand(prev, w)| == 4 * |prev|
    ensures Expand(prev, w)[4 * (|prev| - 1)..] == Bump(prev[|prev| - 1], prev[0], w)
  {
    var n := |prev|;
    NextIndex(n - 1, n);
    ExpandAt(prev, w, n - 1, 0);
    ExpandAt(prev, w, n - 1, 1);
    ExpandAt(prev, w, n - 1, 2);
    ExpandAt(prev, w, n - 1, 3);
    var tail, bump := Expand(prev, w)[4 * (n - 1)..], Bump(prev[n - 1], prev[0], w);
    assert |tail| == 4 == |bump|;
    assert tail[0] == bump[0] && tail[1] == bump[1] && tail[2] == bump[2] && tail[3] == bump[3];
  }

  // ---------------------------------------------------------------------
  // Geometry of one bump

  /** c and e split the edge (a, b) into three equal parts. */
  lemma BumpThirds(a: Point, b: Point, w: Point)
    ensures var r := Bump(a, b, w);
      r[0] == a &&
      r[1].Minus(a) == r[3].Minus(r[1]) == b.Minus(r[3]) &&
      r[1].Minus(a).Scaled(3.0) == b.Minus(a)
  {
  }

  /** The arithmetic behind ApexGeometry: with s^2 = 3/4, the offsets of
      the apex from c, e and the midpoint, for (x, y) = (b - a)/6. */
  lemma ApexOffsets(x: real, y: real, s: real)
    requires s * s == 0.75
    ensures var q := x * x + y * y;
      var dc, ed := Point(1.5 * x - s * y, 1.5 * y + s * x), Point(0.5 * x + s * y, 0.5 * y - s * x);
      dc.Norm2() == 3.0 * q &&
      ed.Norm2() == q &&
      Point(0.5 * x - s * y, 0.5 * y + s * x).Norm2() == q &&
      Dot(Point(-dc.re, -dc.im), ed) == 0.0
  {
  }

  /** With w = e^{i*pi/3}, the apex d is at distance |b - a|/6 from the
      midpoint of the edge and sees c and e at a right angle: c, d, e form
      a 30-60-90 triangle with |d - e| = |b - a|/6 and
      |d - c| = sqrt(3) * |b - a|/6. */
  lemma ApexGeometry(a: Point, b: Point, w: Point)
    requires IsSixtyDegrees(w)
    ensures var r := Bump(a, b, w);
      var len2 := b.Minus(a).Norm2();
      Dot(r[1].Minus(r[2]), r[3].Minus(r[2])) == 0.0 &&
      r[3].Minus(r[2]).Norm2() * 36.0 == len2 &&
      r[2].Minus(r[1]).Norm2() * 12.0 == len2 &&
      r[2].Minus(a.Plus(b.Minus(a).Over(2.0))).Norm2() * 36.0 == len2
  {
    var x, y := (b.re - a.re) / 6.0, (b.im - a.im) / 6.0;
    var s := w.im;
    var r := Bump(a, b, w);
    ApexOffsets(x, y, s);
    assert b.Minus(a) == Point(6.0 * x, 6.0 * y);
    assert b.Minus(a).Norm2() == 36.0 * (x * x + y * y);
    assert r[2].Minus(r[1]) == Point(1.5 * x - s * y, 1.5 * y + s * x);
    assert r[1].Minus(r[2]) == Point(-(1.5 * x - s * y), -(1.5 * y + s * x));
    assert r[3].Minus(r[2]) == Point(0.5 * x + s * y, 0.5 * y - s * x);
    assert r[2].Minus(a.Plus(b.Minus(a).Over(2.0))) == Point(0.5 * x - s * y, 0.5 * y + s * x);
  }

  /** The apex lies on the LEFT of the directed edge a -> b: twice the
      signed area of the triangle (a, b, d) is w.im/6 * |b - a|^2, which is
      positive for w = e^{i*pi/3} and a != b. */
  lemma ApexLeftOfEdge(a: Point, b: Point, w: Point)
    ensures 6.0 * Cross(b.Minus(a), Bump(a, b, w)[2].Minus(a)) == w.im * b.Minus(a).Norm2()
  {
    var x, y := (b.re - a.re) / 6.0, (b.im - a.im) / 6.0;
    var s := w.im;
    assert b.Minus(a) == Point(6.0 * x, 6.0 * y);
    assert Bump(a, b, w)[2].Minus(a) == Point(3.0 * x + (x * w.re - y * s), 3.0 * y + (x * s + y * w.re));
    LeftTurnArithmetic(x, y, s, w.re);
  }

  lemma LeftTurnArithmetic(x: real, y: real, s: real, c: real)
    ensures 6.0 * ((6.0 * x) * (3.0 * y + (x * s + y * c)) - (6.0 * y) * (3.0 * x + (x * c - y * s)))
         == s * ((6.0 * x) * (6.0 * x) + (6.0 * y) * (6.0 * y))
  {
  }

  // ---------------------------------------------------------------------
  // The seed and the whole curve

  /** The seed is a square centred on the origin: every vertex at distance
      `scale`, every cyclic edge of squared length 2 * scale^2, traversed
      counter-clockwise. */
  lemma SeedSquare(scale: real)
    ensures |Seed(scale)| == 4
    ensures var s := Seed(scale);
      forall i :: 0 <= i < 4 ==>
        s[i].Norm2() == scale * scale &&
        Successors(s)[i].Minus(s[i]).Norm2() == 2.0 * (scale * scale) &&
        Cross(s[i], Successors(s)[i]) == scale * scale
  {
    var s := Seed(scale);
    var t := Successors(s);
    assert t == [s[1], s[2], s[3], s[0]];
    forall i | 0 <= i < 4
      ensures s[i].Norm2() == scale * scale
      ensures t[i].Minus(s[i]).Norm2() == 2.0 * (scale * scale)
      ensures Cross(s[i], t[i]) == scale * scale
    {
      if i == 0 {
        assert t[i].Minus(s[i]) == Point(-scale, scale);
      } else if i == 1 {
        assert t[i].Minus(s[i]) == Point(-scale, -scale);
      } else if i == 2 {
        assert t[i].Minus(s[i]) == Point(scale, -scale);
      } else {
        assert t[i].Minus(s[i]) == Point(scale, scale);
      }
    }
  }

  /** The first seed edge runs from (scale, 0) to (0, scale), on the line
      re + im == scale. With a positive scale and w.im > 0 (as for
      e^{i*pi/3}), its apex lies strictly on the origin's side of that line:
      the bumps point into the counter-clockwise seed square. */
  lemma SeedApexPointsInward(scale: real, w: Point)
    requires scale > 0.0 && w.im > 0.0
    ensures var s := Seed(scale);
      s[0].re + s[0].im == scale && s[1].re + s[1].im == scale &&
      Bump(s[0], s[1], w)[2].re + Bump(s[0], s[1], w)[2].im < scale
  {
    var a, b := Point(scale, 0.0), Point(0.0, scale);
    assert Bump(a, b, w)[2].re + Bump(a, b, w)[2].im == scale - (scale / 3.0) * w.im;
    assert (scale / 3.0) * w.im > 0.0;
  }

  /** The curve of order k has exactly 4^(k+1) points. */
  lemma {:induction false} CurveLength(order: nat, scale: real, w: Point)
    ensures |Curve(order, scale, w)| == Pow4(order + 1)
  {
    if order > 0 {
      CurveLength(order - 1, scale, w);
      ExpandLength(Curve(order - 1, scale, w), w);
    }
  }

  /** Every point of order `order` stays on the curve of every later order
      `order + m`, at index i * 4^m: no point is ever moved or dropped. */
  lemma PointsPersist(order: nat, m: nat, scale: real, w: Point, i: nat)
    requires i < |Curve(order, scale, w)|
    ensures Pow4(m) * i < |Curve(order + m, scale, w)|
    ensures Curve(order + m, scale, w)[Pow4(m) * i] == Curve(order, scale, w)[i]
  {
    StrideIsPow4(m, i);
    PointsPersistAtStride(order, m, scale, w, i);
  }

  /** i * 4^m, built up one factor of four at a time. */
  function Stride(m: nat, i: nat): nat
  {
    if m == 0 then i else 4 * Stride(m - 1, i)
  }

  lemma {:induction false} StrideIsPow4(m: nat, i: nat)
    ensures Stride(m, i) == Pow4(m) * i
  {
    if m > 0 {
      StrideIsPow4(m - 1, i);
      Pow4Step(m, i);
    }
  }

  lemma {:induction false} PointsPersistAtStride(order: nat, m: nat, scale: real, w: Point, i: nat)
    requires i < |Curve(order, scale, w)|
    ensures Stride(m, i) < |Curve(order + m, scale, w)|
    ensures Curve(order + m, scale, w)[Stride(m, i)] == Curve(order, scale, w)[i]
  {
    if m > 0 {
      PointsPersistAtStride(order, m - 1, scale, w, i);
      PersistStep(order, m, Stride(m - 1, i), scale, w);
      assert Stride(m, i) == 4 * Stride(m - 1, i);
    } else {
      assert Stride(m, i) == i && order + m == order;
    }
  }

  /** One order further, the point at index k moves to index 4k. */
  lemma PersistStep(order: nat, m: nat, k: nat, scale: real, w: Point)
    requires m > 0 && k < |Curve(order + (m - 1), scale, w)|
    ensures 4 * k < |Curve(order + m, scale, w)|
    ensures Curve(order + m, scale, w)[4 * k] == Curve(order + (m - 1), scale, w)[k]
  {
    var prev := Curve(order + (m - 1), scale, w);
    assert Curve(order + m, scale, w) == Expand(prev, w);
    ExpandKeepsPoint(prev, w, k);
  }

  lemma ExpandKeepsPoint(prev: seq<Point>, w: Point, k: nat)
    requires k < |prev|
    ensures |Expand(prev, w)| == 4 * |prev|
    ensures Expand(prev, w)[4 * k] == prev[k]
  {
    ExpandAt(prev, w, k, 0);
  }

  lemma Pow4Step(m: nat, i: nat)
    requires m > 0
    ensures Pow4(m) * i == 4 * (Pow4(m - 1) * i)
  {
    var p := Pow4(m - 1);
    assert Pow4(m) == 4 * p;
    assert (4 * p) * i == 4 * (p * i);
  }

  /** Scaling both endpoints of an edge by k scales each point of its bump by k. */
  lemma BumpScales(a: Point, b: Point, w: Point, k: real, j: nat)
    requires j < 4
    ensures Bump(a.Scaled(k), b.Scaled(k), w)[j] == Bump(a, b, w)[j].Scaled(k)
  {
    var x, y := (b.re - a.re) / 6.0, (b.im - a.im) / 6.0;
    var ka, kb := a.Scaled(k), b.Scaled(k);
    ScaledDifference(k, a.re, b.re);
    ScaledDifference(k, a.im, b.im);
    assert (kb.re - ka.re) / 6.0 == k * x;
    assert (kb.im - ka.im) / 6.0 == k * y;
    BySixthScales(a, x, y, w, k, j);
  }

  lemma BySixthScales(a: Point, x: real, y: real, w: Point, k: real, j: nat)
    requires j < 4
    ensures BumpBySixth(a.Scaled(k), k * x, k * y, w)[j] == BumpBySixth(a, x, y, w)[j].Scaled(k)
  {
    if j == 1 {
      SlotScales1(a, x, y, w, k);
    } else if j == 2 {
      SlotScales2(a, x, y, w, k);
    } else if j == 3 {
      SlotScales3(a, x, y, w, k);
    }
  }

  lemma SlotScales1(a: Point, x: real, y: real, w: Point, k: real)
    ensures BumpBySixth(a.Scaled(k), k * x, k * y, w)[1] == BumpBySixth(a, x, y, w)[1].Scaled(k)
  {
    OffsetSlotScales(a, x, y, k);
  }

  lemma SlotScales2(a: Point, x: real, y: real, w: Point, k: real)
    ensures BumpBySixth(a.Scaled(k), k * x, k * y, w)[2] == BumpBySixth(a, x, y, w)[2].Scaled(k)
  {
    ApexSlotScales(a, x, y, w, k);
  }

  lemma SlotScales3(a: Point, x: real, y: real, w: Point, k: real)
    ensures BumpBySixth(a.Scaled(k), k * x, k * y, w)[3] == BumpBySixth(a, x, y, w)[3].Scaled(k)
  {
    OffsetSlotScales(a, x, y, k);
  }

  lemma OffsetSlotScales(a: Point, x: real, y: real, k: real)
    ensures Point(k * a.re + 2.0 * (k * x), k * a.im + 2.0 * (k * y)) == Point(a.re + 2.0 * x, a.im + 2.0 * y).Scaled(k)
    ensures Point(k * a.re + 4.0 * (k * x), k * a.im + 4.0 * (k * y)) == Point(a.re + 4.0 * x, a.im + 4.0 * y).Scaled(k)
  {
    ScaledOffset(k, a.re, x);
    ScaledOffset(k, a.im, y);
  }

  lemma ApexSlotScales(a: Point, x: real, y: real, w: Point, k: real)
    ensures Point(k * a.re + 3.0 * (k * x) + ((k * x) * w.re - (k * y) * w.im),
                  k * a.im + 3.0 * (k * y) + ((k * x) * w.im + (k * y) * w.re))
         == Point(a.re + 3.0 * x + (x * w.re - y * w.im), a.im + 3.0 * y + (x * w.im + y * w.re)).Scaled(k)
  {
    ScaledApex(k, a.re, a.im, x, y, w.re, w.im);
  }

  /** k * ((q - p)/6) == (k*q - k*p)/6 */
  lemma ScaledDifference(k: real, p: real, q: real)
    ensures (k * q - k * p) / 6.0 == k * ((q - p) / 6.0)
  {
  }

  lemma ScaledOffset(k: real, p: real, x: real)
    ensures k * (p + 2.0 * x) == k * p + 2.0 * (k * x)
    ensures k * (p + 4.0 * x) == k * p + 4.0 * (k * x)
  {
  }

  lemma ScaledApex(k: real, p: real, q: real, x: real, y: real, c: real, s: real)
    ensures k * (p + 3.0 * x + (x * c - y * s)) == k * p + 3.0 * (k * x) + ((k * x) * c - (k * y) * s)
    ensures k * (q + 3.0 * y + (x * s + y * c)) == k * q + 3.0 * (k * y) + ((k * x) * s + (k * y) * c)
  {
  }

  lemma ExpandScales(prev: seq<Point>, w: Point, k: real)
    ensures Expand(ScaleAll(prev, k), w) == ScaleAll(Expand(prev, w), k)
  {
    var sp := ScaleAll(prev, k);
    var n := |prev|;
    ExpandLength(prev, w);
    ExpandLength(sp, w);
    forall p | 0 <= p < 4 * n
      ensures Expand(sp, w)[p] == ScaleAll(Expand(prev, w), k)[p]
    {
      var i, j := p / 4, p % 4;
      ExpandAt(prev, w, i, j);
      ExpandAt(sp, w, i, j);
      BumpScales(prev[i], prev[(i + 1) % n], w, k, j);
    }
  }

  lemma SeedScales(scale: real, k: real)
    ensures Seed(k * scale) == ScaleAll(Seed(scale), k)
  {
    var sk := ScaleAll(Seed(scale), k);
    assert k * 0.0 == 0.0 && k * -scale == -(k * scale);
    assert sk[0] == Point(k * scale, 0.0) && sk[1] == Point(0.0, k * scale);
    assert sk[2] == Point(-(k * scale), 0.0) && sk[3] == Point(0.0, -(k * scale));
  }

  /** Scaling the seed by k scales every point of every order by k. */
  lemma {:induction false} CurveScales(order: nat, scale: real, w: Point, k: real)
    ensures Curve(order, k * scale, w) == ScaleAll(Curve(order, scale, w), k)
  {
    if order == 0 {
      SeedScales(scale, k);
    } else {
      CurveScales(order - 1, scale, w, k);
      ExpandScales(Curve(order - 1, scale, w), w, k);
    }
  }

  // ---------------------------------------------------------------------
  // The source's procedure

  /** One expansion step as the source runs it: a preallocated array of
      4n zeros, filled slot by slot while walking the cyclic edges. */
  method ExpandStep(prev: seq<Point>, w: Point) returns (next: seq<Point>)
    ensures next == Expand(prev, w)
    ensures |next| == 4 * |prev|
    ensures forall i :: 0 <= i < |prev| ==> next[4 * i] == prev[i]
  {
    var n := |prev|;
    // every slot starts as the origin, Point's default value
    var result := new Point[n * 4];
    ghost var spec := Expand(prev, w);
    ExpandLength(prev, w);
    for i := 0 to n
      invariant forall p :: 0 <= p < 4 * i ==> result[p] == spec[p]
    {
      NextIndex(i, n);
      var a, b := prev[i], prev[(i + 1) % n];
      var c, d, e := EdgePoints(a, b, w);
      ExpandSlots(prev, w, i, a, b, c, d, e);
      result[4 * i] := a;
      result[4 * i + 1] := c;
      result[4 * i + 2] := d;
      result[4 * i + 3] := e;
    }
    next := result[..];
    ExpandKeepsPoints(prev, w);
  }

  /** The three new points of one edge a -> b, computed as the source does:
      c at one third, e at two thirds and the apex d from the midpoint. */
  method EdgePoints(a: Point, b: Point, w: Point) returns (c: Point, d: Point, e: Point)
    ensures [a, c, d, e] == Bump(a, b, w)
  {
    c := a.Plus(b.Minus(a).Over(3.0));
    d := a.Plus(b.Minus(a).Over(2.0)).Plus(b.Minus(a).Over(6.0).Times(w));
    e := a.Plus(b.Minus(a).Scaled(2.0).Over(3.0));
    var x, y := (b.re - a.re) / 6.0, (b.im - a.im) / 6.0;
    SixthsOfEdge(a, b, x, y);
    assert c == Point(a.re + 2.0 * x, a.im + 2.0 * y);
    assert Point(x, y).Times(w) == Point(x * w.re - y * w.im, x * w.im + y * w.re);
    assert d == Point(a.re + 3.0 * x + (x * w.re - y * w.im), a.im + 3.0 * y + (x * w.im + y * w.re));
    assert e == Point(a.re + 4.0 * x, a.im + 4.0 * y);
    assert Bump(a, b, w) == BumpBySixth(a, x, y, w);
    assert BumpBySixth(a, x, y, w)[1] == c;
    assert BumpBySixth(a, x, y, w)[2] == d;
    assert BumpBySixth(a, x, y, w)[3] == e;
    assert |BumpBySixth(a, x, y, w)| == 4;
  }

  /** The thirds, half and sixth of the edge b - a in terms of its sixth. */
  lemma SixthsOfEdge(a: Point, b: Point, x: real, y: real)
    requires x == (b.re - a.re) / 6.0 && y == (b.im - a.im) / 6.0
    ensures b.Minus(a).Over(3.0) == Point(2.0 * x, 2.0 * y) &&
      b.Minus(a).Over(2.0) == Point(3.0 * x, 3.0 * y) &&
      b.Minus(a).Over(6.0) == Point(x, y) &&
      b.Minus(a).Scaled(2.0).Over(3.0) == Point(4.0 * x, 4.0 * y)
  {
  }

  /** The four slots an iteration of ExpandStep writes. */
  lemma ExpandSlots(prev: seq<Point>, w: Point, i: nat, a: Point, b: Point, c: Point, d: Point, e: Point)
    requires i < |prev| && a == prev[i] && b == prev[(i + 1) % |prev|]
    requires Bump(a, b, w) == [a, c, d, e]
    ensures |Expand(prev, w)| == 4 * |prev|
    ensures Expand(prev, w)[4 * i] == a && Expand(prev, w)[4 * i + 1] == c
    ensures Expand(prev, w)[4 * i + 2] == d && Expand(prev, w)[4 * i + 3] == e
  {
    ExpandAt(prev, w, i, 0);
    ExpandAt(prev, w, i, 1);
    ExpandAt(prev, w, i, 2);
    ExpandAt(prev, w, i, 3);
  }

  /** `_koch_curve_complex`: the seed, or one expansion of the previous order. */
  method CurveComplex(order: nat, scale: real, w: Point) returns (points: seq<Point>)
    ensures points == Curve(order, scale, w)
    ensures |points| == Pow4(order + 1)
    decreases order
  {
    if order == 0 {
      points := [Point(scale, 0.0), Point(0.0, scale), Point(-scale, 0.0), Point(0.0, -scale)];
    } else {
      var prev := CurveComplex(order - 1, scale, w);
      points := ExpandStep(prev, w);
    }
    CurveLength(order, scale, w);
  }

  /** `koch_curve`: the real and imaginary parts of the curve's points. */
  method KochCurve(order: nat, scale: real, w: Point) returns (xs: seq<real>, ys: seq<real>)
    ensures |xs| == |ys| == |Curve(order, scale, w)| == Pow4(order + 1)
    ensures forall i :: 0 <= i < |xs| ==> Point(xs[i], ys[i]) == Curve(order, scale, w)[i]
  {
    var points := CurveComplex(order, scale, w);
    xs := seq(|points|, i requires 0 <= i < |points| => points[i].re);
    ys := seq(|points|, i requires 0 <= i < |points| => points[i].im);
  }
}
