/** A model of `Line2` (line2.js): an infinite line in the plane stored as an
    optional slope and two optional intercepts, with queries that branch on
    whether the line is horizontal, vertical or diagonal.

    Coordinates are exact reals. A JavaScript `null` read from an unset field
    is `None`; where the source feeds such a `null` into arithmetic it counts
    as 0 (`OrZero`). A query result that would be `null`, an infinity or NaN
    in the source is `None` (or `NonFinite` for an intersection). */
module Line2 {

  datatype Option<T> = None | Some(value: T)

  /** A coordinate pair: the external `Vec2` value type, compared exactly. */
  datatype Point = Point(x: real, y: real)

  function Sub(a: Point, b: Point): Point { Point(a.x - b.x, a.y - b.y) }

  function Dot(a: Point, b: Point): real { a.x * b.x + a.y * b.y }

  function Scale(t: real, a: Point): Point { Point(t * a.x, t * a.y) }

  /** The squared Euclidean distance between two points. */
  function SqDist(a: Point, b: Point): real { Dot(Sub(a, b), Sub(a, b)) }

  /** A stored slope: a finite number, or the infinite slope of a vertical
      line (the source's `Infinity`; both signs are one value here). */
  datatype Slope = Finite(m: real) | Vertical

  /** What line-line intersection reports. The source returns `true` for
      `Coincident`, `false` for `Parallel` and a `Vec2` for `At`; `NonFinite`
      stands for the NaN point its determinant branch computes when it
      divides by a zero or unset slope. */
  datatype Intersection = At(p: Point) | Coincident | Parallel | NonFinite

  /** What the segment test reports: a crossing point, collinear overlap (the
      source's `true`) or no intersection (`false`). */
  datatype SegmentHit = Crossing(p: Point) | Overlap | Miss

  /** JavaScript arithmetic on a getter's result: `null` counts as 0. */
  function OrZero(v: Option<real>): real
  {
    if v.Some? then v.value else 0.0
  }

  /** JavaScript truthiness of the slope getter's result: `null` and 0 are falsy. */
  predicate Truthy(s: Option<Slope>)
  {
    match s
    case None => false
    case Some(Finite(m)) => m != 0.0
    case Some(Vertical) => true
  }

  /** The source's `finite`: true of everything but an infinity, `null` included. */
  predicate NotInfinite(s: Option<Slope>): (b: bool)
    ensures b <==> s != Some(Vertical)
  {
    match s
    case Some(Vertical) => false
    case _ => true
  }

  /** The source's `det`: the 2x2 determinant of the rows (x1, y1) and (x2, y2). */
  function Det(x1: real, y1: real, x2: real, y2: real): real
  {
    x1 * y2 - y1 * x2
  }

  /** The determinant formula that ends the finite-slope branch of
      `intersect`: where the line through (x1,y1),(x2,y2) meets the line
      through (x3,y3),(x4,y4). A zero denominator gives no finite point. */
  function DetPoint(x1: real, y1: real, x2: real, y2: real,
                    x3: real, y3: real, x4: real, y4: real): (r: Intersection)
    ensures r.At? <==> Det(x1 - x2, y1 - y2, x3 - x4, y3 - y4) != 0.0
    ensures !r.At? ==> r == NonFinite
  {
    var a := Det(x1, y1, x2, y2);
    var b := Det(x3, y3, x4, y4);
    var xnum := Det(a, x1 - x2, b, x3 - x4);
    var ynum := Det(a, y1 - y2, b, y3 - y4);
    var den := Det(x1 - x2, y1 - y2, x3 - x4, y3 - y4);
    if den == 0.0 then NonFinite else At(Point(xnum / den, ynum / den))
  }

  class Line2 {
    var slope: Option<Slope>
    var yintercept: Option<real>
    var xintercept: Option<real>

    /** `new Line2(slope, yintercept)`: each argument that is given is stored
        through its setter; `new Line2()` leaves all three fields unset. */
    constructor (s: Option<Slope>, yi: Option<real>)
      ensures slope == s && yintercept == yi && xintercept == None
    {
      slope, yintercept, xintercept := None, None, None;
      new;
      if s.Some? {
        var r := SetSlope(s.value);
      }
      if yi.Some? {
        var r := SetYIntercept(yi.value);
      }
    }

    /** The setter form of `yintercept(val)`: stores `val` and returns it. */
    method SetYIntercept(val: real) returns (r: Option<real>)
      modifies this
      ensures yintercept == Some(val) && r == yintercept
      ensures slope == old(slope) && xintercept == old(xintercept)
    {
      yintercept := Some(val);
      r := yintercept;
    }

    /** The setter form of `xintercept(val)`: stores `val` and returns it. */
    method SetXIntercept(val: real) returns (r: Option<real>)
      modifies this
      ensures xintercept == Some(val) && r == xintercept
      ensures slope == old(slope) && yintercept == old(yintercept)
    {
      xintercept := Some(val);
      r := xintercept;
    }

    /** The setter form of `slope(val)`: stores `val` and returns it. */
    method SetSlope(val: Slope) returns (r: Option<Slope>)
      modifies this
      ensures slope == Some(val) && r == slope
      ensures yintercept == old(yintercept) && xintercept == old(xintercept)
    {
      slope := Some(val);
      r := slope;
    }

    /** `isHorizontal`: the slope is falsy. */
    predicate IsHorizontal()
      reads this
      ensures IsHorizontal() <==> slope == None || slope == Some(Finite(0.0))
    {
      !Truthy(slope)
    }

    /** `isVertical`: the slope is not finite. */
    predicate IsVertical()
      reads this
      ensures IsVertical() <==> slope == Some(Vertical)
      ensures IsVertical() ==> !IsHorizontal()
    {
      !NotInfinite(slope)
    }

    /** Neither horizontal nor vertical. */
    predicate IsDiagonal()
      reads this
      ensures IsDiagonal() <==> slope.Some? && slope.value.Finite? && slope.value.m != 0.0
    {
      !IsHorizontal() && !IsVertical()
    }

    /** The intercept that the line's regime reads is set. */
    predicate Defined()
      reads this
    {
      if IsVertical() then xintercept.Some? else yintercept.Some?
    }

    /** `containsPoint`: exact membership, by regime. */
    predicate ContainsPoint(v: Point)
      reads this
    {
      if IsHorizontal() then yintercept == Some(v.y)
      else if IsVertical() then xintercept == Some(v.x)
      else v.y == slope.value.m * v.x + OrZero(yintercept)
    }

    /** A non-zero direction vector along the line. */
    function Direction(): (d: Point)
      reads this
      ensures d != Point(0.0, 0.0)
    {
      if IsHorizontal() then Point(1.0, 0.0)
      else if IsVertical() then Point(0.0, 1.0)
      else Point(1.0, slope.value.m)
    }

    /** `solveForX`: the x at which the line reaches height `y`. */
    function SolveForX(y: real): (x: Option<real>)
      reads this
      ensures x.Some? <==> IsDiagonal() || (IsVertical() && xintercept.Some?)
      ensures IsVertical() ==> x == xintercept
      ensures x.Some? ==> ContainsPoint(Point(x.value, y))
    {
      if IsVertical() then xintercept
      else if IsDiagonal() then Some((y - OrZero(yintercept)) / slope.value.m)
      else
        // dividing by a zero or null slope gives an infinity or NaN
        None
    }

    /** `solveForY`: the height of the line at `x`. */
    function SolveForY(x: real): (y: Option<real>)
      reads this
      ensures y.Some? <==> IsDiagonal() || (IsHorizontal() && yintercept.Some?)
      ensures IsHorizontal() ==> y == yintercept
      ensures y.Some? ==> ContainsPoint(Point(x, y.value))
    {
      if IsHorizontal() then yintercept
      else if IsDiagonal() then Some(slope.value.m * x + OrZero(yintercept))
      else
        // an infinite slope times x is an infinity or NaN
        None
    }

    /** The finite-slope branch of `intersect`: sample each line at heights
        -1 and 1, then apply the determinant formula. Only two diagonal lines
        with different slopes give a point, and it lies on both. */
    function DetIntersect(line: Line2): (r: Intersection)
      reads this, line
      ensures r.At? <==> IsDiagonal() && line.IsDiagonal() && slope != line.slope
      ensures r.At? ==> ContainsPoint(r.p) && line.ContainsPoint(r.p)
      ensures !r.At? ==> r == NonFinite
    {
      var x1 := line.SolveForX(-1.0);
      var x2 := line.SolveForX(1.0);
      var x3 := SolveForX(-1.0);
      var x4 := SolveForX(1.0);
      if x1.None? || x2.None? || x3.None? || x4.None? then NonFinite
      else
        var y1 := line.SolveForY(x1.value);
        var y2 := line.SolveForY(x2.value);
        var y3 := SolveForY(x3.value);
        var y4 := SolveForY(x4.value);
        if y1.None? || y2.None? || y3.None? || y4.None? then NonFinite
        else
          var r := DetPoint(x1.value, y1.value, x2.value, y2.value,
                            x3.value, y3.value, x4.value, y4.value);
          DetSamples(this, line, x1.value, x2.value, x3.value, x4.value);
          r
    }

    /** Line-line `intersect`, with `x` the x-coordinate its vertical branch
        uses: equal slopes give no point, the finite-slope branch is
        `DetIntersect`, and a vertical line against a non-vertical one gives
        the point of the non-vertical line above `x`. */
    function IntersectUsing(line: Line2, x: Option<real>): (r: Intersection)
      reads this, line
      ensures r.Coincident? || r.Parallel? <==> slope == line.slope
      ensures r.Coincident? <==>
                slope == line.slope && yintercept == line.yintercept && xintercept == line.xintercept
      ensures slope != line.slope && !IsVertical() && !line.IsVertical() ==>
                (r.At? <==> IsDiagonal() && line.IsDiagonal()) &&
                (r.At? ==> ContainsPoint(r.p) && line.ContainsPoint(r.p))
      ensures IsVertical() != line.IsVertical() ==> r.At? && r.p.x == OrZero(x)
      ensures IsVertical() && !line.IsVertical() && line.Defined() ==> line.ContainsPoint(r.p)
      ensures !IsVertical() && line.IsVertical() && Defined() ==> ContainsPoint(r.p)
    {
      if slope == line.slope then
        if yintercept == line.yintercept && xintercept == line.xintercept
        then Coincident else Parallel
      else if NotInfinite(slope) && NotInfinite(line.slope) then
        DetIntersect(line)
      else
        var s := if !NotInfinite(slope) then line.slope else slope;
        var yi := if !NotInfinite(slope) then line.yintercept else yintercept;
        // a null slope multiplies as 0
        var m := if s.Some? && s.value.Finite? then s.value.m else 0.0;
        if s != Some(Finite(0.0)) then At(Point(OrZero(x), OrZero(x) * m + OrZero(yi)))
        else At(Point(OrZero(x), OrZero(yi)))
    }

    /** Line-line `intersect` as written: the vertical branch takes
        `this.xintercept() || line.xintercept()`. */
    function IntersectAsWritten(line: Line2): (r: Intersection)
      reads this, line
      ensures ((IsVertical() ==> line.xintercept == None) &&
               (line.IsVertical() ==> xintercept == None)) ==> r == Intersect(line)
    {
      IntersectUsing(line, if xintercept.Some? && xintercept.value != 0.0 then xintercept
                           else line.xintercept)
    }

    /** Line-line `intersect`, with the vertical branch taking the vertical
        line's xintercept. */
    function Intersect(line: Line2): (r: Intersection)
      reads this, line
      ensures r.Coincident? || r.Parallel? <==> slope == line.slope
      ensures r.Coincident? <==>
                slope == line.slope && yintercept == line.yintercept && xintercept == line.xintercept
      ensures IsVertical() != line.IsVertical() ==> r.At?
    {
      IntersectUsing(line, if IsVertical() then xintercept else line.xintercept)
    }

    /** `intersectSegment` for the segment (x1,y1)-(x2,y2). A segment parallel
        to the line is settled by an exact test; otherwise the line is cut to
        a finite segment and handed to the segment-segment collaborator. */
    function IntersectSegment(x1: real, y1: real, x2: real, y2: real,
                              segseg: (Point, Point, Point, Point) -> SegmentHit): (r: SegmentHit)
      reads this
      ensures x1 == x2 && IsVertical() ==>
                (r == Overlap || r == Miss) &&
                (r == Overlap <==> ContainsPoint(Point(x1, y1)) && ContainsPoint(Point(x2, y2)))
      ensures x1 != x2 && y1 == y2 && IsHorizontal() ==>
                (r == Overlap || r == Miss) &&
                (r == Overlap <==> ContainsPoint(Point(x1, y1)) && ContainsPoint(Point(x2, y2)))
      ensures x1 != x2 && y1 != y2 && slope == Some(Finite((y2 - y1) / (x2 - x1))) ==>
                (r == Overlap || r == Miss) &&
                (r == Overlap <==> ContainsPoint(Point(x1, y1)) && ContainsPoint(Point(x2, y2)))
      ensures !(x1 == x2 && IsVertical()) && !(x1 != x2 && y1 == y2 && IsHorizontal()) &&
              !(x1 != x2 && y1 != y2 && slope == Some(Finite((y2 - y1) / (x2 - x1)))) ==>
                r == segseg(PaddedLine(x1, y1, x2, y2).0, PaddedLine(x1, y1, x2, y2).1,
                            Point(x1, y1), Point(x2, y2))
    {
      var dx := x2 - x1;
      var dy := y2 - y1;
      if dx == 0.0 && IsVertical() then
        if xintercept == Some(x1) then Overlap else Miss
      else if dx != 0.0 && dy == 0.0 && IsHorizontal() then
        if yintercept == Some(y1) then Overlap else Miss
      else if dx != 0.0 && dy != 0.0 && slope == Some(Finite(dy / dx)) then
        if y1 == dy / dx * x1 + OrZero(yintercept) then Overlap else Miss
      else
        var (a, b) := PaddedLine(x1, y1, x2, y2);
        segseg(a, b, Point(x1, y1), Point(x2, y2))
    }

    /** The finite stand-in for the line used by `intersectSegment`: it runs
        10 units past the segment's x range (its y range for a vertical line). */
    function PaddedLine(x1: real, y1: real, x2: real, y2: real): (ends: (Point, Point))
      reads this
      ensures Defined() ==> ContainsPoint(ends.0) && ContainsPoint(ends.1)
      ensures !IsVertical() ==>
                ends.0.x + 10.0 == (if x1 < x2 then x1 else x2) &&
                ends.1.x - 10.0 == (if x1 < x2 then x2 else x1)
      ensures IsVertical() ==>
                ends.0.y + 10.0 == (if y1 < y2 then y1 else y2) &&
                ends.1.y - 10.0 == (if y1 < y2 then y2 else y1)
    {
      var lx1 := if x1 > x2 then x2 - 10.0 else x1 - 10.0;
      var lx2 := if x1 > x2 then x1 + 10.0 else x2 + 10.0;
      if IsHorizontal() then
        (Point(lx1, OrZero(yintercept)), Point(lx2, OrZero(yintercept)))
      else if IsVertical() then
        var ly1 := if y1 > y2 then y2 - 10.0 else y1 - 10.0;
        var ly2 := if y1 > y2 then y1 + 10.0 else y2 + 10.0;
        (Point(OrZero(xintercept), ly1), Point(OrZero(xintercept), ly2))
      else
        (Point(lx1, slope.value.m * lx1 + OrZero(yintercept)),
         Point(lx2, slope.value.m * lx2 + OrZero(yintercept)))
    }

    /** `Line2.fromPoints(x1, y1, x2, y2)` (and the four-argument constructor,
        which delegates to it). */
    static method FromPoints(x1: real, y1: real, x2: real, y2: real) returns (line: Line2)
      requires x1 != x2 || y1 != y2
      ensures fresh(line)
      ensures x1 != x2 ==>
                line.slope == Some(Finite((y2 - y1) / (x2 - x1))) &&
                line.yintercept == Some(y1 - (y2 - y1) / (x2 - x1) * x1) &&
                line.xintercept == None
      ensures x1 == x2 ==>
                line.slope == Some(Vertical) && line.xintercept == Some(x2) &&
                line.yintercept == None
      ensures line.Defined()
      ensures line.ContainsPoint(Point(x1, y1)) && line.ContainsPoint(Point(x2, y2))
    {
      line := new Line2(None, None);
      // (y2 - y1) / (x2 - x1) is an infinity when the run is zero
      var s := if x1 != x2 then Finite((y2 - y1) / (x2 - x1)) else Vertical;
      var r := line.SetSlope(s);
      if line.IsHorizontal() {
        var yi := line.SetYIntercept(y1);
      } else if line.IsVertical() {
        var xi := line.SetXIntercept(x2);
      } else {
        var yi := line.SetYIntercept(y1 - s.m * x1);
        assert y2 == s.m * x2 + (y1 - s.m * x1) by {
          assert s.m * (x2 - x1) == y2 - y1;
        }
      }
    }

    /** `createPerpendicular`: a new line through `v` at right angles to this one. */
    method CreatePerpendicular(v: Point) returns (l: Line2)
      ensures fresh(l)
      ensures IsVertical() ==>
                l.slope == Some(Finite(0.0)) && l.yintercept == Some(v.y) && l.xintercept == None
      ensures IsHorizontal() ==>
                l.slope == Some(Vertical) && l.xintercept == Some(v.x) && l.yintercept == None
      ensures IsDiagonal() ==>
                l.slope == Some(Finite(-1.0 / slope.value.m)) &&
                slope.value.m * l.slope.value.m == -1.0 &&
                l.yintercept == Some(v.y + v.x / slope.value.m) && l.xintercept == None
      ensures l.Defined() && l.ContainsPoint(v)
      ensures Dot(Direction(), l.Direction()) == 0.0
    {
      if IsVertical() {
        l := new Line2(Some(Finite(0.0)), Some(v.y));
      } else if IsHorizontal() {
        l := new Line2(None, None);
        var xi := l.SetXIntercept(v.x);
        var s := l.SetSlope(Vertical);
      } else {
        var perpSlope := -1.0 / slope.value.m;
        l := new Line2(Some(Finite(perpSlope)), Some(v.y - perpSlope * v.x));
        assert v.y - perpSlope * v.x == v.y + v.x / slope.value.m;
      }
    }

    /** `closestPointTo`: the orthogonal projection of `v` onto the line. */
    method ClosestPointTo(v: Point) returns (p: Point)
      ensures Defined() ==> ContainsPoint(p)
      ensures Dot(Sub(v, p), Direction()) == 0.0
      ensures Defined() ==> forall q :: ContainsPoint(q) ==> SqDist(v, p) <= SqDist(v, q)
    {
      if IsHorizontal() {
        p := Point(v.x, OrZero(yintercept));
      } else if IsVertical() {
        p := Point(OrZero(xintercept), v.y);
      } else {
        var perp := CreatePerpendicular(v);
        PerpendicularFoot(this, perp, v);
        p := Intersect(perp).p;
      }
      if Defined() {
        ProjectionIsClosestAll(this, v, p);
      }
    }
  }

  /** `fromPoints` does not depend on the order of its two points: the lines
      built from (x1, y1), (x2, y2) and from (x2, y2), (x1, y1) coincide. */
  method FromPointsReversed(x1: real, y1: real, x2: real, y2: real) returns (r: Intersection)
    requires x1 != x2 || y1 != y2
    ensures r == Coincident
  {
    var a := Line2.FromPoints(x1, y1, x2, y2);
    var b := Line2.FromPoints(x2, y2, x1, y1);
    if x1 != x2 {
      ReversedRun(x1, y1, x2, y2);
    }
    assert a.slope == b.slope && a.yintercept == b.yintercept && a.xintercept == b.xintercept;
    r := a.Intersect(b);
  }

  /** Rise over run, and the intercept it gives, are the same read from
      either end. */
  lemma ReversedRun(x1: real, y1: real, x2: real, y2: real)
    requires x1 != x2
    ensures (y1 - y2) / (x1 - x2) == (y2 - y1) / (x2 - x1)
    ensures y2 - (y1 - y2) / (x1 - x2) * x2 == y1 - (y2 - y1) / (x2 - x1) * x1
  {
    var s := (y2 - y1) / (x2 - x1);
    assert s * (x2 - x1) == y2 - y1;
    assert (y1 - y2) / (x1 - x2) == s by {
      assert s * (x1 - x2) == y1 - y2;
    }
    assert y2 - s * x2 == y1 - s * x1;
  }

  /** Any two pairs of distinct points on the non-vertical line y = m*x + c
      give, through `fromPoints`, lines that `intersect` reports as coincident. */
  method FromPointsSameLine(m: real, c: real, x1: real, x2: real, x3: real, x4: real)
      returns (r: Intersection)
    requires x1 != x2 && x3 != x4
    ensures r == Coincident
  {
    var y1, y2, y3, y4 := m * x1 + c, m * x2 + c, m * x3 + c, m * x4 + c;
    var a := Line2.FromPoints(x1, y1, x2, y2);
    SlopeOfLine(m, c, x1, y1, x2, y2);
    var b := Line2.FromPoints(x3, y3, x4, y4);
    SlopeOfLine(m, c, x3, y3, x4, y4);
    r := a.Intersect(b);
  }

  /** Two points of y = m*x + c at different x give, through the formulas of
      `fromPoints`, the slope m and the yintercept c. */
  lemma SlopeOfLine(m: real, c: real, xa: real, ya: real, xb: real, yb: real)
    requires xa != xb && ya == m * xa + c && yb == m * xb + c
    ensures (yb - ya) / (xb - xa) == m
    ensures ya - (yb - ya) / (xb - xa) * xa == c
  {
    assert yb - ya == m * (xb - xa);
  }

  /** The pair of lines of the "parallel" case in test/test.js: both pairs of
      points lie on y = x, so `intersect` reports the lines as coincident
      (`true`), not as parallel. */
  method SameLineTestPair() returns (r: Intersection)
    ensures r == Coincident
  {
    var l1 := Line2.FromPoints(0.0, 0.0, 10.0, 10.0);
    var l2 := Line2.FromPoints(5.0, 5.0, 50.0, 50.0);
    r := l1.Intersect(l2);
  }

  /** A pair of distinct parallel lines, y = x and y = x - 5: `intersect`
      reports them as parallel (`false`). */
  method ParallelTestPair() returns (r: Intersection)
    ensures r == Parallel
  {
    var l1 := Line2.FromPoints(0.0, 0.0, 10.0, 10.0);
    var l2 := Line2.FromPoints(5.0, 0.0, 50.0, 45.0);
    r := l1.Intersect(l2);
  }

  /** On a diagonal line, the intersection with the perpendicular through `v`
      is a point of the line whose offset from `v` is perpendicular to it. */
  lemma PerpendicularFoot(l: Line2, perp: Line2, v: Point)
    requires l.IsDiagonal() && perp.IsDiagonal()
    requires Dot(l.Direction(), perp.Direction()) == 0.0 && perp.ContainsPoint(v)
    ensures l.Intersect(perp).At? && l.ContainsPoint(l.Intersect(perp).p)
    ensures Dot(Sub(v, l.Intersect(perp).p), l.Direction()) == 0.0
  {
    var m := l.slope.value.m;
    assert l.slope != perp.slope by {
      assert 1.0 + m * perp.slope.value.m == 0.0;
      assert m * m >= 0.0;
    }
    IntersectDiagonal(l, perp);
    var p := l.Intersect(perp).p;
    var t := AlongDirection(perp, p, v);
    assert Dot(Sub(v, p), l.Direction()) == t * Dot(l.Direction(), perp.Direction());
  }

  /** A point of the line whose offset from `v` is perpendicular to the line is
      a closest point of the line to `v`. */
  lemma ProjectionIsClosestAll(l: Line2, v: Point, p: Point)
    requires l.ContainsPoint(p) && Dot(Sub(v, p), l.Direction()) == 0.0
    ensures forall q :: l.ContainsPoint(q) ==> SqDist(v, p) <= SqDist(v, q)
  {
    forall q | l.ContainsPoint(q)
      ensures SqDist(v, p) <= SqDist(v, q)
    {
      ProjectionIsClosest(l, v, p, q);
    }
  }

  /** Two points on a line differ by a multiple of its direction. */
  lemma AlongDirection(l: Line2, p: Point, q: Point) returns (t: real)
    requires l.ContainsPoint(p) && l.ContainsPoint(q)
    ensures Sub(q, p) == Scale(t, l.Direction())
  {
    if l.IsHorizontal() {
      t := q.x - p.x;
    } else if l.IsVertical() {
      t := q.y - p.y;
    } else {
      var m := l.slope.value.m;
      t := q.x - p.x;
      assert q.y - p.y == m * (q.x - p.x);
    }
  }

  /** A point of the line whose offset from `v` is perpendicular to the line is
      at least as close to `v` as every other point of the line. */
  lemma ProjectionIsClosest(l: Line2, v: Point, p: Point, q: Point)
    requires l.ContainsPoint(p) && l.ContainsPoint(q)
    requires Dot(Sub(v, p), l.Direction()) == 0.0
    ensures SqDist(v, p) <= SqDist(v, q)
  {
    var d := l.Direction();
    var w := Sub(v, p);
    var t := AlongDirection(l, p, q);
    assert Sub(v, q) == Point(w.x - t * d.x, w.y - t * d.y);
    ExpandOffset(w, d, t);
  }

  /** |w - t*d|^2 = |w|^2 - 2t(w.d) + t^2|d|^2, which is at least |w|^2 when
      w and d are perpendicular. */
  lemma ExpandOffset(w: Point, d: Point, t: real)
    requires Dot(w, d) == 0.0
    ensures Dot(w, w) <= Dot(Point(w.x - t * d.x, w.y - t * d.y), Point(w.x - t * d.x, w.y - t * d.y))
  {
    var e := Point(w.x - t * d.x, w.y - t * d.y);
    assert Dot(e, e) == Dot(w, w) - 2.0 * t * Dot(w, d) + (t * d.x) * (t * d.x) + (t * d.y) * (t * d.y);
    assert (t * d.x) * (t * d.x) >= 0.0 && (t * d.y) * (t * d.y) >= 0.0;
  }

  /** Exchanging the two lines fed to the determinant formula leaves its
      result unchanged. */
  lemma DetPointSymmetric(x1: real, y1: real, x2: real, y2: real,
                          x3: real, y3: real, x4: real, y4: real)
    ensures DetPoint(x3, y3, x4, y4, x1, y1, x2, y2) == DetPoint(x1, y1, x2, y2, x3, y3, x4, y4)
  {
    var a := Det(x1, y1, x2, y2);
    var b := Det(x3, y3, x4, y4);
    var xnum := Det(a, x1 - x2, b, x3 - x4);
    var ynum := Det(a, y1 - y2, b, y3 - y4);
    var den := Det(x1 - x2, y1 - y2, x3 - x4, y3 - y4);
    assert Det(b, x3 - x4, a, x1 - x2) == -xnum;
    assert Det(b, y3 - y4, a, y1 - y2) == -ynum;
    assert Det(x3 - x4, y3 - y4, x1 - x2, y1 - y2) == -den;
    if den != 0.0 {
      assert (-xnum) / (-den) == xnum / den;
      assert (-ynum) / (-den) == ynum / den;
    }
  }

  /** `det` changes sign when its rows (or its columns) are exchanged, and
      vanishes exactly when the second row is a multiple of the non-zero
      first one: n * (x2, y2) == k * (x1, y1), with n = x1*x1 + y1*y1 and k
      the dot product of the two rows. */
  lemma DetProperties(x1: real, y1: real, x2: real, y2: real)
    ensures Det(x2, y2, x1, y1) == -Det(x1, y1, x2, y2)
    ensures Det(y1, x1, y2, x2) == -Det(x1, y1, x2, y2)
    ensures (x1 != 0.0 || y1 != 0.0) ==>
              (Det(x1, y1, x2, y2) == 0.0 <==>
                 (x1 * x1 + y1 * y1) * x2 == (x1 * x2 + y1 * y2) * x1 &&
                 (x1 * x1 + y1 * y1) * y2 == (x1 * x2 + y1 * y2) * y1)
  {
    var d := Det(x1, y1, x2, y2);
    assert (x1 * x1 + y1 * y1) * x2 - (x1 * x2 + y1 * y2) * x1 == -y1 * d;
    assert (x1 * x1 + y1 * y1) * y2 - (x1 * x2 + y1 * y2) * y1 == x1 * d;
  }

  /** The two samples of the line y = m*x + c at heights -1 and 1: their
      x-distance and the sum of their x-coordinates in terms of m and c. */
  lemma SampleFacts(m: real, c: real, xa: real, xb: real)
    requires m != 0.0
    requires m * xa + c == -1.0 && m * xb + c == 1.0
    ensures m * (xa - xb) == -2.0
    ensures xa + xb == c * (xa - xb)
  {
    assert m * (xa + xb) == -2.0 * c;
    assert m * (xa + xb - c * (xa - xb)) == 0.0;
  }

  /** Dividing the line equation ynum = m*xnum + c*den through by den. */
  lemma DivideThrough(xnum: real, ynum: real, den: real, m: real, c: real)
    requires den != 0.0 && ynum == m * xnum + c * den
    ensures ynum / den == m * (xnum / den) + c
  {
  }

  /** Sampled at heights -1 and 1, two lines y = m1*x + b1 and y = m2*x + b2
      with distinct non-zero slopes meet, by the determinant formula, at a
      point that lies on both. */
  lemma DetPointMeets(x1: real, x2: real, x3: real, x4: real,
                      m1: real, b1: real, m2: real, b2: real)
    requires m1 != 0.0 && m2 != 0.0 && m1 != m2
    requires m2 * x1 + b2 == -1.0 && m2 * x2 + b2 == 1.0
    requires m1 * x3 + b1 == -1.0 && m1 * x4 + b1 == 1.0
    ensures var r := DetPoint(x1, -1.0, x2, 1.0, x3, -1.0, x4, 1.0);
            r.At? && r.p.y == m1 * r.p.x + b1 && r.p.y == m2 * r.p.x + b2
  {
    var u, v := x1 - x2, x3 - x4;
    SampleFacts(m2, b2, x1, x2);
    SampleFacts(m1, b1, x3, x4);
    var xnum := (x1 + x2) * v - u * (x3 + x4);
    var ynum := 2.0 * ((x3 + x4) - (x1 + x2));
    var den := 2.0 * (v - u);
    assert den != 0.0 by {
      assert m1 * m2 * (v - u) == m2 * (m1 * v) - m1 * (m2 * u);
      assert m1 * m2 * (v - u) == 2.0 * (m1 - m2);
    }
    assert DetPoint(x1, -1.0, x2, 1.0, x3, -1.0, x4, 1.0) == At(Point(xnum / den, ynum / den));
    assert xnum == u * v * (b2 - b1);
    assert ynum == 2.0 * (b1 * v - b2 * u);
    assert ynum == m1 * xnum + b1 * den by {
      assert m1 * xnum == (m1 * v) * u * (b2 - b1);
    }
    assert ynum == m2 * xnum + b2 * den by {
      assert m2 * xnum == (m2 * u) * v * (b2 - b1);
    }
    DivideThrough(xnum, ynum, den, m1, b1);
    DivideThrough(xnum, ynum, den, m2, b2);
  }

  /** Two diagonal lines with different slopes meet in one point, which lies
      on both lines; the order of the two lines does not matter. */
  lemma IntersectDiagonal(a: Line2, b: Line2)
    requires a.IsDiagonal() && b.IsDiagonal() && a.slope != b.slope
    ensures a.Intersect(b).At? && a.Intersect(b) == b.Intersect(a)
    ensures a.ContainsPoint(a.Intersect(b).p) && b.ContainsPoint(a.Intersect(b).p)
  {
    var m1, b1 := a.slope.value.m, OrZero(a.yintercept);
    var m2, b2 := b.slope.value.m, OrZero(b.yintercept);
    var x1, x2 := b.SolveForX(-1.0).value, b.SolveForX(1.0).value;
    var x3, x4 := a.SolveForX(-1.0).value, a.SolveForX(1.0).value;
    DiagonalHeight(b, x1, -1.0);
    DiagonalHeight(b, x2, 1.0);
    DiagonalHeight(a, x3, -1.0);
    DiagonalHeight(a, x4, 1.0);
    assert a.Intersect(b) == DetPoint(x1, -1.0, x2, 1.0, x3, -1.0, x4, 1.0);
    assert b.Intersect(a) == DetPoint(x3, -1.0, x4, 1.0, x1, -1.0, x2, 1.0);
    DetPointMeets(x1, x2, x3, x4, m1, b1, m2, b2);
    DetPointSymmetric(x1, -1.0, x2, 1.0, x3, -1.0, x4, 1.0);
  }

  /** What `DetIntersect` computes from the samples x1, x2 (of `line`, at
      heights -1 and 1) and x3, x4 (of `l`): when both lines are diagonal the
      sampled heights are exactly -1 and 1, and the determinant formula gives
      a point of both lines when the slopes differ and nothing when they agree. */
  lemma DetSamples(l: Line2, line: Line2, x1: real, x2: real, x3: real, x4: real)
    requires line.SolveForX(-1.0) == Some(x1) && line.SolveForX(1.0) == Some(x2)
    requires l.SolveForX(-1.0) == Some(x3) && l.SolveForX(1.0) == Some(x4)
    requires line.SolveForY(x1).Some? && line.SolveForY(x2).Some?
    requires l.SolveForY(x3).Some? && l.SolveForY(x4).Some?
    ensures l.IsDiagonal() && line.IsDiagonal()
    ensures line.SolveForY(x1) == Some(-1.0) && line.SolveForY(x2) == Some(1.0)
    ensures l.SolveForY(x3) == Some(-1.0) && l.SolveForY(x4) == Some(1.0)
    ensures var r := DetPoint(x1, -1.0, x2, 1.0, x3, -1.0, x4, 1.0);
            (r.At? <==> l.slope != line.slope) &&
            (r.At? ==> l.ContainsPoint(r.p) && line.ContainsPoint(r.p))
  {
    DiagonalHeight(line, x1, -1.0);
    DiagonalHeight(line, x2, 1.0);
    DiagonalHeight(l, x3, -1.0);
    DiagonalHeight(l, x4, 1.0);
    var m1, b1 := l.slope.value.m, OrZero(l.yintercept);
    var m2, b2 := line.slope.value.m, OrZero(line.yintercept);
    if m1 != m2 {
      DetPointMeets(x1, x2, x3, x4, m1, b1, m2, b2);
    } else {
      SampleFacts(m2, b2, x1, x2);
      SampleFacts(m1, b1, x3, x4);
      assert m1 * ((x1 - x2) - (x3 - x4)) == 0.0;
    }
  }

  /** The point where two diagonal lines with different slopes meet is the
      only point the two lines share. */
  lemma IntersectDiagonalUnique(a: Line2, b: Line2, q: Point)
    requires a.IsDiagonal() && b.IsDiagonal() && a.slope != b.slope
    requires a.ContainsPoint(q) && b.ContainsPoint(q)
    ensures a.Intersect(b) == At(q)
  {
    IntersectDiagonal(a, b);
    var p := a.Intersect(b).p;
    var m1, m2 := a.slope.value.m, b.slope.value.m;
    assert (m1 - m2) * (q.x - p.x) == 0.0;
    assert q.x == p.x;
  }

  /** Two non-vertical lines with different slopes, not both diagonal (one is
      horizontal or has no slope), make the determinant branch divide by zero. */
  lemma IntersectHorizontalNonFinite(a: Line2, b: Line2)
    requires !a.IsVertical() && !b.IsVertical() && a.slope != b.slope
    requires a.IsHorizontal() || b.IsHorizontal()
    ensures a.Intersect(b) == NonFinite
  {
  }

  /** A vertical line and a non-vertical one meet at the vertical line's
      xintercept, at the other line's height there, in either order. */
  lemma IntersectVertical(a: Line2, b: Line2)
    requires a.IsVertical() && !b.IsVertical()
    ensures a.Intersect(b).At? && a.Intersect(b) == b.Intersect(a)
    ensures a.Intersect(b).p.x == OrZero(a.xintercept)
    ensures b.Defined() ==> b.SolveForY(a.Intersect(b).p.x) == Some(a.Intersect(b).p.y)
    ensures a.Defined() && b.Defined() ==>
              a.ContainsPoint(a.Intersect(b).p) && b.ContainsPoint(a.Intersect(b).p)
  {
  }

  /** With its non-vertical line's xintercept set, the source's `intersect`
      answers with a point that is not on the vertical line: the diagonal
      y = x - 2 (xintercept 2) against the vertical x = 5 gives (2, 0)
      instead of (5, 3). */
  lemma IntersectAsWrittenMisses(a: Line2, b: Line2)
    requires a.slope == Some(Finite(1.0)) && a.yintercept == Some(-2.0) && a.xintercept == Some(2.0)
    requires b.slope == Some(Vertical) && b.xintercept == Some(5.0)
    ensures a.IntersectAsWritten(b) == At(Point(2.0, 0.0))
    ensures !b.ContainsPoint(a.IntersectAsWritten(b).p)
    ensures a.Intersect(b) == At(Point(5.0, 3.0))
  {
  }

  /** Equal slopes never yield a point: the lines coincide exactly when both
      intercepts agree, and are parallel otherwise. */
  lemma IntersectSameSlope(a: Line2, b: Line2)
    requires a.slope == b.slope
    ensures a.Intersect(b) == (if a.yintercept == b.yintercept && a.xintercept == b.xintercept
                               then Coincident else Parallel)
    ensures a.Intersect(b) == b.Intersect(a)
  {
  }

  /** On a diagonal line, `solveForY` gives the height of every point of the line. */
  lemma DiagonalHeight(l: Line2, x: real, y: real)
    requires l.IsDiagonal() && l.ContainsPoint(Point(x, y))
    ensures l.SolveForY(x) == Some(y)
  {
    assert !l.IsHorizontal() && !l.IsVertical();
    assert y == l.slope.value.m * x + OrZero(l.yintercept);
  }

  /** On a diagonal line `solveForX` and `solveForY` undo each other. */
  lemma SolveRoundTrip(l: Line2, x: real, y: real)
    requires l.IsDiagonal()
    ensures l.SolveForX(y).Some? && l.SolveForY(l.SolveForX(y).value) == Some(y)
    ensures l.SolveForY(x).Some? && l.SolveForX(l.SolveForY(x).value) == Some(x)
  {
    var m, c := l.slope.value.m, OrZero(l.yintercept);
    var x' := l.SolveForX(y).value;
    assert m * x' + c == y;
    DiagonalHeight(l, x', y);
    var y' := l.SolveForY(x).value;
    assert l.SolveForX(y') == Some((y' - c) / m);
    assert y' - c == m * x;
    assert (m * x) / m == x;
  }

  /** `containsPoint` agrees with `solveForY` on a non-vertical line and with
      `solveForX` on a vertical one. */
  lemma ContainsPointMatchesSolve(l: Line2, v: Point)
    ensures !l.IsVertical() ==> (l.ContainsPoint(v) <==> l.SolveForY(v.x) == Some(v.y))
    ensures l.IsVertical() ==> (l.ContainsPoint(v) <==> l.SolveForX(v.y) == Some(v.x))
  {
    if l.IsDiagonal() && l.ContainsPoint(v) {
      DiagonalHeight(l, v.x, v.y);
    }
  }
}
