/**
 * The camera-side vision target detector. Each frame, the filtered contours are reduced to
 * rotated rectangles, sorted by centre, and scanned for adjacent pairs whose tilt angles match
 * the left and right reflective strips; for a pair, four pixel corners are picked from the two
 * contours and handed to the pose solver, and the target's distance and offsets are reported.
 */
module TapeDetection {
  import opened Wrappers
  import opened Numerics

  // ---------------------------------------------------------------------------------------
  // Geometry of the two reflective strips (inches)

  const TARGET_STRIP_WIDTH: real := 2.0
  const TARGET_STRIP_LENGTH: real := 5.5
  const TARGET_STRIP_CORNER_OFFSET: real := 4.0

  datatype Point3 = Point3(x: real, y: real, z: real)

  /** The right strip's corners for a strip rotation with cosine `c` and sine `s`. */
  function RightStrip(c: real, s: real): (strip: seq<Point3>)
    ensures |strip| == 4
  {
    [ Point3(TARGET_STRIP_CORNER_OFFSET, 0.0, 0.0),
      Point3(TARGET_STRIP_CORNER_OFFSET + TARGET_STRIP_WIDTH * c, TARGET_STRIP_WIDTH * s, 0.0),
      Point3(TARGET_STRIP_CORNER_OFFSET + TARGET_STRIP_WIDTH * c + TARGET_STRIP_LENGTH * s,
             TARGET_STRIP_WIDTH * s - TARGET_STRIP_LENGTH * c, 0.0),
      Point3(TARGET_STRIP_CORNER_OFFSET + TARGET_STRIP_LENGTH * s, -TARGET_STRIP_LENGTH * c, 0.0) ]
  }

  /** Reflection in the target's vertical centre line. */
  function Mirror(strip: seq<Point3>): (m: seq<Point3>)
    ensures |m| == |strip|
    ensures forall i :: 0 <= i < |strip| ==> m[i] == Point3(-strip[i].x, strip[i].y, strip[i].z)
  {
    if strip == [] then [] else [Point3(-strip[0].x, strip[0].y, strip[0].z)] + Mirror(strip[1..])
  }

  /**
   * The class set-up: walk one corner point around the right strip, appending a copy at each
   * corner, then mirror it for the left strip.
   */
  method StripCorners(cosa: real, sina: real) returns (right: seq<Point3>, left: seq<Point3>)
    ensures right == RightStrip(cosa, sina)
    ensures left == Mirror(right)
  {
    var px, py, pz := TARGET_STRIP_CORNER_OFFSET, 0.0, 0.0;
    var strip := [Point3(px, py, pz)];
    px := px + TARGET_STRIP_WIDTH * cosa;
    py := py + TARGET_STRIP_WIDTH * sina;
    strip := strip + [Point3(px, py, pz)];
    px := px + TARGET_STRIP_LENGTH * sina;
    py := py - TARGET_STRIP_LENGTH * cosa;
    strip := strip + [Point3(px, py, pz)];
    px := px - TARGET_STRIP_WIDTH * cosa;
    py := py - TARGET_STRIP_WIDTH * sina;
    strip := strip + [Point3(px, py, pz)];
    right := strip;
    left := Mirror(right);
  }

  function Dot(a: Point3, b: Point3): real
  {
    a.x * b.x + a.y * b.y + a.z * b.z
  }

  function Sub(a: Point3, b: Point3): Point3
  {
    Point3(a.x - b.x, a.y - b.y, a.z - b.z)
  }

  /**
   * For a genuine rotation (c² + s² = 1) the right strip is a 2 by 5.5 rectangle: opposite
   * sides equal, the width and length perpendicular, of squared lengths 4 and 30.25.
   */
  lemma RightStripIsRectangle(c: real, s: real)
    requires c * c + s * s == 1.0
    ensures var r := RightStrip(c, s);
      && Sub(r[1], r[0]) == Sub(r[2], r[3])
      && Sub(r[2], r[1]) == Sub(r[3], r[0])
      && Dot(Sub(r[1], r[0]), Sub(r[2], r[1])) == 0.0
      && Dot(Sub(r[1], r[0]), Sub(r[1], r[0])) == TARGET_STRIP_WIDTH * TARGET_STRIP_WIDTH
      && Dot(Sub(r[2], r[1]), Sub(r[2], r[1])) == TARGET_STRIP_LENGTH * TARGET_STRIP_LENGTH
  {
    var r := RightStrip(c, s);
    var w := Sub(r[1], r[0]);
    var l := Sub(r[2], r[1]);
    assert w == Point3(2.0 * c, 2.0 * s, 0.0);
    assert l == Point3(5.5 * s, -5.5 * c, 0.0);
    assert Dot(w, w) == 4.0 * (c * c + s * s);
    assert Dot(l, l) == 30.25 * (c * c + s * s);
  }

  // ---------------------------------------------------------------------------------------
  // Rotated rectangles and their order

  /** A minimum-area rectangle: centre, size and tilt angle in degrees. */
  datatype Rect = Rect(cx: real, cy: real, width: real, height: real, angle: real)

  /** A contour: its pixel points and its minimum-area rectangle. */
  datatype Contour = Contour(points: seq<Point2>, rect: Rect)

  datatype Point2 = Point2(x: int, y: int)

  /** Python's order on the centre tuples: by x, then by y. */
  predicate CentreLe(a: Rect, b: Rect)
  {
    a.cx < b.cx || (a.cx == b.cx && a.cy <= b.cy)
  }

  function RectOf(c: Contour): Rect
  {
    c.rect
  }

  function SameRect(r: Rect): Rect
  {
    r
  }

  ghost predicate SortedBy<T>(s: seq<T>, rectOf: T -> Rect)
  {
    forall i, j :: 0 <= i < j < |s| ==> CentreLe(rectOf(s[i]), rectOf(s[j]))
  }

  /**
   * Inserts `x` before the first element whose centre it does not exceed, so ahead of any
   * equal ones: `x` stands for an element that came earlier in the input than all of `t`.
   */
  function InsertBy<T>(x: T, t: seq<T>, rectOf: T -> Rect): (r: seq<T>)
    ensures multiset(r) == multiset(t) + multiset{x}
    ensures |r| == |t| + 1
  {
    if t == [] then [x]
    else if CentreLe(rectOf(x), rectOf(t[0])) then [x] + t
    else
      assert t == [t[0]] + t[1..];
      [t[0]] + InsertBy(x, t[1..], rectOf)
  }

  /** Inserting an element that does not precede `lo` among such elements keeps them so. */
  lemma InsertByLowerBound<T>(x: T, t: seq<T>, rectOf: T -> Rect, lo: Rect)
    requires CentreLe(lo, rectOf(x)) && forall k :: 0 <= k < |t| ==> CentreLe(lo, rectOf(t[k]))
    ensures forall j :: 0 <= j < |InsertBy(x, t, rectOf)| ==> CentreLe(lo, rectOf(InsertBy(x, t, rectOf)[j]))
  {
    var r := InsertBy(x, t, rectOf);
    forall j | 0 <= j < |r|
      ensures CentreLe(lo, rectOf(r[j]))
    {
      assert r[j] in multiset(r);
      if r[j] != x {
        assert r[j] in multiset(t);
        var k :| 0 <= k < |t| && t[k] == r[j];
      }
    }
  }

  /** An element that precedes all of a sorted sequence can go in front of it. */
  lemma PrependSortedBy<T>(a: T, rest: seq<T>, rectOf: T -> Rect)
    requires SortedBy(rest, rectOf) && forall j :: 0 <= j < |rest| ==> CentreLe(rectOf(a), rectOf(rest[j]))
    ensures SortedBy([a] + rest, rectOf)
  {
    var r := [a] + rest;
    forall i, j | 0 <= i < j < |r|
      ensures CentreLe(rectOf(r[i]), rectOf(r[j]))
    {
      assert r[j] == rest[j - 1];
      if i > 0 {
        assert r[i] == rest[i - 1];
      }
    }
  }

  lemma {:induction false} InsertBySorted<T>(x: T, t: seq<T>, rectOf: T -> Rect)
    requires SortedBy(t, rectOf)
    ensures SortedBy(InsertBy(x, t, rectOf), rectOf)
  {
    if t != [] && !CentreLe(rectOf(x), rectOf(t[0])) {
      var rest := InsertBy(x, t[1..], rectOf);
      InsertBySorted(x, t[1..], rectOf);
      assert forall k :: 0 <= k < |t[1..]| ==> CentreLe(rectOf(t[0]), rectOf(t[1..][k])) by {
        forall k | 0 <= k < |t[1..]| ensures CentreLe(rectOf(t[0]), rectOf(t[1..][k])) {
          assert t[1..][k] == t[k + 1];
        }
      }
      InsertByLowerBound(x, t[1..], rectOf, rectOf(t[0]));
      PrependSortedBy(t[0], rest, rectOf);
      assert InsertBy(x, t, rectOf) == [t[0]] + rest;
    }
  }

  /** `list.sort(key=centre)`: sorted by centre and a permutation; stable by `SortByCentreIsStable`. */
  function SortByCentre<T>(s: seq<T>, rectOf: T -> Rect): (t: seq<T>)
    ensures SortedBy(t, rectOf)
    ensures multiset(t) == multiset(s)
    ensures |t| == |s|
  {
    if s == [] then []
    else
      assert s == [s[0]] + s[1..];
      InsertBySorted(s[0], SortByCentre(s[1..], rectOf), rectOf);
      InsertBy(s[0], SortByCentre(s[1..], rectOf), rectOf)
  }

  /** The elements whose rectangle is centred at (cx, cy), in their order. */
  function WithCentre<T>(s: seq<T>, rectOf: T -> Rect, cx: real, cy: real): (f: seq<T>)
    ensures |f| <= |s|
    ensures forall i :: 0 <= i < |f| ==> rectOf(f[i]).cx == cx && rectOf(f[i]).cy == cy
  {
    if s == [] then []
    else (if rectOf(s[0]).cx == cx && rectOf(s[0]).cy == cy then [s[0]] else []) + WithCentre(s[1..], rectOf, cx, cy)
  }

  lemma {:induction false} WithCentreConcat<T>(a: seq<T>, b: seq<T>, rectOf: T -> Rect, cx: real, cy: real)
    ensures WithCentre(a + b, rectOf, cx, cy) == WithCentre(a, rectOf, cx, cy) + WithCentre(b, rectOf, cx, cy)
  {
    if a != [] {
      assert (a + b)[0] == a[0] && (a + b)[1..] == a[1..] + b;
      WithCentreConcat(a[1..], b, rectOf, cx, cy);
    } else {
      assert a + b == b;
    }
  }

  /** Of two elements with different centres at most one is centred at (cx, cy). */
  lemma DistinctCentresCommute<T>(x: T, y: T, rectOf: T -> Rect, cx: real, cy: real)
    requires !CentreLe(rectOf(x), rectOf(y))
    ensures WithCentre([y], rectOf, cx, cy) + WithCentre([x], rectOf, cx, cy)
         == WithCentre([x], rectOf, cx, cy) + WithCentre([y], rectOf, cx, cy)
  {
    assert [x][1..] == [] && [y][1..] == [];
  }

  /** Inserting an element puts it ahead of every element with the same centre. */
  lemma {:induction false} InsertByKeepsTies<T>(x: T, t: seq<T>, rectOf: T -> Rect, cx: real, cy: real)
    ensures WithCentre(InsertBy(x, t, rectOf), rectOf, cx, cy)
         == WithCentre([x], rectOf, cx, cy) + WithCentre(t, rectOf, cx, cy)
  {
    if t == [] {
    } else if CentreLe(rectOf(x), rectOf(t[0])) {
      WithCentreConcat([x], t, rectOf, cx, cy);
    } else {
      InsertByKeepsTies(x, t[1..], rectOf, cx, cy);
      InsertPastSmaller(x, t, rectOf, cx, cy);
    }
  }

  /** The step of `InsertByKeepsTies` where `x` moves past a head centred strictly before it. */
  lemma InsertPastSmaller<T>(x: T, t: seq<T>, rectOf: T -> Rect, cx: real, cy: real)
    requires t != [] && !CentreLe(rectOf(x), rectOf(t[0]))
    requires WithCentre(InsertBy(x, t[1..], rectOf), rectOf, cx, cy)
          == WithCentre([x], rectOf, cx, cy) + WithCentre(t[1..], rectOf, cx, cy)
    ensures WithCentre(InsertBy(x, t, rectOf), rectOf, cx, cy)
         == WithCentre([x], rectOf, cx, cy) + WithCentre(t, rectOf, cx, cy)
  {
    var hx, h0 := WithCentre([x], rectOf, cx, cy), WithCentre([t[0]], rectOf, cx, cy);
    var tail := WithCentre(t[1..], rectOf, cx, cy);
    WithCentreAfterHead(t[0], InsertBy(x, t[1..], rectOf), rectOf, cx, cy);
    WithCentreAfterHead(t[0], t[1..], rectOf, cx, cy);
    DistinctCentresCommute(x, t[0], rectOf, cx, cy);
    SwapFront(h0, hx, tail);
    assert InsertBy(x, t, rectOf) == [t[0]] + InsertBy(x, t[1..], rectOf);
    assert [t[0]] + t[1..] == t;
  }

  lemma WithCentreAfterHead<T>(a: T, s: seq<T>, rectOf: T -> Rect, cx: real, cy: real)
    ensures WithCentre([a] + s, rectOf, cx, cy) == WithCentre([a], rectOf, cx, cy) + WithCentre(s, rectOf, cx, cy)
  {
    WithCentreConcat([a], s, rectOf, cx, cy);
  }

  lemma SwapFront<T>(a: seq<T>, b: seq<T>, c: seq<T>)
    requires a + b == b + a
    ensures a + (b + c) == b + (a + c)
  {
    assert a + (b + c) == (a + b) + c;
    assert b + (a + c) == (b + a) + c;
  }

  /**
   * The sort is stable: for every centre, the elements centred there appear in the sorted
   * sequence in the same order as in the input.
   */
  lemma {:induction false} SortByCentreIsStable<T>(s: seq<T>, rectOf: T -> Rect, cx: real, cy: real)
    ensures WithCentre(SortByCentre(s, rectOf), rectOf, cx, cy) == WithCentre(s, rectOf, cx, cy)
  {
    if s != [] {
      var t := SortByCentre(s[1..], rectOf);
      assert SortByCentre(s, rectOf) == InsertBy(s[0], t, rectOf);
      SortByCentreIsStable(s[1..], rectOf, cx, cy);
      InsertByKeepsTies(s[0], t, rectOf, cx, cy);
      WithCentreAfterHead(s[0], s[1..], rectOf, cx, cy);
      assert [s[0]] + s[1..] == s;
    }
  }

  function RectsOf(cs: seq<Contour>): (rs: seq<Rect>)
    ensures |rs| == |cs|
    ensures forall i :: 0 <= i < |cs| ==> rs[i] == cs[i].rect
  {
    if cs == [] then [] else [cs[0].rect] + RectsOf(cs[1..])
  }

  lemma {:induction false} InsertCommutesWithRects(x: Contour, t: seq<Contour>)
    ensures RectsOf(InsertBy(x, t, RectOf)) == InsertBy(x.rect, RectsOf(t), SameRect)
  {
    if t != [] {
      assert RectsOf(t)[0] == t[0].rect;
      assert RectsOf(t)[1..] == RectsOf(t[1..]);
      if !CentreLe(x.rect, t[0].rect) {
        InsertCommutesWithRects(x, t[1..]);
        assert RectsOf([t[0]] + InsertBy(x, t[1..], RectOf))
            == [t[0].rect] + RectsOf(InsertBy(x, t[1..], RectOf));
      } else {
        assert RectsOf([x] + t) == [x.rect] + RectsOf(t);
      }
    }
  }

  /** Sorting the contours by their rectangles puts the rectangles in their sorted order. */
  lemma {:induction false} SortCommutesWithRects(cs: seq<Contour>)
    ensures RectsOf(SortByCentre(cs, RectOf)) == SortByCentre(RectsOf(cs), SameRect)
  {
    if cs != [] {
      assert RectsOf(cs)[0] == cs[0].rect;
      assert RectsOf(cs)[1..] == RectsOf(cs[1..]);
      SortCommutesWithRects(cs[1..]);
      InsertCommutesWithRects(cs[0], SortByCentre(cs[1..], RectOf));
    }
  }

  // ---------------------------------------------------------------------------------------
  // Strip pairing

  /** The left strip's tilt window on the angle read as `int(angle)`: (-80, -40]. */
  predicate LeftStripAngle(angle: real)
  {
    -80 < Truncate(angle) <= -40
  }

  /** The right strip's tilt window on `int(angle)`: (-40, -10]. */
  predicate RightStripAngle(angle: real)
  {
    -40 < Truncate(angle) <= -10
  }

  /** Truncating the angle does not move the windows' edges: they hold on the exact angle. */
  lemma AngleWindowsOnReals(angle: real)
    ensures LeftStripAngle(angle) <==> -80.0 < angle <= -40.0
    ensures RightStripAngle(angle) <==> -40.0 < angle <= -10.0
  {
    var t := Truncate(angle);
    if angle < 0.0 {
      assert t as real - 1.0 < angle <= t as real;
    }
  }

  /** Rectangles i and i + 1 (by centre order) tilt like a left and a right strip. */
  predicate IsPairAt(rects: seq<Rect>, i: int)
    requires 0 <= i < |rects| - 1
  {
    LeftStripAngle(rects[i].angle) && RightStripAngle(rects[i + 1].angle)
  }

  /** The pair positions below `n`, in increasing order. */
  function PairsBelow(rects: seq<Rect>, n: nat): (ti: seq<int>)
    requires n == 0 || n <= |rects| - 1
    ensures |ti| <= n
    ensures forall k :: 0 <= k < |ti| ==> 0 <= ti[k] < n
  {
    if n == 0 then []
    else PairsBelow(rects, n - 1) + (if IsPairAt(rects, n - 1) then [n - 1] else [])
  }

  /** The positions below `n` are strictly increasing and are exactly the pairs below `n`. */
  lemma {:induction false} PairsBelowAreThePairs(rects: seq<Rect>, n: nat)
    requires n == 0 || n <= |rects| - 1
    ensures var ti := PairsBelow(rects, n);
      && (forall k :: 0 <= k < |ti| ==> 0 <= ti[k] < n && IsPairAt(rects, ti[k]))
      && (forall i :: 0 <= i < n && IsPairAt(rects, i) ==> i in ti)
      && (forall k, l :: 0 <= k < l < |ti| ==> ti[k] < ti[l])
  {
    if n > 0 {
      PairsBelowAreThePairs(rects, n - 1);
    }
  }

  /** One more position scanned adds that position exactly when it is a pair. */
  lemma PairsBelowStep(rects: seq<Rect>, i: nat)
    requires i < |rects| - 1
    ensures PairsBelow(rects, i + 1) == PairsBelow(rects, i) + (if IsPairAt(rects, i) then [i] else [])
  {
  }

  /** All pair positions of the centre-ordered rectangles. */
  function PairIndices(rects: seq<Rect>): seq<int>
  {
    if |rects| < 2 then [] else PairsBelow(rects, |rects| - 1)
  }

  /** The pairing scan over adjacent rectangles. */
  method FindTapePairs(rects: seq<Rect>) returns (tapeIndices: seq<int>)
    ensures tapeIndices == PairIndices(rects)
  {
    tapeIndices := [];
    // `range(len(rects) - 1)`: empty when there are fewer than two rectangles
    var n := if |rects| < 2 then 0 else |rects| - 1;
    for i := 0 to n
      invariant tapeIndices == PairsBelow(rects, i)
    {
      var angle := rects[i].angle;
      var nextAngle := rects[i + 1].angle;
      PairsBelowStep(rects, i);
      if -80 < Truncate(angle) <= -40 {
        if -40 < Truncate(nextAngle) <= -10 {
          tapeIndices := tapeIndices + [i];
        }
      }
    }
  }

  /**
   * The positions found are exactly the pairs, in increasing order; with fewer than two
   * rectangles there are none.
   */
  lemma PairIndicesAreThePairs(rects: seq<Rect>)
    ensures var ti := PairIndices(rects);
      && (forall k :: 0 <= k < |ti| ==> 0 <= ti[k] < |rects| - 1 && IsPairAt(rects, ti[k]))
      && (forall i :: 0 <= i < |rects| - 1 && IsPairAt(rects, i) ==> i in ti)
      && (forall k, l :: 0 <= k < l < |ti| ==> ti[k] < ti[l])
      && (|rects| < 2 ==> ti == [])
  {
    if |rects| >= 2 {
      PairsBelowAreThePairs(rects, |rects| - 1);
    }
  }

  /** The first position found is the first pair. */
  lemma {:induction false} FirstPairFirst(rects: seq<Rect>, i: int)
    requires 0 <= i < |rects| - 1 && IsPairAt(rects, i)
    requires forall j :: 0 <= j < i ==> !IsPairAt(rects, j)
    ensures PairIndices(rects) != [] && PairIndices(rects)[0] == i
  {
    var ti := PairIndices(rects);
    PairIndicesAreThePairs(rects);
    assert i in ti;
    var k :| 0 <= k < |ti| && ti[k] == i;
  }

  /** The pair's mean pixel position: the midpoint of the two rectangle centres. */
  function MeanPosition(a: Rect, b: Rect): (mean: (real, real))
    ensures mean.0 - a.cx == b.cx - mean.0 && mean.1 - a.cy == b.cy - mean.1
  {
    ((a.cx + b.cx) / 2.0, (a.cy + b.cy) / 2.0)
  }

  // ---------------------------------------------------------------------------------------
  // Corner selection

  function XOf(p: Point2): int
  {
    p.x
  }

  function YOf(p: Point2): int
  {
    p.y
  }

  /** Python's `min(ps, key=key)`: the position of the first point with the least key. */
  function ArgMin(ps: seq<Point2>, key: Point2 -> int): (i: int)
    requires |ps| > 0
    ensures 0 <= i < |ps|
  {
    if |ps| == 1 then 0
    else
      var j := ArgMin(ps[..|ps| - 1], key);
      if key(ps[|ps| - 1]) < key(ps[j]) then |ps| - 1 else j
  }

  /** Python's `max(ps, key=key)`: the position of the first point with the greatest key. */
  function ArgMax(ps: seq<Point2>, key: Point2 -> int): (i: int)
    requires |ps| > 0
    ensures 0 <= i < |ps|
  {
    if |ps| == 1 then 0
    else
      var j := ArgMax(ps[..|ps| - 1], key);
      if key(ps[|ps| - 1]) > key(ps[j]) then |ps| - 1 else j
  }

  /** The point `min` picks has the least key, and every point before it a greater one. */
  lemma {:induction false} ArgMinIsFirstLeast(ps: seq<Point2>, key: Point2 -> int)
    requires |ps| > 0
    ensures forall j :: 0 <= j < |ps| ==> key(ps[ArgMin(ps, key)]) <= key(ps[j])
    ensures forall j :: 0 <= j < ArgMin(ps, key) ==> key(ps[j]) > key(ps[ArgMin(ps, key)])
  {
    if |ps| > 1 {
      var init := ps[..|ps| - 1];
      ArgMinIsFirstLeast(init, key);
      assert forall k :: 0 <= k < |init| ==> init[k] == ps[k];
    }
  }

  /** The point `max` picks has the greatest key, and every point before it a smaller one. */
  lemma {:induction false} ArgMaxIsFirstGreatest(ps: seq<Point2>, key: Point2 -> int)
    requires |ps| > 0
    ensures forall j :: 0 <= j < |ps| ==> key(ps[ArgMax(ps, key)]) >= key(ps[j])
    ensures forall j :: 0 <= j < ArgMax(ps, key) ==> key(ps[j]) < key(ps[ArgMax(ps, key)])
  {
    if |ps| > 1 {
      var init := ps[..|ps| - 1];
      ArgMaxIsFirstGreatest(init, key);
      assert forall k :: 0 <= k < |init| ==> init[k] == ps[k];
    }
  }

  /** A contour's top point (least y), leftmost and rightmost points, first ones on ties. */
  function Top(c: seq<Point2>): Point2
    requires |c| > 0
  {
    c[ArgMin(c, YOf)]
  }

  function Leftmost(c: seq<Point2>): Point2
    requires |c| > 0
  {
    c[ArgMin(c, XOf)]
  }

  function Rightmost(c: seq<Point2>): Point2
    requires |c| > 0
  {
    c[ArgMax(c, XOf)]
  }

  /**
   * The four pixel corners of a strip pair: the two top points ordered by x (in contour order
   * on a tie), then the leftmost of the two leftmost points, then the rightmost of the two
   * rightmost points (the first contour's on a tie).
   */
  function PixelCorners(c0: seq<Point2>, c1: seq<Point2>): (corners: seq<Point2>)
    requires |c0| > 0 && |c1| > 0
    ensures |corners| == 4
  {
    var tops := [Top(c0), Top(c1)];
    var lefts := [Leftmost(c0), Leftmost(c1)];
    var rights := [Rightmost(c0), Rightmost(c1)];
    var sortedTops := if tops[0].x <= tops[1].x then tops else [tops[1], tops[0]];
    var leftmost := if lefts[0].x <= lefts[1].x then lefts[0] else lefts[1];
    var rightmost := if -rights[0].x <= -rights[1].x then rights[0] else rights[1];
    sortedTops + [leftmost, rightmost]
  }

  /**
   * The corners chosen: the two top points ordered by x, the first contour's first on a tie;
   * then the leftmost of the two leftmost points and the rightmost of the two rightmost ones.
   */
  lemma PixelCornersChoice(c0: seq<Point2>, c1: seq<Point2>)
    requires |c0| > 0 && |c1| > 0
    ensures var corners := PixelCorners(c0, c1);
      && ((corners[0], corners[1]) == (Top(c0), Top(c1)) || (corners[0], corners[1]) == (Top(c1), Top(c0)))
      && corners[0].x <= corners[1].x
      && (Top(c0).x <= Top(c1).x ==> corners[0] == Top(c0))
      && (corners[2] == Leftmost(c0) || corners[2] == Leftmost(c1))
      && corners[2].x <= Leftmost(c0).x && corners[2].x <= Leftmost(c1).x
      && (corners[3] == Rightmost(c0) || corners[3] == Rightmost(c1))
      && corners[3].x >= Rightmost(c0).x && corners[3].x >= Rightmost(c1).x
  {
  }

  /** The third and fourth corners bound every point of both contours horizontally. */
  lemma CornersSpanThePair(c0: seq<Point2>, c1: seq<Point2>, p: Point2)
    requires |c0| > 0 && |c1| > 0 && (p in c0 || p in c1)
    ensures PixelCorners(c0, c1)[2].x <= p.x <= PixelCorners(c0, c1)[3].x
  {
    PixelCornersChoice(c0, c1);
    ArgMinIsFirstLeast(c0, XOf);
    ArgMaxIsFirstGreatest(c0, XOf);
    ArgMinIsFirstLeast(c1, XOf);
    ArgMaxIsFirstGreatest(c1, XOf);
    if p in c0 {
      var j :| 0 <= j < |c0| && c0[j] == p;
      assert XOf(c0[j]) == p.x;
    } else {
      var j :| 0 <= j < |c1| && c1[j] == p;
      assert XOf(c1[j]) == p.x;
    }
  }

  // ---------------------------------------------------------------------------------------
  // Output values and the frame

  /** `r` is the non-negative square root of `v`. */
  ghost predicate IsRoot(r: real, v: real)
  {
    r >= 0.0 && r * r == v
  }

  /** What `math.sqrt` promises on non-negative arguments. */
  ghost predicate IsSqrt(sqrt: real -> real)
  {
    forall v :: v >= 0.0 ==> IsRoot(sqrt(v), v)
  }

  /** From the solver's translation vector: the ground distance, the sideways and the forward leg. */
  function ComputeOutputValues(tvec: Point3, sqrt: real -> real): (out: (real, real, real))
    requires IsSqrt(sqrt)
    ensures IsRoot(out.0, out.1 * out.1 + out.2 * out.2)
    ensures out.1 == tvec.x && out.2 == tvec.z
  {
    var x := tvec.x;
    var z := tvec.z;
    assert x * x + z * z >= 0.0;
    (sqrt(x * x + z * z), x, z)
  }

  /** One line sent to the robot and recorded: distance, legs and the pair's mean position. */
  datatype Report = Report(dist: real, x: real, z: real, meanX: real, meanY: real)

  /** The frame's contours are those of a contour finder: none is empty. */
  predicate WellFormed(contours: seq<Contour>)
  {
    forall k :: 0 <= k < |contours| ==> |contours[k].points| > 0
  }

  /** The distance is the length of the two legs, the position the pair's midpoint. */
  ghost predicate IsPairReport(report: Report, a: Rect, b: Rect)
  {
    && IsRoot(report.dist, report.x * report.x + report.z * report.z)
    && (report.meanX, report.meanY) == MeanPosition(a, b)
  }

  /**
   * The report a strip pair yields, given the pair's two rectangles (for the mean position)
   * and the two contours the corners are taken from; nothing when the pose solver fails.
   */
  function PairReport(a: Rect, b: Rect, c0: Contour, c1: Contour, solve: seq<Point2> -> Option<Point3>, sqrt: real -> real)
    : (report: Option<Report>)
    requires |c0.points| > 0 && |c1.points| > 0 && IsSqrt(sqrt)
    ensures report.Some? <==> solve(PixelCorners(c0.points, c1.points)).Some?
    ensures report.Some? ==> IsPairReport(report.value, a, b)
  {
    var mean := MeanPosition(a, b);
    match solve(PixelCorners(c0.points, c1.points))
    case None => None
    case Some(tvec) =>
      var out := ComputeOutputValues(tvec, sqrt);
      Some(Report(out.0, out.1, out.2, mean.0, mean.1))
  }

  /**
   * The distance loop: it runs once per pair found, at most four times, and every time
   * handles the FIRST pair; `chosen` records the two contours of each iteration.
   */
  method DistanceLoop(
    rects: seq<Rect>, source: seq<Contour>, tapeIndices: seq<int>,
    solve: seq<Point2> -> Option<Point3>, sqrt: real -> real)
    returns (chosen: seq<(Contour, Contour)>, reports: seq<Report>)
    requires |source| == |rects| && WellFormed(source) && IsSqrt(sqrt)
    requires forall k :: 0 <= k < |tapeIndices| ==> 0 <= tapeIndices[k] < |rects| - 1
    ensures |chosen| == Min(|tapeIndices|, 4)
    ensures tapeIndices == [] ==> reports == []
    ensures tapeIndices != [] ==> var idx := tapeIndices[0];
      var r := PairReport(rects[idx], rects[idx + 1], source[idx], source[idx + 1], solve, sqrt);
      && chosen == Copies((source[idx], source[idx + 1]), |chosen|)
      && reports == (if r.Some? then Copies(r.value, |chosen|) else [])
  {
    chosen, reports := [], [];
    if tapeIndices == [] {
      return;
    }
    ghost var first := tapeIndices[0];
    ghost var r := PairReport(rects[first], rects[first + 1], source[first], source[first + 1], solve, sqrt);
    var n := Min(|tapeIndices|, 4);
    for k := 0 to n
      invariant chosen == Copies((source[first], source[first + 1]), k)
      invariant reports == (if r.Some? then Copies(r.value, k) else [])
    {
      var idx := tapeIndices[0];
      var tapeContours := (source[idx], source[idx + 1]);
      chosen := chosen + [tapeContours];
      var report := PairReport(rects[idx], rects[idx + 1], tapeContours.0, tapeContours.1, solve, sqrt);
      if report.Some? {
        reports := reports + [report.value];
      }
    }
  }

  /** `n` copies of `x`. */
  function Copies<T>(x: T, n: nat): (s: seq<T>)
    ensures |s| == n && forall i :: 0 <= i < n ==> s[i] == x
  {
    if n == 0 then [] else Copies(x, n - 1) + [x]
  }

  /** The rectangles of a frame, in centre order. */
  function ContourRects(contours: seq<Contour>): seq<Rect>
  {
    SortByCentre(RectsOf(contours), SameRect)
  }

  /**
   * A frame as written: the pair index found among the SORTED rectangles selects the contours
   * from the UNSORTED list.
   */
  method ProcessAsWritten(contours: seq<Contour>, solve: seq<Point2> -> Option<Point3>, sqrt: real -> real)
    returns (chosen: seq<(Contour, Contour)>, reports: seq<Report>)
    requires WellFormed(contours) && IsSqrt(sqrt)
    ensures var ti := PairIndices(ContourRects(contours));
      && |chosen| == Min(|ti|, 4)
      && (ti != [] ==> forall k :: 0 <= k < |chosen| ==> chosen[k] == (contours[ti[0]], contours[ti[0] + 1]))
      && (ti == [] ==> reports == [])
    ensures var rects := ContourRects(contours); var ti := PairIndices(rects);
      ti != [] ==> var idx := ti[0];
        var r := PairReport(rects[idx], rects[idx + 1], contours[idx], contours[idx + 1], solve, sqrt);
        reports == (if r.Some? then Copies(r.value, |chosen|) else [])
  {
    var contourRects := SortByCentre(RectsOf(contours), SameRect);
    var tapeIndices := FindTapePairs(contourRects);
    PairIndicesAreThePairs(contourRects);
    chosen, reports := DistanceLoop(contourRects, contours, tapeIndices, solve, sqrt);
  }

  /**
   * A frame as evidently intended: the contours are sorted together with their rectangles,
   * so each iteration's contours are the pair whose tilt angles matched.
   */
  method Process(contours: seq<Contour>, solve: seq<Point2> -> Option<Point3>, sqrt: real -> real)
    returns (chosen: seq<(Contour, Contour)>, reports: seq<Report>)
    requires WellFormed(contours) && IsSqrt(sqrt)
    ensures var ti := PairIndices(ContourRects(contours));
      && |chosen| == Min(|ti|, 4)
      && |reports| <= |chosen|
      && forall k :: 0 <= k < |chosen| ==>
        && chosen[k].0 in contours && chosen[k].1 in contours
        && LeftStripAngle(chosen[k].0.rect.angle) && RightStripAngle(chosen[k].1.rect.angle)
    ensures forall k :: 0 <= k < |reports| ==> IsPairReport(reports[k], chosen[0].0.rect, chosen[0].1.rect)
    ensures var sorted := SortByCentre(contours, RectOf);
      WellFormed(sorted) && RectsOf(sorted) == ContourRects(contours)
    ensures var sorted := SortByCentre(contours, RectOf); var rects := ContourRects(contours);
      var ti := PairIndices(rects);
      ti != [] ==> var idx := ti[0];
        var r := PairReport(rects[idx], rects[idx + 1], sorted[idx], sorted[idx + 1], solve, sqrt);
        && chosen == Copies((sorted[idx], sorted[idx + 1]), |chosen|)
        && reports == (if r.Some? then Copies(r.value, |chosen|) else [])
  {
    var sorted := SortByCentre(contours, RectOf);
    var contourRects := RectsOf(sorted);
    assert WellFormed(sorted) && contourRects == ContourRects(contours) by {
      SortedContours(contours);
    }
    var tapeIndices := FindTapePairs(contourRects);
    chosen, reports := DistanceLoop(contourRects, sorted, tapeIndices, solve, sqrt);
    if tapeIndices != [] {
      FirstPairInFrame(contours);
      var idx := tapeIndices[0];
      CopiesOfStripPair(chosen, (sorted[idx], sorted[idx + 1]), contours);
      var r := PairReport(contourRects[idx], contourRects[idx + 1], sorted[idx], sorted[idx + 1], solve, sqrt);
      if r.Some? {
        CopiesOfReport(reports, r.value, sorted[idx].rect, sorted[idx + 1].rect);
      }
    }
  }

  /** Copies of one report of a pair all are reports of that pair. */
  lemma CopiesOfReport(reports: seq<Report>, report: Report, a: Rect, b: Rect)
    requires reports == Copies(report, |reports|)
    requires IsPairReport(report, a, b)
    ensures forall k :: 0 <= k < |reports| ==> IsPairReport(reports[k], a, b)
  {
  }

  /** Copies of one left-then-right strip pair of the frame all are such pairs. */
  lemma CopiesOfStripPair(chosen: seq<(Contour, Contour)>, pair: (Contour, Contour), contours: seq<Contour>)
    requires chosen == Copies(pair, |chosen|)
    requires pair.0 in contours && pair.1 in contours
    requires LeftStripAngle(pair.0.rect.angle) && RightStripAngle(pair.1.rect.angle)
    ensures forall k :: 0 <= k < |chosen| ==>
      && chosen[k].0 in contours && chosen[k].1 in contours
      && LeftStripAngle(chosen[k].0.rect.angle) && RightStripAngle(chosen[k].1.rect.angle)
  {
  }

  /** The first pair of the sorted contours is a left and a right strip of the frame. */
  lemma FirstPairInFrame(contours: seq<Contour>)
    requires WellFormed(contours)
    requires PairIndices(ContourRects(contours)) != []
    ensures var sorted := SortByCentre(contours, RectOf);
      var idx := PairIndices(ContourRects(contours))[0];
      && 0 <= idx < |sorted| - 1
      && sorted[idx] in contours && sorted[idx + 1] in contours
      && LeftStripAngle(sorted[idx].rect.angle) && RightStripAngle(sorted[idx + 1].rect.angle)
  {
    var sorted := SortByCentre(contours, RectOf);
    var rects := ContourRects(contours);
    SortedContours(contours);
    PairIndicesAreThePairs(rects);
    var idx := PairIndices(rects)[0];
    assert IsPairAt(rects, idx);
    assert rects[idx] == sorted[idx].rect && rects[idx + 1] == sorted[idx + 1].rect;
  }

  /** The sorted contours are the frame's contours, their rectangles in centre order. */
  lemma SortedContours(contours: seq<Contour>)
    requires WellFormed(contours)
    ensures var sorted := SortByCentre(contours, RectOf);
      && WellFormed(sorted)
      && RectsOf(sorted) == ContourRects(contours)
      && forall k :: 0 <= k < |sorted| ==> sorted[k] in contours
  {
    var sorted := SortByCentre(contours, RectOf);
    SortCommutesWithRects(contours);
    forall k | 0 <= k < |sorted| ensures sorted[k] in contours {
      assert sorted[k] in multiset(contours);
    }
  }

  /**
   * A frame where the order of the contours differs from their centre order: the contour C
   * on the right comes first, then the left strip A, then the right strip B.
   */
  const RECT_A: Rect := Rect(100.0, 50.0, 10.0, 30.0, -60.0)
  const RECT_B: Rect := Rect(200.0, 50.0, 10.0, 30.0, -20.0)
  const RECT_C: Rect := Rect(300.0, 50.0, 10.0, 30.0, 0.0)
  const EXAMPLE_A: Contour := Contour([Point2(100, 50)], RECT_A)
  const EXAMPLE_B: Contour := Contour([Point2(200, 50)], RECT_B)
  const EXAMPLE_C: Contour := Contour([Point2(300, 50)], RECT_C)

  lemma ExampleSortOrder()
    ensures SortByCentre([RECT_C, RECT_A, RECT_B], SameRect) == [RECT_A, RECT_B, RECT_C]
  {
    assert [RECT_C, RECT_A, RECT_B][1..] == [RECT_A, RECT_B];
    assert [RECT_A, RECT_B][1..] == [RECT_B];
    assert SortByCentre([RECT_B], SameRect) == [RECT_B];
    assert SortByCentre([RECT_A, RECT_B], SameRect) == [RECT_A, RECT_B];
    assert InsertBy(RECT_C, [RECT_B], SameRect) == [RECT_B, RECT_C];
  }

  lemma ExampleFrameOrder()
    ensures ContourRects([EXAMPLE_C, EXAMPLE_A, EXAMPLE_B]) == [RECT_A, RECT_B, RECT_C]
  {
    var frame := [EXAMPLE_C, EXAMPLE_A, EXAMPLE_B];
    assert frame[1..] == [EXAMPLE_A, EXAMPLE_B] && frame[1..][1..] == [EXAMPLE_B];
    assert RectsOf([EXAMPLE_B]) == [RECT_B];
    assert RectsOf(frame) == [RECT_C, RECT_A, RECT_B];
    ExampleSortOrder();
  }

  /** Only the first two rectangles of the example form a pair. */
  lemma ExampleFramePairs()
    ensures PairIndices([RECT_A, RECT_B, RECT_C]) == [0]
  {
    var rects := [RECT_A, RECT_B, RECT_C];
    assert Truncate(-60.0) == -60 && Truncate(-20.0) == -20;
    assert IsPairAt(rects, 0);
    assert !IsPairAt(rects, 1);
    assert PairsBelow(rects, 1) == [0];
  }

  /**
   * Two strips with the same centre, the left one first: the stable sort keeps them in that
   * order, so they still form a pair.
   */
  const TIE_LEFT: Rect := Rect(100.0, 50.0, 10.0, 30.0, -60.0)
  const TIE_RIGHT: Rect := Rect(100.0, 50.0, 12.0, 30.0, -20.0)

  lemma ExampleTiesKeepOrder()
    ensures SortByCentre([TIE_LEFT, TIE_RIGHT], SameRect) == [TIE_LEFT, TIE_RIGHT]
    ensures PairIndices(SortByCentre([TIE_LEFT, TIE_RIGHT], SameRect)) == [0]
  {
    var ties := [TIE_LEFT, TIE_RIGHT];
    assert ties[1..] == [TIE_RIGHT];
    assert SortByCentre([TIE_RIGHT], SameRect) == [TIE_RIGHT];
    assert InsertBy(TIE_LEFT, [TIE_RIGHT], SameRect) == ties;
    assert Truncate(-60.0) == -60 && Truncate(-20.0) == -20;
    assert IsPairAt(ties, 0);
    assert PairsBelow(ties, 1) == [0];
  }

  /**
   * On the example frame the pair (A, B) is found, yet as written the corners are taken
   * from C and A, and C is no left strip.
   */
  method AsWrittenPicksWrongContour(solve: seq<Point2> -> Option<Point3>, sqrt: real -> real)
    returns (chosen: seq<(Contour, Contour)>)
    requires IsSqrt(sqrt)
    ensures |chosen| == 1
    ensures !LeftStripAngle(chosen[0].0.rect.angle) && !RightStripAngle(chosen[0].1.rect.angle)
  {
    ExampleFrameOrder();
    ExampleFramePairs();
    var reports;
    chosen, reports := ProcessAsWritten([EXAMPLE_C, EXAMPLE_A, EXAMPLE_B], solve, sqrt);
    assert Truncate(0.0) == 0 && Truncate(-60.0) == -60;
  }
}
