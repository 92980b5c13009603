/**
 * The data side of Brick Viewer's live plots (`plot_widget`): the fuzzy float
 * comparisons, the value wrapper a plugin writes its readings into, the
 * per-curve x/y/jump lists of a `Plot` with their per-curve and global
 * extrema and the trimming that keeps a curve inside its x window, and the
 * stop switch of a `PlotWidget`.
 *
 * Python floats are modelled as `real` (no rounding, no NaN), `None` as
 * `Option.None`, and `time.monotonic()` as a parameter.
 */
module PlotWidget {
  import opened Wrappers

  /* ---------------------------------------------------------------------- */
  /* Fuzzy comparisons                                                      */
  /* ---------------------------------------------------------------------- */

  const EPSILON: real := 0.000001

  function Abs(r: real): real { if r < 0.0 then -r else r }

  predicate FuzzyEq(a: real, b: real) { Abs(a - b) < EPSILON }

  predicate FuzzyLeq(a: real, b: real) { a < b || FuzzyEq(a, b) }

  predicate FuzzyGeq(a: real, b: real) { a > b || FuzzyEq(a, b) }

  /**
   * fuzzy_leq is "below b + EPSILON", fuzzy_geq its mirror, and two values
   * are fuzzily equal exactly when each is fuzzily at most the other.
   */
  lemma FuzzyOrder(a: real, b: real)
    ensures FuzzyLeq(a, b) <==> a < b + EPSILON
    ensures FuzzyGeq(a, b) <==> FuzzyLeq(b, a)
    ensures FuzzyEq(a, b) <==> FuzzyLeq(a, b) && FuzzyGeq(a, b)
    ensures FuzzyEq(a, b) == FuzzyEq(b, a)
  {
  }

  /* ---------------------------------------------------------------------- */
  /* Minimum, maximum and the lists the extrema are taken over              */
  /* ---------------------------------------------------------------------- */

  function Min2(a: real, b: real): real { if b < a then b else a }

  function Max2(a: real, b: real): real { if b > a then b else a }

  /**
   * Python's `min` of a non-empty list, scanning from the front and keeping
   * the earlier value on a tie: no element is below it.
   */
  function MinOf(s: seq<real>): (m: real)
    requires |s| > 0
    ensures forall i :: 0 <= i < |s| ==> m <= s[i]
    decreases |s|
  {
    if |s| == 1 then s[0] else Min2(MinOf(s[..|s| - 1]), s[|s| - 1])
  }

  /** Python's `max` of a non-empty list: no element is above it. */
  function MaxOf(s: seq<real>): (m: real)
    requires |s| > 0
    ensures forall i :: 0 <= i < |s| ==> s[i] <= m
    decreases |s|
  {
    if |s| == 1 then s[0] else Max2(MaxOf(s[..|s| - 1]), s[|s| - 1])
  }

  /** The minimum and the maximum are elements of the list. */
  lemma {:induction false} ExtremaAreElements(s: seq<real>)
    requires |s| > 0
    ensures exists i :: 0 <= i < |s| && s[i] == MinOf(s)
    ensures exists i :: 0 <= i < |s| && s[i] == MaxOf(s)
    decreases |s|
  {
    if |s| > 1 {
      var t := s[..|s| - 1];
      ExtremaAreElements(t);
      var i :| 0 <= i < |t| && t[i] == MinOf(t);
      var j :| 0 <= j < |t| && t[j] == MaxOf(t);
      assert s[i] == t[i] && s[j] == t[j];
    } else {
      assert s[0] == MinOf(s);
    }
  }

  /** The minimum of a list, None for an empty one. */
  function MinOpt(s: seq<real>): Option<real>
  {
    if |s| == 0 then None else Some(MinOf(s))
  }

  function MaxOpt(s: seq<real>): Option<real>
  {
    if |s| == 0 then None else Some(MaxOf(s))
  }

  /** Appending a value folds it into the running extrema. */
  lemma ExtremaAppend(s: seq<real>, y: real)
    requires |s| > 0
    ensures MinOf(s + [y]) == Min2(MinOf(s), y)
    ensures MaxOf(s + [y]) == Max2(MaxOf(s), y)
  {
    assert (s + [y])[..|s|] == s;
  }

  /** `[v for v in s if v != None]` */
  function SomeValues(s: seq<Option<real>>): seq<real>
    decreases |s|
  {
    if |s| == 0 then []
    else (if s[0].Some? then [s[0].value] else []) + SomeValues(s[1..])
  }

  /** The values kept are exactly those of the entries that are set. */
  lemma {:induction false} SomeValuesMembers(s: seq<Option<real>>, v: real)
    ensures v in SomeValues(s) <==> exists i :: 0 <= i < |s| && s[i] == Some(v)
    decreases |s|
  {
    if |s| > 0 {
      SomeValuesMembers(s[1..], v);
      if exists i :: 1 <= i < |s| && s[i] == Some(v) {
        var i :| 1 <= i < |s| && s[i] == Some(v);
        assert s[1..][i - 1] == Some(v);
      }
    }
  }

  /** `[v for c, v in enumerate(s) if visible[c] and v != None]` */
  function VisibleValues(s: seq<Option<real>>, visible: seq<bool>): seq<real>
    requires |s| == |visible|
    decreases |s|
  {
    if |s| == 0 then []
    else (if visible[0] && s[0].Some? then [s[0].value] else []) + VisibleValues(s[1..], visible[1..])
  }

  /** The visible values are exactly the values of the visible curves that have one. */
  lemma {:induction false} VisibleValuesMembers(s: seq<Option<real>>, visible: seq<bool>, v: real)
    requires |s| == |visible|
    ensures v in VisibleValues(s, visible) <==>
      exists c :: 0 <= c < |s| && visible[c] && s[c] == Some(v)
    decreases |s|
  {
    if |s| > 0 {
      VisibleValuesMembers(s[1..], visible[1..], v);
      if exists c :: 1 <= c < |s| && visible[c] && s[c] == Some(v) {
        var c :| 1 <= c < |s| && visible[c] && s[c] == Some(v);
        assert visible[1..][c - 1] && s[1..][c - 1] == Some(v);
      }
    }
  }

  /** Curves that are hidden do not take part: their values may be anything. */
  lemma {:induction false} HiddenCurvesIgnored(s: seq<Option<real>>, t: seq<Option<real>>, visible: seq<bool>)
    requires |s| == |visible| && |t| == |visible|
    requires forall c :: 0 <= c < |visible| && visible[c] ==> s[c] == t[c]
    ensures VisibleValues(s, visible) == VisibleValues(t, visible)
    decreases |s|
  {
    if |s| > 0 {
      HiddenCurvesIgnored(s[1..], t[1..], visible[1..]);
    }
  }

  /* ---------------------------------------------------------------------- */
  /* bisect_left and int()                                                  */
  /* ---------------------------------------------------------------------- */

  /** The halving search of `bisect.bisect_left` on `a[lo..hi]`. */
  function BisectFrom(a: seq<real>, x: real, lo: nat, hi: nat): (r: nat)
    requires lo <= hi <= |a|
    ensures lo <= r <= hi
    decreases hi - lo
  {
    if lo < hi then
      var mid := (lo + hi) / 2;
      if a[mid] < x then BisectFrom(a, x, mid + 1, hi) else BisectFrom(a, x, lo, mid)
    else lo
  }

  predicate Sorted(a: seq<real>)
  {
    forall i, j :: 0 <= i < j < |a| ==> a[i] <= a[j]
  }

  /** On a sorted list bisect_left returns the first index whose value is at least x. */
  lemma {:induction false} BisectFromSorted(a: seq<real>, x: real, lo: nat, hi: nat)
    requires lo <= hi <= |a| && Sorted(a)
    requires forall i :: 0 <= i < lo ==> a[i] < x
    requires forall i :: hi <= i < |a| ==> a[i] >= x
    ensures var r := BisectFrom(a, x, lo, hi);
            (forall i :: 0 <= i < r ==> a[i] < x) && (forall i :: r <= i < |a| ==> a[i] >= x)
    decreases hi - lo
  {
    if lo < hi {
      var mid := (lo + hi) / 2;
      if a[mid] < x {
        forall i | 0 <= i < mid + 1 ensures a[i] < x {
          if i < mid { assert a[i] <= a[mid]; }
        }
        BisectFromSorted(a, x, mid + 1, hi);
      } else {
        forall i | mid <= i < |a| ensures a[i] >= x {
          if i > mid { assert a[mid] <= a[i]; }
        }
        BisectFromSorted(a, x, lo, mid);
      }
    }
  }

  /** `bisect.bisect_left(a, x)` */
  method BisectLeft(a: seq<real>, x: real) returns (lo: nat)
    ensures lo == BisectFrom(a, x, 0, |a|)
    ensures Sorted(a) ==> (forall i :: 0 <= i < lo ==> a[i] < x) && (forall i :: lo <= i < |a| ==> a[i] >= x)
  {
    lo := 0;
    var hi := |a|;
    while lo < hi
      invariant lo <= hi <= |a|
      invariant BisectFrom(a, x, lo, hi) == BisectFrom(a, x, 0, |a|)
      decreases hi - lo
    {
      var mid := (lo + hi) / 2;
      if a[mid] < x {
        lo := mid + 1;
      } else {
        hi := mid;
      }
    }
    if Sorted(a) {
      BisectFromSorted(a, x, 0, |a|);
    }
  }

  /** Python's `int()` of a float: truncation toward zero. */
  function Trunc(r: real): (n: int)
    ensures Abs(n as real) <= Abs(r) < Abs(n as real) + 1.0
    ensures n == 0 || (n > 0 <==> r > 0.0)
  {
    if r >= 0.0 then r.Floor else -((-r).Floor)
  }

  /* ---------------------------------------------------------------------- */
  /* CurveValueWrapper                                                      */
  /* ---------------------------------------------------------------------- */

  /** The cell a plugin writes its latest reading into; the plot drains its history. */
  class CurveValueWrapper {
    var locked: bool
    var history: seq<(real, real)>
    var value: Option<real>

    constructor()
      ensures !locked && history == [] && value == None
    {
      locked := false;
      history := [];
      value := None;
    }

    /** Setting `value` stores it, and records it with its time unless locked. */
    method SetValue(v: real, now: real)
      modifies this`value, this`history
      ensures value == Some(v)
      ensures history == if locked then old(history) else old(history) + [(now, v)]
    {
      value := Some(v);
      if locked {
        return;
      }
      history := history + [(now, v)];
    }
  }

  /* ---------------------------------------------------------------------- */
  /* One curve and the steps of add_data on it                              */
  /* ---------------------------------------------------------------------- */

  /** `[v] * n` */
  function Repeat<T>(v: T, n: nat): (r: seq<T>)
    ensures |r| == n && forall i :: 0 <= i < n ==> r[i] == v
  {
    if n == 0 then [] else [v] + Repeat(v, n - 1)
  }

  function First(xs: seq<real>): Option<real> { if |xs| == 0 then None else Some(xs[0]) }

  function Last(xs: seq<real>): Option<real> { if |xs| == 0 then None else Some(xs[|xs| - 1]) }

  /**
   * One curve of a plot: its entries of `curves_x`, `curves_y`,
   * `curves_jump` and `curves_jump_pending`, and its cached extrema from
   * `curves_x_min`, `curves_x_max`, `curves_y_min` and `curves_y_max`.
   */
  datatype Curve = Curve(xs: seq<real>, ys: seq<real>, jumps: seq<bool>, jumpPending: bool,
                         xMin: Option<real>, xMax: Option<real>, yMin: Option<real>, yMax: Option<real>)

  /** A curve as clear_graph leaves it. */
  const EMPTY_CURVE: Curve := Curve([], [], [], false, None, None, None, None)

  /**
   * A curve's lists are parallel and its cached extrema describe them: the x
   * extrema are the first and the last x, the y extrema the least and the
   * greatest y.
   */
  predicate CurveValid(cv: Curve)
  {
    |cv.xs| == |cv.ys| == |cv.jumps| &&
    cv.xMin == First(cv.xs) && cv.xMax == Last(cv.xs) &&
    cv.yMin == MinOpt(cv.ys) && cv.yMax == MaxOpt(cv.ys)
  }

  /** A value folded into an optional running minimum (`min`, or the value if None). */
  function FoldMin(o: Option<real>, y: real): Option<real>
  {
    if o.None? then Some(y) else Some(Min2(o.value, y))
  }

  function FoldMax(o: Option<real>, y: real): Option<real>
  {
    if o.None? then Some(y) else Some(Max2(o.value, y))
  }

  /**
   * The append step of add_data: the point and the pending jump go to the
   * end of the lists, the pending jump is cleared, an unset x extremum
   * becomes x and y is folded into the y extrema.
   */
  function Appended(cv: Curve, x: real, y: real): Curve
  {
    Curve(cv.xs + [x], cv.ys + [y], cv.jumps + [cv.jumpPending], false,
          if cv.xMin.None? then Some(x) else cv.xMin,
          if cv.xMax.None? then Some(x) else cv.xMax,
          FoldMin(cv.yMin, y), FoldMax(cv.yMax, y))
  }

  /** The curve spans at least x_diff from its first to its last x. */
  predicate Spans(xs: seq<real>, xDiff: real)
    requires |xs| > 0
  {
    xs[|xs| - 1] - xs[0] >= xDiff
  }

  /**
   * How many of its oldest points a curve that spans x_diff drops: one in
   * smooth motion, and in jump motion all before the first whole second
   * after the global x_min.
   */
  function MotionCut(xs: seq<real>, smooth: bool, globalXMin: real): (k: nat)
    requires |xs| > 0
    ensures 1 <= k <= |xs| || (!smooth && k == 0)
  {
    if smooth then 1 else BisectFrom(xs, (Trunc(globalXMin) + 1) as real, 0, |xs|)
  }

  /**
   * The trimming step: drops the k oldest points and recomputes the curve's
   * extrema, so a curve whose lists are parallel comes out valid.
   */
  function Trimmed(cv: Curve, k: nat): (r: Curve)
    requires k <= |cv.xs| && k <= |cv.ys| && k <= |cv.jumps|
    ensures |r.xs| == |cv.xs| - k && r.jumpPending == cv.jumpPending
    ensures |cv.xs| == |cv.ys| == |cv.jumps| ==> CurveValid(r)
  {
    Curve(cv.xs[k..], cv.ys[k..], cv.jumps[k..], cv.jumpPending,
          First(cv.xs[k..]), Last(cv.xs[k..]), MinOpt(cv.ys[k..]), MaxOpt(cv.ys[k..]))
  }

  /**
   * add_data on curve c, given the global x_min as the method sees it after
   * setting an unset one to x: append, then trim by MotionCut if the curve
   * spans x_diff, or else move the curve's x maximum to the new last x.
   */
  function Added(cv: Curve, x: real, y: real, xDiff: real, smooth: bool, globalXMin: real): (r: Curve)
    requires |cv.xs| == |cv.ys| == |cv.jumps|
    ensures |r.xs| == |r.ys| == |r.jumps| <= |cv.xs| + 1 && !r.jumpPending
    ensures |r.xs| > 0 ==> r.xs[|r.xs| - 1] == x && r.ys[|r.ys| - 1] == y
  {
    var a := Appended(cv, x, y);
    if Spans(a.xs, xDiff) then Trimmed(a, MotionCut(a.xs, smooth, globalXMin))
    else a.(xMax := Last(a.xs))
  }

  /**
   * add_data keeps a valid curve valid, and its lists are the old ones with
   * the point (and the pending jump) appended and, when the curve then spans
   * x_diff, the MotionCut oldest entries dropped.
   */
  lemma AddedCurve(cv: Curve, x: real, y: real, xDiff: real, smooth: bool, globalXMin: real)
    requires CurveValid(cv)
    ensures var r := Added(cv, x, y, xDiff, smooth, globalXMin);
            var xs := cv.xs + [x];
            var k := if Spans(xs, xDiff) then MotionCut(xs, smooth, globalXMin) else 0;
            CurveValid(r) && !r.jumpPending &&
            r.xs == xs[k..] && r.ys == (cv.ys + [y])[k..] && r.jumps == (cv.jumps + [cv.jumpPending])[k..]
  {
    var a := Appended(cv, x, y);
    if |cv.ys| > 0 {
      ExtremaAppend(cv.ys, y);
    } else {
      assert a.ys == [y];
    }
    assert a.yMin == MinOpt(a.ys) && a.yMax == MaxOpt(a.ys);
  }

  /**
   * In smooth motion a curve that spans x_diff keeps its length: the oldest
   * point goes, the new one stays as the last.
   */
  lemma SmoothMotionSlides(cv: Curve, x: real, y: real, xDiff: real, globalXMin: real)
    requires CurveValid(cv) && |cv.xs| > 0 && Spans(cv.xs + [x], xDiff)
    ensures var r := Added(cv, x, y, xDiff, true, globalXMin);
            r.xs == cv.xs[1..] + [x] && r.xMax == Some(x)
  {
    assert (cv.xs + [x])[1..] == cv.xs[1..] + [x];
  }

  /**
   * In jump motion on a time-ordered curve the cut drops exactly the points
   * before the next whole second after x_min.
   */
  lemma JumpCutDropsBeforeNextSecond(xs: seq<real>, globalXMin: real)
    requires |xs| > 0 && Sorted(xs)
    ensures var k := MotionCut(xs, false, globalXMin);
            var t := (Trunc(globalXMin) + 1) as real;
            (forall i :: 0 <= i < k ==> xs[i] < t) && (forall i :: k <= i < |xs| ==> xs[i] >= t)
  {
    BisectFromSorted(xs, (Trunc(globalXMin) + 1) as real, 0, |xs|);
  }

  /* ---------------------------------------------------------------------- */
  /* The global extrema over all curves                                     */
  /* ---------------------------------------------------------------------- */

  datatype Bound = XLow | XHigh | YLow | YHigh

  function BoundOf(cv: Curve, b: Bound): Option<real>
  {
    match b
    case XLow => cv.xMin
    case XHigh => cv.xMax
    case YLow => cv.yMin
    case YHigh => cv.yMax
  }

  /** `self.curves_x_min` and its three siblings: one cached bound per curve, in curve order. */
  function Bounds(cs: seq<Curve>, b: Bound): (r: seq<Option<real>>)
    ensures |r| == |cs| && forall c :: 0 <= c < |cs| ==> r[c] == BoundOf(cs[c], b)
    decreases |cs|
  {
    if |cs| == 0 then [] else [BoundOf(cs[0], b)] + Bounds(cs[1..], b)
  }

  /**
   * A global y minimum recomputed over the visible curves: None without
   * values; otherwise the fresh minimum, or, when the scale may not shrink
   * and a minimum exists, the lower of the fresh and the previous one.
   */
  function MergeMin(values: seq<real>, previous: Option<real>, shrinkable: bool): Option<real>
  {
    if |values| == 0 then None
    else if shrinkable || previous.None? then Some(MinOf(values))
    else Some(Min2(MinOf(values), previous.value))
  }

  function MergeMax(values: seq<real>, previous: Option<real>, shrinkable: bool): Option<real>
  {
    if |values| == 0 then None
    else if shrinkable || previous.None? then Some(MaxOf(values))
    else Some(Max2(MaxOf(values), previous.value))
  }

  /**
   * The merged y range covers every value it is taken over; with a scale
   * that may not shrink, y_min never rises and y_max never falls.
   */
  lemma MergeBounds(values: seq<real>, previous: Option<real>, shrinkable: bool)
    ensures var m := MergeMin(values, previous, shrinkable);
            (m.Some? <==> |values| > 0) &&
            (m.Some? ==> forall i :: 0 <= i < |values| ==> m.value <= values[i]) &&
            (!shrinkable && previous.Some? && m.Some? ==> m.value <= previous.value)
    ensures var m := MergeMax(values, previous, shrinkable);
            (m.Some? <==> |values| > 0) &&
            (m.Some? ==> forall i :: 0 <= i < |values| ==> values[i] <= m.value) &&
            (!shrinkable && previous.Some? && m.Some? ==> previous.value <= m.value)
  {
  }

  /**
   * The global x range covers the cached x range of every curve that has
   * one.
   */
  lemma XRangeCoversCurves(cs: seq<Curve>)
    ensures forall c :: 0 <= c < |cs| && cs[c].xMin.Some? ==>
      (var m := MinOpt(SomeValues(Bounds(cs, XLow))); m.Some? && m.value <= cs[c].xMin.value)
    ensures forall c :: 0 <= c < |cs| && cs[c].xMax.Some? ==>
      (var m := MaxOpt(SomeValues(Bounds(cs, XHigh))); m.Some? && cs[c].xMax.value <= m.value)
  {
    forall c | 0 <= c < |cs| && cs[c].xMin.Some?
      ensures var m := MinOpt(SomeValues(Bounds(cs, XLow))); m.Some? && m.value <= cs[c].xMin.value
    {
      SomeValuesMembers(Bounds(cs, XLow), cs[c].xMin.value);
    }
    forall c | 0 <= c < |cs| && cs[c].xMax.Some?
      ensures var m := MaxOpt(SomeValues(Bounds(cs, XHigh))); m.Some? && cs[c].xMax.value <= m.value
    {
      SomeValuesMembers(Bounds(cs, XHigh), cs[c].xMax.value);
    }
  }

  /**
   * Every point of every visible curve lies inside the global y range that
   * update_x_min_max_y_min_max computes from the curves' cached extrema.
   */
  lemma VisiblePointsInYRange(cs: seq<Curve>, visible: seq<bool>, previousMin: Option<real>,
                              previousMax: Option<real>, shrinkable: bool)
    requires |visible| == |cs| && forall c :: 0 <= c < |cs| ==> CurveValid(cs[c])
    ensures var lo := MergeMin(VisibleValues(Bounds(cs, YLow), visible), previousMin, shrinkable);
            var hi := MergeMax(VisibleValues(Bounds(cs, YHigh), visible), previousMax, shrinkable);
            forall c, i :: 0 <= c < |cs| && visible[c] && 0 <= i < |cs[c].ys| ==>
              lo.Some? && hi.Some? && lo.value <= cs[c].ys[i] <= hi.value
  {
    var lows := VisibleValues(Bounds(cs, YLow), visible);
    var highs := VisibleValues(Bounds(cs, YHigh), visible);
    MergeBounds(lows, previousMin, shrinkable);
    MergeBounds(highs, previousMax, shrinkable);
    forall c, i | 0 <= c < |cs| && visible[c] && 0 <= i < |cs[c].ys|
      ensures var lo := MergeMin(lows, previousMin, shrinkable);
              var hi := MergeMax(highs, previousMax, shrinkable);
              lo.Some? && hi.Some? && lo.value <= cs[c].ys[i] <= hi.value
    {
      var ys := cs[c].ys;
      VisibleValuesMembers(Bounds(cs, YLow), visible, MinOf(ys));
      VisibleValuesMembers(Bounds(cs, YHigh), visible, MaxOf(ys));
    }
  }

  /* ---------------------------------------------------------------------- */
  /* Plot                                                                   */
  /* ---------------------------------------------------------------------- */

  class Plot {
    const count: nat
    /** `curve_motion != 'jump'` */
    const smooth: bool
    const xDiff: real
    const yScaleShrinkable: bool

    var curvesVisible: seq<bool>
    var curves: seq<Curve>
    var xMin: Option<real>
    var xMax: Option<real>
    var yMin: Option<real>
    var yMax: Option<real>
    var partialUpdateEnabled: bool

    /** One visibility flag and one valid curve per configured curve. */
    predicate Valid()
      reads this`curvesVisible, this`curves
    {
      |curvesVisible| == count && |curves| == count &&
      forall c :: 0 <= c < count ==> CurveValid(curves[c])
    }

    /** Every curve is empty and no extremum is set. */
    predicate Cleared()
      reads this
    {
      curves == Repeat(EMPTY_CURVE, count) &&
      xMin == None && xMax == None && yMin == None && yMax == None && !partialUpdateEnabled
    }

    /** A new plot shows every curve and holds no data. */
    constructor(count: nat, smooth: bool, xDiff: real, yScaleShrinkable: bool)
      ensures Valid() && Cleared()
      ensures this.count == count && this.smooth == smooth && this.xDiff == xDiff
      ensures this.yScaleShrinkable == yScaleShrinkable
      ensures curvesVisible == Repeat(true, count)
    {
      this.count := count;
      this.smooth := smooth;
      this.xDiff := xDiff;
      this.yScaleShrinkable := yScaleShrinkable;
      curvesVisible := Repeat(true, count);
      new;
      ClearGraph();
    }

    /**
     * The global extrema are those update_x_min_max_y_min_max computes from
     * the curves' cached extrema, given the y range before the update.
     */
    predicate Recomputed(previousYMin: Option<real>, previousYMax: Option<real>)
      reads this
      requires |curvesVisible| == |curves|
    {
      xMin == MinOpt(SomeValues(Bounds(curves, XLow))) && xMax == MaxOpt(SomeValues(Bounds(curves, XHigh))) &&
      yMin == MergeMin(VisibleValues(Bounds(curves, YLow), curvesVisible), previousYMin, yScaleShrinkable) &&
      yMax == MergeMax(VisibleValues(Bounds(curves, YHigh), curvesVisible), previousYMax, yScaleShrinkable)
    }

    /** clear_graph: drops all data and extrema; which curves are shown is kept. */
    method ClearGraph()
      requires |curvesVisible| == count
      modifies this`curves, this`xMin, this`xMax, this`yMin, this`yMax, this`partialUpdateEnabled
      ensures Valid() && Cleared()
    {
      curves := Repeat(EMPTY_CURVE, count);
      xMin, xMax, yMin, yMax := None, None, None, None;
      partialUpdateEnabled := false;
    }

    /** add_jump: the next point added to curve c starts a new line segment. */
    method AddJump(c: nat)
      requires Valid() && c < count
      modifies this`curves
      ensures Valid()
      ensures curves == old(curves)[c := old(curves[c]).(jumpPending := true)]
    {
      curves := curves[c := curves[c].(jumpPending := true)];
    }

    /**
     * update_x_min_max_y_min_max: the global x range is taken over all
     * curves, the global y range over the visible ones, merged with the
     * previous range when the scale may not shrink.
     */
    method UpdateXMinMaxYMinMax()
      requires |curvesVisible| == |curves|
      modifies this`xMin, this`xMax, this`yMin, this`yMax
      ensures Recomputed(old(yMin), old(yMax))
    {
      var xMins := SomeValues(Bounds(curves, XLow));
      var xMaxs := SomeValues(Bounds(curves, XHigh));
      xMin := if |xMins| > 0 then Some(MinOf(xMins)) else None;
      xMax := if |xMaxs| > 0 then Some(MaxOf(xMaxs)) else None;
      var yMins := VisibleValues(Bounds(curves, YLow), curvesVisible);
      var yMaxs := VisibleValues(Bounds(curves, YHigh), curvesVisible);
      yMin := if |yMins| == 0 then None
              else if yScaleShrinkable || yMin == None then Some(MinOf(yMins))
              else Some(Min2(MinOf(yMins), yMin.value));
      yMax := if |yMaxs| == 0 then None
              else if yScaleShrinkable || yMax == None then Some(MaxOf(yMaxs))
              else Some(Max2(MaxOf(yMaxs), yMax.value));
    }

    /** show_curve: shows or hides curve c and, on a change, recomputes the global extrema. */
    method ShowCurve(c: nat, show: bool)
      requires Valid() && c < count
      modifies this`curvesVisible, this`xMin, this`xMax, this`yMin, this`yMax
      ensures Valid()
      ensures curvesVisible == old(curvesVisible)[c := show]
      ensures old(curvesVisible[c]) == show ==>
        xMin == old(xMin) && xMax == old(xMax) && yMin == old(yMin) && yMax == old(yMax)
      ensures old(curvesVisible[c]) != show ==>
        Recomputed(old(yMin), old(yMax))
    {
      if curvesVisible[c] == show {
        return;
      }
      curvesVisible := curvesVisible[c := show];
      UpdateXMinMaxYMinMax();
    }

    /**
     * set_data: replaces curve c by the given points (non-empty and, by the
     * caller's promise, ordered by x), without jumps, and recomputes the
     * global extrema.
     */
    method SetData(c: nat, x: seq<real>, y: seq<real>)
      requires Valid() && c < count
      requires |x| == |y| && |x| > 0
      modifies this`curves, this`xMin, this`xMax, this`yMin, this`yMax
      ensures Valid()
      ensures curves == old(curves)[c := Curve(x, y, Repeat(false, |x|), false, First(x), Last(x), MinOpt(y), MaxOpt(y))]
      ensures Recomputed(old(yMin), old(yMax))
    {
      var xFirst := x[0];
      var xLast := x[|x| - 1];
      var yLeast := MinOf(y);
      var yGreatest := MaxOf(y);
      curves := curves[c := Curve(x, y, Repeat(false, |x|), false, Some(xFirst), Some(xLast), Some(yLeast), Some(yGreatest))];
      UpdateXMinMaxYMinMax();
    }

    /**
     * The first step of add_data: unset global x extrema become x, and y is
     * folded into the global y range when curve c is visible.
     */
    method FoldIntoRanges(c: nat, x: real, y: real)
      requires c < |curvesVisible|
      modifies this`xMin, this`xMax, this`yMin, this`yMax
      ensures xMin == (if old(xMin).None? then Some(x) else old(xMin))
      ensures xMax == (if old(xMax).None? then Some(x) else old(xMax))
      ensures yMin == if curvesVisible[c] then FoldMin(old(yMin), y) else old(yMin)
      ensures yMax == if curvesVisible[c] then FoldMax(old(yMax), y) else old(yMax)
    {
      if xMin == None {
        xMin := Some(x);
      }
      if xMax == None {
        xMax := Some(x);
      }
      if curvesVisible[c] {
        yMin := FoldMin(yMin, y);
        yMax := FoldMax(yMax, y);
      }
    }

    /**
     * add_data: sets unset global x extrema to x, folds y into the global y
     * range if the curve is visible, applies Added to curve c, and then
     * either recomputes all extrema and enables partial updates (the curve
     * was trimmed) or only raises the global x maximum.
     */
    method AddData(c: nat, x: real, y: real)
      requires Valid() && c < count
      modifies this`curves, this`xMin, this`xMax, this`yMin, this`yMax, this`partialUpdateEnabled
      ensures Valid()
      ensures curves == old(curves)[c := Added(old(curves[c]), x, y, xDiff, smooth,
                                               if old(xMin).None? then x else old(xMin).value)]
      ensures Spans(old(curves[c].xs) + [x], xDiff) ==>
        partialUpdateEnabled &&
        Recomputed(if curvesVisible[c] then FoldMin(old(yMin), y) else old(yMin),
                   if curvesVisible[c] then FoldMax(old(yMax), y) else old(yMax))
      ensures !Spans(old(curves[c].xs) + [x], xDiff) ==>
        partialUpdateEnabled == old(partialUpdateEnabled) &&
        xMin == (if old(xMin).None? then Some(x) else old(xMin)) &&
        xMax == MaxOpt(SomeValues(Bounds(curves, XHigh)))
      ensures !Spans(old(curves[c].xs) + [x], xDiff) ==>
        yMin == (if curvesVisible[c] then FoldMin(old(yMin), y) else old(yMin)) &&
        yMax == (if curvesVisible[c] then FoldMax(old(yMax), y) else old(yMax))
    {
      var current := curves[c];
      ghost var curves0 := curves;
      ghost var globalXMin := if xMin.None? then x else xMin.value;
      FoldIntoRanges(c, x, y);
      ghost var yMin1, yMax1 := yMin, yMax;
      assert curves == curves0 && Valid() && xMin.value == globalXMin;
      var cv, spans := AddToCurve(current, x, y, xMin.value);
      if spans {
        MoveWindow(c, cv);
        assert Recomputed(yMin1, yMax1);
      } else {
        ExtendCurve(c, cv, x);
        assert yMin == yMin1 && yMax == yMax1;
      }
      assert curves == curves0[c := cv];
    }

    /**
     * add_data's work on one curve: append the point, then trim the curve if
     * it spans x_diff (reporting whether it did), or else move its x maximum
     * to the new last x.
     */
    method AddToCurve(current: Curve, x: real, y: real, globalXMin: real) returns (cv: Curve, spans: bool)
      requires CurveValid(current)
      ensures cv == Added(current, x, y, xDiff, smooth, globalXMin)
      ensures spans == Spans(current.xs + [x], xDiff)
      ensures CurveValid(cv) && (!spans ==> cv.xMax == Some(x))
    {
      AddedCurve(current, x, y, xDiff, smooth, globalXMin);
      var appended := Appended(current, x, y);
      spans := Spans(appended.xs, xDiff);
      if spans {
        var k: nat;
        if !smooth {
          k := BisectLeft(appended.xs, (Trunc(globalXMin) + 1) as real);
        } else {
          k := 1;
        }
        cv := Trimmed(appended, k);
      } else {
        cv := appended.(xMax := Last(appended.xs));
      }
    }

    /**
     * The branch of add_data for a curve that spans x_diff: the trimmed curve
     * takes its place, all extrema are recomputed, and partial updates are
     * enabled.
     */
    method MoveWindow(c: nat, cv: Curve)
      requires Valid() && c < count && CurveValid(cv)
      modifies this`curves, this`xMin, this`xMax, this`yMin, this`yMax, this`partialUpdateEnabled
      ensures Valid() && curves == old(curves)[c := cv] && partialUpdateEnabled
      ensures Recomputed(old(yMin), old(yMax))
    {
      ReplaceCurve(c, cv);
      UpdateXMinMaxYMinMax();
      partialUpdateEnabled := true;
    }

    /**
     * The other branch: the appended curve, whose last x is x, takes its
     * place and the global x maximum becomes the greatest curve maximum.
     */
    method ExtendCurve(c: nat, cv: Curve, x: real)
      requires Valid() && c < count && CurveValid(cv) && cv.xMax == Some(x)
      modifies this`curves, this`xMax
      ensures Valid() && curves == old(curves)[c := cv]
      ensures xMax == MaxOpt(SomeValues(Bounds(curves, XHigh)))
    {
      ReplaceCurve(c, cv);
      assert Bounds(curves, XHigh)[c] == Some(x);
      SomeValuesMembers(Bounds(curves, XHigh), x);
      xMax := Some(MaxOf(SomeValues(Bounds(curves, XHigh))));
    }

    /** Puts a valid curve in place of curve c. */
    method ReplaceCurve(c: nat, cv: Curve)
      requires Valid() && c < count && CurveValid(cv)
      modifies this`curves
      ensures Valid()
      ensures curves == old(curves)[c := cv]
    {
      curves := curves[c := cv];
    }
  }

  /* ---------------------------------------------------------------------- */
  /* PlotWidget                                                             */
  /* ---------------------------------------------------------------------- */

  /** The curves after the stop setter has visited the first n wrappers while stopping or not. */
  function MarkJumps(cs: seq<Curve>, wrappers: seq<CurveValueWrapper?>, stop: bool, n: nat): (r: seq<Curve>)
    requires n <= |cs| && n <= |wrappers|
    ensures |r| == |cs|
    decreases n
  {
    if n == 0 then cs
    else
      var r := MarkJumps(cs, wrappers, stop, n - 1);
      if stop && wrappers[n - 1] != null then r[n - 1 := r[n - 1].(jumpPending := true)] else r
  }

  /**
   * Stopping sets the pending jump of exactly the visited curves that have a
   * wrapper and leaves everything else of every curve as it was.
   */
  lemma {:induction false} MarkJumpsMarks(cs: seq<Curve>, wrappers: seq<CurveValueWrapper?>, stop: bool, n: nat)
    requires n <= |cs| && n <= |wrappers|
    ensures forall j :: 0 <= j < |cs| ==>
      MarkJumps(cs, wrappers, stop, n)[j] ==
        if j < n && stop && wrappers[j] != null then cs[j].(jumpPending := true) else cs[j]
    decreases n
  {
    if n > 0 {
      MarkJumpsMarks(cs, wrappers, stop, n - 1);
    }
  }

  /** The widget around a plot; `wrappers[i]` is curve i's value wrapper, if it has one. */
  class PlotWidget {
    const plot: Plot
    const wrappers: seq<CurveValueWrapper?>
    var stop: bool

    constructor(plot: Plot, wrappers: seq<CurveValueWrapper?>)
      ensures this.plot == plot && this.wrappers == wrappers && stop
    {
      this.plot := plot;
      this.wrappers := wrappers;
      stop := true;
    }

    function Wrappers(): set<CurveValueWrapper>
      reads this
    {
      set i | 0 <= i < |wrappers| && wrappers[i] != null :: wrappers[i]
    }

    /**
     * The stop setter: every wrapper is locked exactly when stopping and its
     * history is dropped; stopping also marks a jump on each curve with a
     * wrapper, so the plot does not join the points across the pause.
     */
    method SetStop(stop: bool)
      requires plot.Valid() && |wrappers| == plot.count
      modifies this`stop, Wrappers()`locked, Wrappers()`history, plot`curves
      ensures this.stop == stop && plot.Valid()
      ensures forall i :: 0 <= i < |wrappers| && wrappers[i] != null ==>
        wrappers[i].locked == stop && wrappers[i].history == []
      ensures plot.curves == MarkJumps(old(plot.curves), wrappers, stop, |wrappers|)
    {
      var i := 0;
      while i < |wrappers|
        invariant 0 <= i <= |wrappers|
        invariant plot.Valid()
        invariant forall j :: 0 <= j < i && wrappers[j] != null ==>
          wrappers[j].locked == stop && wrappers[j].history == []
        invariant plot.curves == MarkJumps(old(plot.curves), wrappers, stop, i)
      {
        var wrapper := wrappers[i];
        if wrapper != null {
          wrapper.locked := stop;
          wrapper.history := [];
          if stop {
            plot.AddJump(i);
          }
        }
        i := i + 1;
      }
      this.stop := stop;
    }
  }
}
