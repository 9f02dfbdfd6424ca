/**
 * The metric graph (graphwidget.cpp): the x/y series a metric is plotted
 * from, the scrolling window over x, and the y range paintGL fits the plot
 * to. Drawing is outside the model.
 */
module GraphWidget {
  import opened Json

  /** A qreal argument: a number or NaN (the infinities fall under the
    * range check like any out-of-range number). */
  datatype Double = Finite(value: real) | NaN

  const YLimit: real := 1000000.0
  const WindowSize: real := 100.0
  /** std::numeric_limits<qreal>::max() */
  const DoubleMax: real := 179769313486231570000000000000000000000000000000000000000000000000000000000000000000000000000000000000000000000000000000000000000000000000000000000000000000000000000000000000000000000000000000000000000000000000000000000000000000000000000000000000000000000000000000000000000000000000000000000000000000.0
  /** ringRadius = markerRadius + 0.1 */
  const RingRadius: real := 1.1

  predicate NonDecreasing(xs: seq<real>) {
    forall i, j :: 0 <= i < j < |xs| ==> xs[i] <= xs[j]
  }

  predicate InWindow(x: real, offset: real) {
    offset <= x <= offset + WindowSize
  }

  /** The y values of the points whose x lies in the window, in order. */
  function WindowYs(xs: seq<real>, ys: seq<real>, offset: real): (r: seq<real>)
    requires |xs| == |ys|
    ensures forall y :: y in r <==> exists k :: 0 <= k < |xs| && InWindow(xs[k], offset) && ys[k] == y
    decreases |xs|
  {
    if xs == [] then []
    else
      var n := |xs| - 1;
      var rest := WindowYs(xs[..n], ys[..n], offset);
      if InWindow(xs[n], offset) then rest + [ys[n]] else rest
  }

  function MinOf(a: real, b: real): real {
    if a <= b then a else b
  }

  function MaxOf(a: real, b: real): real {
    if a >= b then a else b
  }

  /** The loop's minimum and maximum over ys, from the double extremes. */
  function Extremes(ys: seq<real>): (r: (real, real))
    decreases |ys|
  {
    if ys == [] then (DoubleMax, -DoubleMax)
    else
      var e := Extremes(ys[..|ys| - 1]);
      (MinOf(e.0, ys[|ys| - 1]), MaxOf(e.1, ys[|ys| - 1]))
  }

  predicate Bounded(ys: seq<real>) {
    forall k :: 0 <= k < |ys| ==> -YLimit <= ys[k] <= YLimit
  }

  /** Over values the graph accepts, the loop gives the least and the
    * greatest of them, and on no values an empty range (min > max). */
  lemma {:induction false} ExtremesAreBounds(ys: seq<real>)
    requires Bounded(ys)
    ensures ys == [] ==> Extremes(ys).0 > Extremes(ys).1
    ensures ys != [] ==> Extremes(ys).0 in ys && Extremes(ys).1 in ys
    ensures forall y :: y in ys ==> Extremes(ys).0 <= y <= Extremes(ys).1
    decreases |ys|
  {
    if ys != [] {
      var n := |ys| - 1;
      var prefix := ys[..n];
      var last := ys[n];
      assert -YLimit <= last <= YLimit;
      assert Bounded(prefix) by {
        forall k | 0 <= k < |prefix|
          ensures -YLimit <= prefix[k] <= YLimit
        {
          assert prefix[k] == ys[k];
        }
      }
      ExtremesAreBounds(prefix);
      assert ys == prefix + [last];
      var e := Extremes(prefix);
      assert Extremes(ys) == (MinOf(e.0, last), MaxOf(e.1, last));
      if prefix == [] {
        assert Extremes(ys) == (last, last);
      } else {
        assert e.0 in prefix && e.1 in prefix;
      }
      forall y | y in ys
        ensures Extremes(ys).0 <= y <= Extremes(ys).1
      {
        if y != last {
          assert y in prefix;
        }
      }
    }
  }

  /** The y range before padding: the window's minimum and maximum, or
    * -1..1 when no point is in the window. */
  function YRange(xs: seq<real>, ys: seq<real>, offset: real): (real, real)
    requires |xs| == |ys|
  {
    var e := Extremes(WindowYs(xs, ys, offset));
    if e.0 > e.1 then (-1.0, 1.0) else e
  }

  /** The padded range: a tenth of the height on each side, or the ring
    * radius when the height is below two ring radii. */
  function Padded(range: (real, real)): (real, real) {
    var height := range.1 - range.0;
    var padding := if height < RingRadius * 2.0 then RingRadius else height * 0.1;
    (range.0 - padding, range.1 + padding)
  }

  /** The plot's y range holds every in-window y and is never empty, so
    * glOrtho always gets a proper interval. */
  lemma YRangeContainsWindow(xs: seq<real>, ys: seq<real>, offset: real)
    requires |xs| == |ys| && Bounded(ys)
    ensures YRange(xs, ys, offset).0 <= YRange(xs, ys, offset).1
    ensures forall k :: 0 <= k < |xs| && InWindow(xs[k], offset) ==>
      YRange(xs, ys, offset).0 <= ys[k] <= YRange(xs, ys, offset).1
    ensures Padded(YRange(xs, ys, offset)).0 < Padded(YRange(xs, ys, offset)).1
  {
    var w := WindowYs(xs, ys, offset);
    forall k | 0 <= k < |w|
      ensures -YLimit <= w[k] <= YLimit
    {
      assert w[k] in w;
    }
    ExtremesAreBounds(w);
    forall k | 0 <= k < |xs| && InWindow(xs[k], offset)
      ensures ys[k] in w
    {
    }
  }

  class GraphWidget {
    var xData: seq<real>
    var yData: seq<real>
    var xScrollOffset: real

    /** The series have equal length, x never decreases, every y passed the
      * range check, and the newest point is not right of the window. */
    predicate Valid()
      reads this
    {
      && |xData| == |yData|
      && NonDecreasing(xData)
      && Bounded(yData)
      && (xData != [] ==> xData[|xData| - 1] <= xScrollOffset + WindowSize)
    }

    constructor ()
      ensures xData == [] && yData == [] && xScrollOffset == 0.0
      ensures Valid()
    {
      xData := [];
      yData := [];
      xScrollOffset := 0.0;
    }

    /** addData: a NaN or out-of-range y is ignored; an x below the last x
      * starts the series again at scroll offset 0; the point is appended
      * and the window scrolls right just far enough to show it. */
    method AddData(x: real, y: Double)
      requires Valid()
      modifies this
      ensures Valid()
      ensures y.NaN? || y.value < -YLimit || y.value > YLimit ==>
        xData == old(xData) && yData == old(yData) && xScrollOffset == old(xScrollOffset)
      ensures y.Finite? && -YLimit <= y.value <= YLimit ==>
        var restart := old(xData) != [] && x < old(xData)[|old(xData)| - 1];
        var offset := if restart then 0.0 else old(xScrollOffset);
        && xData == (if restart then [] else old(xData)) + [x]
        && yData == (if restart then [] else old(yData)) + [y.value]
        && xScrollOffset == (if x > offset + WindowSize then x - WindowSize else offset)
      ensures y.Finite? && -YLimit <= y.value <= YLimit ==> x <= xScrollOffset + WindowSize
    {
      if y.NaN? || y.value < -YLimit || y.value > YLimit {
        return;
      }
      if xData != [] && x < xData[|xData| - 1] {
        xData := [];
        yData := [];
        xScrollOffset := 0.0;
      }
      xData := xData + [x];
      yData := yData + [y.value];
      if x > xScrollOffset + WindowSize {
        xScrollOffset := x - WindowSize;
      }
    }

    /** getData: the x series, then the y series. */
    method GetData() returns (data: seq<seq<real>>)
      ensures data == [xData, yData]
    {
      data := [xData, yData];
    }

    /** The range loop of paintGL: nothing is painted for an empty series;
      * otherwise the padded y range of the in-window points. */
    method PaintRange() returns (range: Option<(real, real)>)
      requires Valid()
      ensures xData == [] ==> range.None?
      ensures xData != [] ==> range == Some(Padded(YRange(xData, yData, xScrollOffset)))
    {
      if xData == [] {
        return None;
      }
      var yMin := DoubleMax;
      var yMax := -DoubleMax;
      var i := 0;
      while i < |xData|
        invariant 0 <= i <= |xData|
        invariant (yMin, yMax) == Extremes(WindowYs(xData[..i], yData[..i], xScrollOffset))
      {
        assert xData[..i + 1][..i] == xData[..i];
        assert yData[..i + 1][..i] == yData[..i];
        if InWindow(xData[i], xScrollOffset) {
          ghost var w := WindowYs(xData[..i], yData[..i], xScrollOffset);
          assert (w + [yData[i]])[..|w|] == w;
          yMin := MinOf(yMin, yData[i]);
          yMax := MaxOf(yMax, yData[i]);
        }
        i := i + 1;
      }
      assert xData[..i] == xData && yData[..i] == yData;
      if yMin > yMax {
        yMin := -1.0;
        yMax := 1.0;
      }
      var xPadding := WindowSize * 0.1;
      var yPadding := (yMax - yMin) * 0.1;
      if yMax - yMin < RingRadius * 2.0 {
        yPadding := RingRadius;
      }
      range := Some((yMin - yPadding, yMax + yPadding));
    }
  }
}
