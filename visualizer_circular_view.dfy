/**
  `OSSVisualizerCircularView`: bars arranged around a circle. Only the integer
  bookkeeping is modelled: how many bars there are, their angles and tags,
  the wave-form bounds, and the index checks of the animation loops.
 */
module CircularVisualizer {
  import opened Waveform

  /** `OSSVisualizerCircularViewBarType`. */
  datatype BarType = Custom | Low | Medium | High | ExtraHigh | Extreme

  /** `barCount`: every count divides 360, so the bars cover the whole circle. */
  function BarCount(t: BarType): (n: int)
    ensures 30 <= n <= 180 && 360 % n == 0
    ensures t == Custom ==> n == 30
  {
    match t
    case Low => 30
    case Medium => 45
    case High => 60
    case ExtraHigh => 90
    case Extreme => 180
    case Custom => 30
  }

  /** `barWidth` of a bar type. */
  function BarWidth(t: BarType): (w: real)
    ensures 0.0 < w <= 4.0
  {
    match t
    case Low => 4.0
    case Medium => 3.0
    case High => 2.0
    case ExtraHigh => 1.3
    case Extreme => 0.6
    case Custom => 1.0
  }

  /** Among the fixed bar types, more bars means narrower bars. */
  lemma BarWidthShrinksAsCountGrows(s: BarType, t: BarType)
    requires s != Custom && t != Custom
    ensures BarCount(s) < BarCount(t) <==> BarWidth(t) < BarWidth(s)
  {
  }

  /**
    The angle, in whole degrees, at which bar `i` of `n` sits (Swift's integer
    division; `n` is positive). The first bar is at the top of the circle, and
    every bar lies within one turn from it.
   */
  function BarAngle(n: int, i: int): (a: int)
    requires n > 0
    ensures i == 0 ==> a == -90
    ensures 0 <= i < n ==> -90 <= a < 270
  {
    BarAngleWithinTurn(n, i);
    (360 / n) * i - 90
  }

  /** `(360 / n) * i` stays below a full turn for the bars `0 ..< n`. */
  lemma BarAngleWithinTurn(n: int, i: int)
    requires n > 0
    ensures 0 <= i < n ==> 0 <= (360 / n) * i < 360
  {
    if 0 <= i < n {
      var step := 360 / n;
      assert step * n <= 360;
      assert step * i <= step * (n - 1) by {
        assert step * (n - 1) - step * i == step * (n - 1 - i);
      }
      assert step * (n - 1) == step * n - step;
      if step == 0 {
        assert step * i == 0;
      }
    }
  }

  /**
    The rotation, in whole degrees, applied to bar `i` of `n`: the bar's own
    angle turned a further three quarters, so that it points away from the centre.
   */
  function BarRotation(n: int, i: int): (r: int)
    requires n > 0
    ensures r == BarAngle(n, i) + 270
    ensures 0 <= i < n ==> 180 <= r < 540
  {
    (360 / n) * i + 180
  }

  /** Neighbouring bars are `360 / n` degrees apart, whatever the count. */
  lemma BarAngleSpacing(n: int)
    requires n > 0
    ensures forall i :: BarAngle(n, i + 1) - BarAngle(n, i) == 360 / n
  {
    forall i
      ensures BarAngle(n, i + 1) - BarAngle(n, i) == 360 / n
    {
      assert (360 / n) * (i + 1) == (360 / n) * i + 360 / n;
    }
  }

  /**
    When `n` divides 360, the bar after the last one would sit on the first:
    the circle closes.
   */
  lemma BarAnglesCloseCircle(n: int)
    requires n > 0 && 360 % n == 0
    ensures BarAngle(n, n) == BarAngle(n, 0) + 360
  {
    assert 360 == (360 / n) * n + 360 % n;
  }

  /** When `n` does not divide 360, the bars stop short of a full turn and leave a gap. */
  lemma BarAnglesLeaveGap(n: int)
    requires n > 0 && 360 % n != 0
    ensures BarAngle(n, n) < BarAngle(n, 0) + 360
  {
    assert 360 == (360 / n) * n + 360 % n;
  }

  /** Every bar type's count closes the circle. */
  lemma BarTypesCloseCircle(t: BarType)
    ensures BarAngle(BarCount(t), BarCount(t)) == BarAngle(BarCount(t), 0) + 360
  {
    BarAnglesCloseCircle(BarCount(t));
  }

  /** A point on the circle, known by the angle (degrees) it was computed from. */
  datatype CirclePoint = OnCircle(angle: int)

  /** A bar view: its tag, its rotation in degrees and its height. */
  datatype BarView = BarView(tag: int, rotation: int, height: Height)

  class OSSVisualizerCircularView {
    var barsViewsCount: int
    var barWidth: real
    var barType: BarType
    var isVisualizerActive: bool
    /** The bars' angles; the source stores them in radians, the model in whole degrees. */
    var radians: seq<int>
    var barPoints: seq<CirclePoint>
    var rectArray: seq<BarView>
    var waveFormArray: seq<int>
    var initialBarHeight: real

    /** The per-bar arrays grow together. */
    ghost predicate Valid()
      reads this
    {
      |radians| == |rectArray| && |barPoints| == |rectArray|
    }

    /** The first `n` bars, in order, with their angles and points. */
    ghost predicate HasBars(n: int)
      reads this
    {
      && |rectArray| == n && |radians| == n && |barPoints| == n
      && forall i :: 0 <= i < n ==>
           && radians[i] == BarAngle(n, i)
           && barPoints[i] == OnCircle(BarAngle(n, i))
           && rectArray[i] == BarView(i, BarRotation(n, i), Resting)
    }

    /** What `drawVisualizer` leaves behind, for the current bar count and width. */
    twostate predicate DrawnFrom(o: Outcome)
      reads this
    {
      && (old(|rectArray|) != 0 ==>
            && o == Ok
            && rectArray == old(rectArray) && radians == old(radians) && barPoints == old(barPoints)
            && waveFormArray == old(waveFormArray) && initialBarHeight == old(initialBarHeight))
      && (old(|rectArray|) == 0 ==> (o == Ok <==> barsViewsCount >= 0))
      && (old(|rectArray|) == 0 && barsViewsCount >= 0 ==> HasBars(barsViewsCount))
      && (old(|rectArray|) == 0 && barsViewsCount > 0 ==>
            IsWaveForm(waveFormArray, barsViewsCount) && initialBarHeight == barWidth)
      && (barsViewsCount <= 0 ==> waveFormArray == old(waveFormArray) && initialBarHeight == old(initialBarHeight))
    }

    /** `init(frame:)`: the medium count and width, bar type `custom`, no bars yet. */
    constructor ()
      ensures Valid()
      ensures barsViewsCount == BarCount(Medium) && barWidth == BarWidth(Medium) && barType == Custom
      ensures !isVisualizerActive && initialBarHeight == 0.0
      ensures radians == [] && barPoints == [] && rectArray == [] && waveFormArray == []
    {
      barsViewsCount := BarCount(Medium);
      barWidth := BarWidth(Medium);
      barType := Custom;
      isVisualizerActive := false;
      radians, barPoints, rectArray, waveFormArray := [], [], [], [];
      initialBarHeight := 0.0;
    }

    /** `layoutSubviews`: adopt the bar type's count and width unless it is `custom`, then draw. */
    method LayoutSubviews() returns (o: Outcome)
      requires Valid()
      modifies this
      ensures Valid() && DrawnFrom(o)
      ensures barType == old(barType) && isVisualizerActive == old(isVisualizerActive)
      ensures barType != Custom ==> barsViewsCount == BarCount(barType) && barWidth == BarWidth(barType)
      ensures barType == Custom ==> barsViewsCount == old(barsViewsCount) && barWidth == old(barWidth)
    {
      if barType != Custom {
        barWidth := BarWidth(barType);
        barsViewsCount := BarCount(barType);
      }
      o := DrawVisualizer();
    }

    /** `drawVisualizer`: build the bars, but only while there are none. */
    method DrawVisualizer() returns (o: Outcome)
      requires Valid()
      modifies this
      ensures Valid() && DrawnFrom(o)
      ensures barsViewsCount == old(barsViewsCount) && barWidth == old(barWidth)
      ensures barType == old(barType) && isVisualizerActive == old(isVisualizerActive)
    {
      if |rectArray| != 0 {
        return Ok;
      }
      rectArray := [];
      var n := barsViewsCount;
      if n < 0 {
        // `0..<n` is not a valid range.
        return Trap;
      }
      for i := 0 to n
        invariant |rectArray| == i && |radians| == i && |barPoints| == i
        invariant forall k :: 0 <= k < i ==>
          && radians[k] == BarAngle(n, k)
          && barPoints[k] == OnCircle(BarAngle(n, k))
          && rectArray[k] == BarView(k, BarRotation(n, k), Resting)
        invariant i > 0 ==> IsWaveForm(waveFormArray, n) && initialBarHeight == barWidth
        invariant i == 0 ==> waveFormArray == old(waveFormArray) && initialBarHeight == old(initialBarHeight)
        invariant barsViewsCount == n && barWidth == old(barWidth)
        invariant barType == old(barType) && isVisualizerActive == old(isVisualizerActive)
      {
        var angle := BarAngle(n, i);
        radians := radians + [angle];
        barPoints := barPoints + [OnCircle(angle)];
        initialBarHeight := barWidth;
        rectArray := rectArray + [BarView(i, BarRotation(n, i), Resting)];
        // The wave form is rebuilt, identically, on every pass.
        waveFormArray := FillWaveForm(n);
      }
      o := Ok;
    }

    /**
      `animateAudioVisualizer`: raise bars `0 ..< barsViewsCount`, reading
      `waveFormArray[i]` and `rectArray[i]`; an index past either array traps.
     */
    method AnimateAudioVisualizer() returns (o: Outcome)
      modifies this
      ensures isVisualizerActive
      ensures o == Ok <==> 0 <= barsViewsCount <= |rectArray| && barsViewsCount <= |waveFormArray|
      ensures |rectArray| == old(|rectArray|)
      ensures o == Ok ==> forall i :: 0 <= i < |rectArray| ==>
        rectArray[i] == if i < barsViewsCount then old(rectArray[i]).(height := Animated) else old(rectArray[i])
      ensures barsViewsCount == old(barsViewsCount) && barWidth == old(barWidth) && barType == old(barType)
      ensures radians == old(radians) && barPoints == old(barPoints) && waveFormArray == old(waveFormArray)
      ensures initialBarHeight == old(initialBarHeight)
    {
      isVisualizerActive := true;
      var n := barsViewsCount;
      if n < 0 {
        return Trap;
      }
      for i := 0 to n
        invariant i <= |rectArray| && i <= |waveFormArray|
        invariant |rectArray| == old(|rectArray|)
        invariant forall k :: 0 <= k < |rectArray| ==>
          rectArray[k] == if k < i then old(rectArray[k]).(height := Animated) else old(rectArray[k])
        invariant barsViewsCount == n && isVisualizerActive
        invariant barWidth == old(barWidth) && barType == old(barType)
        invariant radians == old(radians) && barPoints == old(barPoints) && waveFormArray == old(waveFormArray)
        invariant initialBarHeight == old(initialBarHeight)
      {
        if i >= |waveFormArray| || i >= |rectArray| {
          return Trap;
        }
        rectArray := rectArray[i := rectArray[i].(height := Animated)];
      }
      o := Ok;
    }

    /** `endAnimatingAudioVisualizer`: return bars `0 ..< barsViewsCount` to rest. */
    method EndAnimatingAudioVisualizer() returns (o: Outcome)
      modifies this
      ensures !isVisualizerActive
      ensures o == Ok <==> 0 <= barsViewsCount <= |rectArray|
      ensures |rectArray| == old(|rectArray|)
      ensures o == Ok ==> forall i :: 0 <= i < |rectArray| ==>
        rectArray[i] == if i < barsViewsCount then old(rectArray[i]).(height := Resting) else old(rectArray[i])
      ensures barsViewsCount == old(barsViewsCount) && barWidth == old(barWidth) && barType == old(barType)
      ensures radians == old(radians) && barPoints == old(barPoints) && waveFormArray == old(waveFormArray)
      ensures initialBarHeight == old(initialBarHeight)
    {
      isVisualizerActive := false;
      var n := barsViewsCount;
      if n < 0 {
        return Trap;
      }
      for i := 0 to n
        invariant i <= |rectArray|
        invariant |rectArray| == old(|rectArray|)
        invariant forall k :: 0 <= k < |rectArray| ==>
          rectArray[k] == if k < i then old(rectArray[k]).(height := Resting) else old(rectArray[k])
        invariant barsViewsCount == n && !isVisualizerActive
        invariant barWidth == old(barWidth) && barType == old(barType)
        invariant radians == old(radians) && barPoints == old(barPoints) && waveFormArray == old(waveFormArray)
        invariant initialBarHeight == old(initialBarHeight)
      {
        if i >= |rectArray| {
          return Trap;
        }
        rectArray := rectArray[i := rectArray[i].(height := Resting)];
      }
      o := Ok;
    }
  }

  /** Laid out once, with any bar type, the view animates and ends within range. */
  method LayoutOnceThenAnimate(t: BarType) returns (animate: Outcome, end: Outcome, bars: nat)
    ensures animate == Ok && end == Ok
    ensures bars == if t == Custom then BarCount(Medium) else BarCount(t)
  {
    var view := new OSSVisualizerCircularView();
    view.barType := t;
    var drawn := view.LayoutSubviews();
    animate := view.AnimateAudioVisualizer();
    end := view.EndAnimatingAudioVisualizer();
    bars := |view.rectArray|;
  }

  /**
    Switching from the default to `extreme` after the first layout raises the
    bar count to 180 while the 45 bars already built stay: animating traps.
   */
  method ChangingBarTypeAfterLayoutTraps() returns (o: Outcome, bars: nat, count: int)
    ensures o == Trap && bars == 45 && count == 180
  {
    var view := new OSSVisualizerCircularView();
    var first := view.LayoutSubviews();
    view.barType := Extreme;
    var second := view.LayoutSubviews();
    bars, count := |view.rectArray|, view.barsViewsCount;
    o := view.AnimateAudioVisualizer();
  }
}
