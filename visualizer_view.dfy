/**
  `OSSVisualizerView`: a row of equalizer bars. Only the integer bookkeeping
  is modelled: the once-only layout, how many bars and wave-form entries
  there are, and the index checks of the animation loops.
 */
module BarVisualizer {
  import opened Waveform

  /** A bar view: its position in the row, its height and its opacity. */
  datatype EqualizerBar = EqualizerBar(index: int, height: Height, alpha: real)

  class OSSVisualizerView {
    var barsViewsCount: int
    var frameWidth: real
    var frameHeight: real
    var rectViewArray: seq<EqualizerBar>
    var waveFormArray: seq<int>
    var hasSetLayout: bool

    /** `frame.size == .zero`. */
    predicate FrameIsZero()
      reads this
    {
      frameWidth == 0.0 && frameHeight == 0.0
    }

    /** The bars `0 ... n` at rest, and their `n + 1` wave-form bounds. */
    ghost predicate HasBars(n: int)
      reads this
    {
      && |rectViewArray| == n + 1
      && (forall i :: 0 <= i <= n ==> rectViewArray[i] == EqualizerBar(i, Resting, 1.0))
      && IsWaveForm(waveFormArray, n + 1)
    }

    /** `init()`: a zero frame, ten bars to come, nothing laid out. */
    constructor ()
      ensures FrameIsZero() && barsViewsCount == 10
      ensures rectViewArray == [] && waveFormArray == [] && !hasSetLayout
    {
      barsViewsCount := 10;
      frameWidth, frameHeight := 0.0, 0.0;
      rectViewArray, waveFormArray := [], [];
      hasSetLayout := false;
    }

    /** `init(frame:)`. */
    constructor WithFrame(width: real, height: real)
      ensures frameWidth == width && frameHeight == height && barsViewsCount == 10
      ensures rectViewArray == [] && waveFormArray == [] && !hasSetLayout
    {
      barsViewsCount := 10;
      frameWidth, frameHeight := width, height;
      rectViewArray, waveFormArray := [], [];
      hasSetLayout := false;
    }

    /** `layoutSubviews`: add the bars the first time the frame is not zero, and never again. */
    method LayoutSubviews() returns (o: Outcome)
      modifies this
      ensures old(hasSetLayout) || old(FrameIsZero()) ==> o == Ok && unchanged(this)
      ensures !old(hasSetLayout) && !old(FrameIsZero()) ==>
        && hasSetLayout
        && (o == Ok <==> barsViewsCount >= 0)
        && (o == Ok ==> HasBars(barsViewsCount))
      ensures hasSetLayout == (old(hasSetLayout) || !old(FrameIsZero()))
      ensures barsViewsCount == old(barsViewsCount)
      ensures frameWidth == old(frameWidth) && frameHeight == old(frameHeight)
    {
      if !hasSetLayout && !FrameIsZero() {
        hasSetLayout := true;
        o := AddEqualizerBars();
      } else {
        o := Ok;
      }
    }

    /** `addEqualizerBars`: empty both arrays, then add bars and wave-form bounds for `0 ... barsViewsCount`. */
    method AddEqualizerBars() returns (o: Outcome)
      modifies this
      ensures o == Ok <==> barsViewsCount >= 0
      ensures o == Ok ==> HasBars(barsViewsCount)
      ensures o == Trap ==> rectViewArray == [] && waveFormArray == []
      ensures barsViewsCount == old(barsViewsCount) && hasSetLayout == old(hasSetLayout)
      ensures frameWidth == old(frameWidth) && frameHeight == old(frameHeight)
    {
      waveFormArray := [];
      rectViewArray := [];
      var n := barsViewsCount;
      if n < 0 {
        // `0...n` is not a valid range.
        return Trap;
      }
      for i := 0 to n + 1
        invariant |rectViewArray| == i
        invariant forall k :: 0 <= k < i ==> rectViewArray[k] == EqualizerBar(k, Resting, 1.0)
        invariant waveFormArray == []
        invariant barsViewsCount == n && hasSetLayout == old(hasSetLayout)
        invariant frameWidth == old(frameWidth) && frameHeight == old(frameHeight)
      {
        rectViewArray := rectViewArray + [EqualizerBar(i, Resting, 1.0)];
      }
      waveFormArray := FillWaveForm(n + 1);
      o := Ok;
    }

    /**
      `animateAudioVisualizer`: raise bars `0 ... barsViewsCount`, reading
      `waveFormArray[i]` and `rectViewArray[i]`; an index past either array traps.
     */
    method AnimateAudioVisualizer() returns (o: Outcome)
      modifies this
      ensures o == Ok <==> 0 <= barsViewsCount < |rectViewArray| && barsViewsCount < |waveFormArray|
      ensures |rectViewArray| == old(|rectViewArray|)
      ensures o == Ok ==> forall i :: 0 <= i < |rectViewArray| ==>
        rectViewArray[i] ==
          if i <= barsViewsCount then old(rectViewArray[i]).(height := Animated, alpha := 1.0) else old(rectViewArray[i])
      ensures waveFormArray == old(waveFormArray) && barsViewsCount == old(barsViewsCount)
      ensures hasSetLayout == old(hasSetLayout)
      ensures frameWidth == old(frameWidth) && frameHeight == old(frameHeight)
    {
      var n := barsViewsCount;
      if n < 0 {
        return Trap;
      }
      for i := 0 to n + 1
        invariant i <= |rectViewArray| && i <= |waveFormArray|
        invariant |rectViewArray| == old(|rectViewArray|)
        invariant forall k :: 0 <= k < |rectViewArray| ==>
          rectViewArray[k] ==
            if k < i then old(rectViewArray[k]).(height := Animated, alpha := 1.0) else old(rectViewArray[k])
        invariant waveFormArray == old(waveFormArray) && barsViewsCount == n
        invariant hasSetLayout == old(hasSetLayout)
        invariant frameWidth == old(frameWidth) && frameHeight == old(frameHeight)
      {
        if i >= |waveFormArray| || i >= |rectViewArray| {
          return Trap;
        }
        rectViewArray := rectViewArray[i := rectViewArray[i].(height := Animated, alpha := 1.0)];
      }
      o := Ok;
    }

    /** `endAnimatingAudioVisualizer`: return bars `0 ... barsViewsCount` to rest at half opacity. */
    method EndAnimatingAudioVisualizer() returns (o: Outcome)
      modifies this
      ensures o == Ok <==> 0 <= barsViewsCount < |rectViewArray|
      ensures |rectViewArray| == old(|rectViewArray|)
      ensures o == Ok ==> forall i :: 0 <= i < |rectViewArray| ==>
        rectViewArray[i] ==
          if i <= barsViewsCount then old(rectViewArray[i]).(height := Resting, alpha := 0.5) else old(rectViewArray[i])
      ensures waveFormArray == old(waveFormArray) && barsViewsCount == old(barsViewsCount)
      ensures hasSetLayout == old(hasSetLayout)
      ensures frameWidth == old(frameWidth) && frameHeight == old(frameHeight)
    {
      var n := barsViewsCount;
      if n < 0 {
        return Trap;
      }
      for i := 0 to n + 1
        invariant i <= |rectViewArray|
        invariant |rectViewArray| == old(|rectViewArray|)
        invariant forall k :: 0 <= k < |rectViewArray| ==>
          rectViewArray[k] ==
            if k < i then old(rectViewArray[k]).(height := Resting, alpha := 0.5) else old(rectViewArray[k])
        invariant waveFormArray == old(waveFormArray) && barsViewsCount == n
        invariant hasSetLayout == old(hasSetLayout)
        invariant frameWidth == old(frameWidth) && frameHeight == old(frameHeight)
      {
        if i >= |rectViewArray| {
          return Trap;
        }
        rectViewArray := rectViewArray[i := rectViewArray[i].(height := Resting, alpha := 0.5)];
      }
      o := Ok;
    }
  }

  /** Before its first layout the view has no bars, so animating traps at bar 0. */
  method AnimateBeforeLayoutTraps() returns (o: Outcome)
    ensures o == Trap
  {
    var view := new OSSVisualizerView();
    var layout := view.LayoutSubviews();
    o := view.AnimateAudioVisualizer();
  }

  /** With a non-zero frame, one layout gives eleven bars and both loops stay in range. */
  method LayoutThenAnimate(width: real, height: real) returns (animate: Outcome, end: Outcome, bars: nat)
    requires width != 0.0 || height != 0.0
    ensures animate == Ok && end == Ok && bars == 11
  {
    var view := new OSSVisualizerView.WithFrame(width, height);
    var layout := view.LayoutSubviews();
    animate := view.AnimateAudioVisualizer();
    end := view.EndAnimatingAudioVisualizer();
    bars := |view.rectViewArray|;
  }

  /** Raising the bar count after layout does not rebuild the bars, and animating then traps. */
  method GrowingCountAfterLayoutTraps(width: real, height: real) returns (o: Outcome)
    requires width != 0.0 || height != 0.0
    ensures o == Trap
  {
    var view := new OSSVisualizerView.WithFrame(width, height);
    var first := view.LayoutSubviews();
    view.barsViewsCount := 20;
    var second := view.LayoutSubviews();
    o := view.AnimateAudioVisualizer();
  }
}
