/**
  What both visualizer views share: the repeating wave-form pattern, the
  height of a bar, and how their loops end.
 */
module Waveform {

  /** The peak bounds the views cycle through, bar by bar. */
  const WaveValues: seq<int> := [5, 10, 15, 10, 5, 1]

  /** The height of a bar: at rest, or raised by the animation. */
  datatype Height = Resting | Animated

  /** How a loop over the bars ends: normally, or stopped by a failed range or index check. */
  datatype Outcome = Ok | Trap

  /** `waveForm` holds `count` entries, entry `i` being `WaveValues[i mod 6]`. */
  ghost predicate IsWaveForm(waveForm: seq<int>, count: int) {
    |waveForm| == count && forall i :: 0 <= i < count ==> waveForm[i] == WaveValues[i % |WaveValues|]
  }

  /**
    The wave-form fill loop: `count` entries taken from `WaveValues` with a
    counter `j` that wraps back to 0 after the last value.
   */
  method FillWaveForm(count: nat) returns (waveForm: seq<int>)
    ensures IsWaveForm(waveForm, count)
    ensures forall i :: 0 <= i < count ==> 1 <= waveForm[i] <= 15
  {
    waveForm := [];
    var j := 0;
    for k := 0 to count
      invariant |waveForm| == k
      invariant j == k % |WaveValues|
      invariant forall i :: 0 <= i < k ==> waveForm[i] == WaveValues[i % |WaveValues|]
    {
      waveForm := waveForm + [WaveValues[j]];
      j := j + 1;
      if j == |WaveValues| {
        j := 0;
      }
    }
  }
}
