/**
 * The metering sampler of the recording hook: one device status reading
 * becomes (at most) one visual amplitude, appended to the bounded
 * `levels` waveform buffer.
 */
module Metering {
  import opened Wrappers

  /** The floor below which an amplitude is never drawn. */
  const AmplitudeFloor: real := 0.05

  function Min(a: int, b: int): int { if a <= b then a else b }
  function Max(a: int, b: int): int { if a <= b then b else a }

  /**
   * JavaScript's `array.slice(start)`: a negative start counts from the end
   * (clamped to the front), a non-negative one from the front (clamped to
   * the end).  The result is always a suffix of `s`.
   */
  function SliceFrom<T>(s: seq<T>, start: int): (r: seq<T>)
    ensures |r| <= |s| && r == s[|s| - |r|..]
    ensures start < 0 ==> |r| == Min(|s|, -start)
    ensures 0 <= start ==> |r| == Max(0, |s| - start)
  {
    var from := if start < 0 then Max(|s| + start, 0) else Min(start, |s|);
    s[from..]
  }

  /** Reference definition of a FIFO window: the newest `n` elements of `s`. */
  function Newest<T>(s: seq<T>, n: nat): seq<T>
  {
    s[|s| - Min(n, |s|)..]
  }

  /**
   * One metering append: `[...prev.slice(-maxBars + 1), amplitude]`.
   * The new sample is last and what precedes it is the newest part of the
   * previous buffer; the cap holds only when `maxBars >= 2`.
   */
  function Push(levels: seq<real>, amplitude: real, maxBars: int): (r: seq<real>)
    ensures 1 <= |r| <= |levels| + 1 && r[|r| - 1] == amplitude
    ensures r[..|r| - 1] == levels[|levels| - (|r| - 1)..]
    ensures maxBars >= 2 ==> |r| == Min(|levels| + 1, maxBars)
  {
    SliceFrom(levels, -maxBars + 1) + [amplitude]
  }

  /** Trimming to the newest `n` twice is trimming once. */
  lemma NewestOfNewest<T>(a: seq<T>, b: seq<T>, n: nat)
    ensures Newest(Newest(a, n) + b, n) == Newest(a + b, n)
  {
    var k := Min(n, |a|);
    var x := Newest(a, n) + b;
    assert x == (a + b)[|a| - k..];
    var m := Min(n, |x|);
    assert m == Min(n, |a| + |b|);
    assert x[|x| - m..] == (a + b)[|a| - k + (|x| - m)..];
  }

  /** With `maxBars >= 2` one append keeps exactly the newest `maxBars` samples. */
  lemma PushIsWindow(levels: seq<real>, amplitude: real, maxBars: int)
    requires maxBars >= 2
    ensures Push(levels, amplitude, maxBars) == Newest(levels + [amplitude], maxBars)
  {
    var r := Push(levels, amplitude, maxBars);
    var w := Newest(levels + [amplitude], maxBars);
    assert |r| == |w|;
    assert r[..|r| - 1] == w[..|w| - 1];
    assert r == r[..|r| - 1] + [amplitude];
    assert w == w[..|w| - 1] + [amplitude];
  }

  /** With `maxBars == 1` the slice is `slice(0)`: nothing is evicted. */
  lemma MaxBarsOneKeepsAll(levels: seq<real>, amplitude: real)
    ensures Push(levels, amplitude, 1) == levels + [amplitude]
    ensures |Push(levels, amplitude, 1)| > 1 <== |levels| >= 1
  {
  }

  /** Splitting off the first element of an appended sequence. */
  lemma SplitFirst<T>(a: seq<T>, s: seq<T>)
    requires s != []
    ensures a + [s[0]] + s[1..] == a + s
  {
    assert s == [s[0]] + s[1..];
  }

  /** A run of metering appends, oldest sample first. */
  function PushAll(levels: seq<real>, samples: seq<real>, maxBars: int): seq<real>
    decreases |samples|
  {
    if samples == [] then levels
    else PushAll(Push(levels, samples[0], maxBars), samples[1..], maxBars)
  }

  /**
   * Any run of metering ticks leaves in the buffer exactly the newest
   * `maxBars` of everything seen, in arrival order: the oldest are evicted
   * first.
   */
  lemma {:induction false} PushAllIsWindow(levels: seq<real>, samples: seq<real>, maxBars: int)
    requires maxBars >= 2 && |levels| <= maxBars
    ensures PushAll(levels, samples, maxBars) == Newest(levels + samples, maxBars)
    decreases |samples|
  {
    if samples == [] {
      assert levels + samples == levels;
    } else {
      var pushed := Push(levels, samples[0], maxBars);
      PushIsWindow(levels, samples[0], maxBars);
      PushAllIsWindow(pushed, samples[1..], maxBars);
      calc {
        PushAll(levels, samples, maxBars);
        PushAll(pushed, samples[1..], maxBars);
        Newest(pushed + samples[1..], maxBars);
        Newest(Newest(levels + [samples[0]], maxBars) + samples[1..], maxBars);
        { NewestOfNewest(levels + [samples[0]], samples[1..], maxBars); }
        Newest(levels + [samples[0]] + samples[1..], maxBars);
        { SplitFirst(levels, samples); }
        Newest(levels + samples, maxBars);
      }
    }
  }

  /** What `rec.getStatusAsync()` reports: whether it records, and `metering` in dB if numeric. */
  datatype MeterStatus = MeterStatus(isRecording: bool, metering: Option<real>)

  /** `Math.max(0.05, linear)`. */
  function Amplitude(linear: real): (r: real)
    ensures r >= AmplitudeFloor && r >= linear
    ensures r == AmplitudeFloor || r == linear
  {
    if linear < AmplitudeFloor then AmplitudeFloor else linear
  }

  /**
   * The sample a tick appends, if any.  `toLinear` stands for the
   * floating-point `10^((db + 40) / 20)`; only the floor is relied on.
   * A status that is not recording, or has no numeric metering, yields none.
   */
  function Sample(status: MeterStatus, toLinear: real -> real): (r: Option<real>)
    ensures r.Some? <==> status.isRecording && status.metering.Some?
    ensures r.Some? ==> r.value >= AmplitudeFloor && r.value >= toLinear(status.metering.value)
  {
    if status.isRecording && status.metering.Some?
    then Some(Amplitude(toLinear(status.metering.value)))
    else None
  }
}
