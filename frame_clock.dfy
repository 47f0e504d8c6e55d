/** Presentation timestamps and the frame-timestamp correction applied to every
    video frame before it is appended to the writer (`handleVideoBuffer`).

    A `CMTime` is an integer value over an integer timescale. The source computes
    frame positions in `Double`; here they are exact reals, and the conversion of
    a `Double` back to an integer (`CMTimeValue(x)`, `Int(x)`) truncates toward
    zero, as Swift does. */
module FrameClock {

  /** `CMTime`: `value / timescale` seconds. */
  datatype CMTime = CMTime(value: int, timescale: int)

  /** `CMTime.zero`, the value both stored timestamps start from. */
  const Zero: CMTime := CMTime(0, 1)

  /** The timestamps capture delivers carry a positive timescale. */
  predicate ValidTime(t: CMTime) {
    t.timescale > 0
  }

  /** The timestamp in seconds (`Double(value) / Double(timescale)`). */
  function Seconds(t: CMTime): real
    requires ValidTime(t)
  {
    t.value as real / t.timescale as real
  }

  /** Swift's conversion of a `Double` to an integer: truncation toward zero. */
  function Trunc(x: real): (n: int)
    ensures 0.0 <= x ==> n as real <= x < n as real + 1.0
    ensures x < 0.0 ==> n as real - 1.0 < x <= n as real
  {
    if x >= 0.0 then x.Floor else -((-x).Floor)
  }

  /** Frames of 1/frameRate seconds that have elapsed at time `t`. */
  function FramePosition(frameRate: int, t: CMTime): real
    requires ValidTime(t)
  {
    (frameRate as real * t.value as real) / t.timescale as real
  }

  /** A frame further than this many frame intervals after the previous one is
      taken as a discontinuity. */
  const MaxFrameDistance: real := 1.1

  /** Distance, in frame intervals, from the previous appended frame. */
  function FrameDistance(frameRate: int, current: CMTime, previous: CMTime): real
    requires ValidTime(current) && ValidTime(previous)
  {
    FramePosition(frameRate, current) - FramePosition(frameRate, previous)
  }

  /** At frame rate 0 every frame distance is 0, so no timestamp is ever corrected. */
  lemma ZeroRateHasNoDistance(current: CMTime, previous: CMTime)
    requires ValidTime(current) && ValidTime(previous)
    ensures FrameDistance(0, current, previous) == 0.0
  {
  }

  /** The timestamp `handleVideoBuffer` appends for a frame whose raw timestamp is
      `current`, when `previous` was appended before it. A frame more than
      `MaxFrameDistance` frames away is moved to one frame after the previous one,
      in the raw timestamp's timescale; any other frame keeps its raw timestamp. */
  function CorrectedTimestamp(frameRate: int, current: CMTime, previous: CMTime): (r: CMTime)
    requires ValidTime(current) && ValidTime(previous)
    ensures ValidTime(r) && r.timescale == current.timescale
  {
    if FrameDistance(frameRate, current, previous) > MaxFrameDistance then
      ZeroRateHasNoDistance(current, previous);
      CMTime(Trunc(NewFramePosition(frameRate, current, previous)), current.timescale)
    else
      current
  }

  /** The value, in `current`'s timescale and before truncation, of the time one
      frame after `previous`. */
  function NewFramePosition(frameRate: int, current: CMTime, previous: CMTime): real
    requires ValidTime(current) && ValidTime(previous) && frameRate != 0
  {
    var expectedFramePosition := FramePosition(frameRate, previous) + 1.0;
    (expectedFramePosition * current.timescale as real) / frameRate as real
  }

  /** Within 1.1 frame intervals of the previous frame the raw timestamp is
      appended unchanged. */
  lemma UnchangedWithinCadence(frameRate: int, current: CMTime, previous: CMTime)
    requires ValidTime(current) && ValidTime(previous)
    requires FrameDistance(frameRate, current, previous) <= MaxFrameDistance
    ensures CorrectedTimestamp(frameRate, current, previous) == current
  {
  }

  /** While the frame rate is still its initial 0, no timestamp is ever corrected. */
  lemma NoCorrectionBeforeFrameRateIsSet(current: CMTime, previous: CMTime)
    requires ValidTime(current) && ValidTime(previous)
    ensures CorrectedTimestamp(0, current, previous) == current
  {
    ZeroRateHasNoDistance(current, previous);
  }

  /** `f * (e * s / f) / s` is `e` again. */
  lemma ScaleRoundTrip(e: real, s: real, f: real)
    requires s > 0.0 && f > 0.0
    ensures f * (e * s / f) / s == e
  {
    calc {
      f * (e * s / f) / s;
      == (f * (e * s) / f) / s;
      == (e * s) / s;
      == e;
    }
  }

  /** Scaling by the positive factor `f / s` keeps the order of `n <= x < n + 1`. */
  lemma ScaledTruncation(f: real, s: real, x: real, n: real)
    requires f > 0.0 && s > 0.0 && n <= x < n + 1.0
    ensures f * n / s <= f * x / s
    ensures f * x / s - f / s < f * n / s
  {
    ScaleMonotone(f, s, n, x);
    MulStrict(f, x - 1.0, n);
    DivStrict(f * x - f, f * n, s);
    DivSub(f * x, f, s);
  }

  lemma MulStrict(f: real, a: real, b: real)
    requires f > 0.0 && a < b
    ensures f * a < f * b
  {
  }

  lemma DivStrict(a: real, b: real, s: real)
    requires s > 0.0 && a < b
    ensures a / s < b / s
  {
  }

  lemma DivSub(a: real, b: real, s: real)
    requires s > 0.0
    ensures a / s - b / s == (a - b) / s
  {
  }

  /** Scaling by the positive factor `f / s` keeps order. */
  lemma ScaleMonotone(f: real, s: real, a: real, b: real)
    requires f > 0.0 && s > 0.0 && a <= b
    ensures f * a / s <= f * b / s
  {
    assert f * a <= f * b;
  }

  /** Products and quotients of non-negative numbers are non-negative. */
  lemma NonNegativeScale(a: real, b: real, c: real)
    requires a >= 0.0 && b >= 0.0 && c > 0.0
    ensures a * b / c >= 0.0 && a * b >= 0.0
  {
  }

  /** A corrected timestamp takes the truncated new frame position as its value,
      and the frame rate is then known to be non-zero. */
  lemma CorrectedValue(frameRate: int, current: CMTime, previous: CMTime)
    requires ValidTime(current) && ValidTime(previous)
    requires FrameDistance(frameRate, current, previous) > MaxFrameDistance
    ensures frameRate != 0
    ensures CorrectedTimestamp(frameRate, current, previous).value
            == Trunc(NewFramePosition(frameRate, current, previous))
  {
    ZeroRateHasNoDistance(current, previous);
  }

  /** With a positive frame rate and a non-negative previous timestamp, a
      corrected timestamp lies one frame after the previous frame, short of it by
      less than one unit of the raw timescale. */
  lemma CorrectionLandsOneFrameAfterPrevious(frameRate: int, current: CMTime, previous: CMTime)
    requires ValidTime(current) && ValidTime(previous)
    requires frameRate > 0 && previous.value >= 0
    requires FrameDistance(frameRate, current, previous) > MaxFrameDistance
    ensures var expected := FramePosition(frameRate, previous) + 1.0;
            var r := CorrectedTimestamp(frameRate, current, previous);
            expected - frameRate as real / current.timescale as real < FramePosition(frameRate, r) <= expected
  {
    CorrectedValue(frameRate, current, previous);
    var r := CorrectedTimestamp(frameRate, current, previous);
    TruncatedPositionIsOneFrameLater(frameRate, current, previous, r.value);
    assert FramePosition(frameRate, r) == FramePosition(frameRate, CMTime(r.value, current.timescale));
  }

  /** The arithmetic behind `CorrectionLandsOneFrameAfterPrevious`, for the value
      `n` truncated from the new frame position. */
  lemma TruncatedPositionIsOneFrameLater(frameRate: int, current: CMTime, previous: CMTime, n: int)
    requires ValidTime(current) && ValidTime(previous)
    requires frameRate > 0 && previous.value >= 0
    requires n == Trunc(NewFramePosition(frameRate, current, previous))
    ensures var expected := FramePosition(frameRate, previous) + 1.0;
            expected - frameRate as real / current.timescale as real
            < FramePosition(frameRate, CMTime(n, current.timescale)) <= expected
  {
    var f, s, e := frameRate as real, current.timescale as real, FramePosition(frameRate, previous) + 1.0;
    NonNegativeScale(f, previous.value as real, previous.timescale as real);
    assert e >= 0.0;
    assert f > 0.0 && s > 0.0;
    assert NewFramePosition(frameRate, current, previous) == (e * s) / f;
    LandsFromTruncation(f, s, e, n);
    assert FramePosition(frameRate, CMTime(n, current.timescale)) == f * (n as real) / s;
  }

  /** A value `n` truncated from `e * s / f`, for a non-negative `e`, gives back
      `e`, short of it by less than `f / s`, once scaled by `f / s`. */
  lemma LandsFromTruncation(f: real, s: real, e: real, n: int)
    requires f > 0.0 && s > 0.0 && e >= 0.0 && n == Trunc((e * s) / f)
    ensures e - f / s < f * (n as real) / s <= e
  {
    NonNegativeScale(e, s, f);
    LandsWithinOneUnit(f, s, e, (e * s) / f, n as real);
  }

  /** A value `n` truncated from `x = e * s / f` gives back `e`, short of it by less
      than `f / s`, once scaled by `f / s`. */
  lemma LandsWithinOneUnit(f: real, s: real, e: real, x: real, n: real)
    requires f > 0.0 && s > 0.0 && x == (e * s) / f && n <= x < n + 1.0
    ensures e - f / s < f * n / s <= e
  {
    ScaleRoundTrip(e, s, f);
    ScaledTruncation(f, s, x, n);
  }

  /** With a positive frame rate and a non-negative previous timestamp, a corrected
      timestamp is strictly earlier than the raw one, in the same timescale. */
  lemma CorrectionMovesEarlier(frameRate: int, current: CMTime, previous: CMTime)
    requires ValidTime(current) && ValidTime(previous)
    requires frameRate > 0 && previous.value >= 0
    requires FrameDistance(frameRate, current, previous) > MaxFrameDistance
    ensures var r := CorrectedTimestamp(frameRate, current, previous);
            r.timescale == current.timescale && r.value < current.value
  {
    var r := CorrectedTimestamp(frameRate, current, previous);
    var f, s := frameRate as real, current.timescale as real;
    CorrectionLandsOneFrameAfterPrevious(frameRate, current, previous);
    assert FramePosition(frameRate, r) < FramePosition(frameRate, current);
    if r.value >= current.value {
      ScaleMonotone(f, s, current.value as real, r.value as real);
      assert false;
    }
  }

  /** Under the same conditions a timestamp is corrected exactly when it lies more
      than 1.1 frame intervals after the previous one. */
  lemma CorrectedExactlyOnDiscontinuity(frameRate: int, current: CMTime, previous: CMTime)
    requires ValidTime(current) && ValidTime(previous)
    requires frameRate > 0 && previous.value >= 0
    ensures CorrectedTimestamp(frameRate, current, previous) != current
            <==> FrameDistance(frameRate, current, previous) > MaxFrameDistance
  {
    if FrameDistance(frameRate, current, previous) > MaxFrameDistance {
      CorrectionMovesEarlier(frameRate, current, previous);
    }
  }

  /** Correcting an already corrected timestamp against the same previous frame
      leaves it as it is. */
  lemma CorrectionIsStable(frameRate: int, current: CMTime, previous: CMTime)
    requires ValidTime(current) && ValidTime(previous)
    requires frameRate > 0 && previous.value >= 0
    ensures var r := CorrectedTimestamp(frameRate, current, previous);
            CorrectedTimestamp(frameRate, r, previous) == r
  {
    if FrameDistance(frameRate, current, previous) > MaxFrameDistance {
      CorrectionLandsOneFrameAfterPrevious(frameRate, current, previous);
    }
  }

  /** When the raw and previous timestamps share a timescale, a corrected timestamp
      is never earlier than the previous one and at most one frame after it. */
  lemma CorrectionKeepsOrderInOneTimescale(frameRate: int, current: CMTime, previous: CMTime)
    requires ValidTime(current) && ValidTime(previous)
    requires current.timescale == previous.timescale
    requires frameRate > 0 && previous.value >= 0
    requires FrameDistance(frameRate, current, previous) > MaxFrameDistance
    ensures var r := CorrectedTimestamp(frameRate, current, previous);
            previous.value <= r.value
            && r.value as real <= previous.value as real + previous.timescale as real / frameRate as real
  {
    CorrectedValue(frameRate, current, previous);
    TruncatedPositionKeepsOrder(frameRate, current, previous, CorrectedTimestamp(frameRate, current, previous).value);
  }

  /** The arithmetic behind `CorrectionKeepsOrderInOneTimescale`, for the value
      `n` truncated from the new frame position. */
  lemma TruncatedPositionKeepsOrder(frameRate: int, current: CMTime, previous: CMTime, n: int)
    requires ValidTime(current) && ValidTime(previous)
    requires current.timescale == previous.timescale
    requires frameRate > 0 && previous.value >= 0
    requires n == Trunc(NewFramePosition(frameRate, current, previous))
    ensures previous.value <= n
            && n as real <= previous.value as real + previous.timescale as real / frameRate as real
  {
    var f, s, p := frameRate as real, current.timescale as real, previous.value as real;
    OneFrameLater(f, s, p);
    assert NewFramePosition(frameRate, current, previous) == p + s / f;
    PositiveQuotient(s, f);
    TruncAtLeast(p + s / f, previous.value, n);
  }

  /** One frame after position `f * p / s`, back in units of `1/s`, is `p + s / f`. */
  lemma OneFrameLater(f: real, s: real, p: real)
    requires f > 0.0 && s > 0.0
    ensures ((f * p / s + 1.0) * s) / f == p + s / f
  {
    calc {
      ((f * p / s + 1.0) * s) / f;
      == (f * p / s * s + s) / f;
      == (f * p + s) / f;
      == p + s / f;
    }
  }

  lemma PositiveQuotient(a: real, b: real)
    requires a > 0.0 && b > 0.0
    ensures a / b > 0.0
  {
  }

  /** Truncating a value at or above the integer `p` gives at least `p`. */
  lemma TruncAtLeast(x: real, p: int, n: int)
    requires 0.0 <= p as real <= x && n == Trunc(x)
    ensures p <= n && n as real <= x
  {
  }

  /** With different timescales the correction can move a frame before the
      previous one: at 30 frames per second, after a frame at 1000/600 s, a raw
      stamp of 2/1 s is rewritten to 1/1 s. */
  lemma DifferentTimescalesCanRunBackwards()
    ensures var previous, current := CMTime(1000, 600), CMTime(2, 1);
            var r := CorrectedTimestamp(30, current, previous);
            r == CMTime(1, 1) && Seconds(r) < Seconds(previous)
  {
    var previous, current := CMTime(1000, 600), CMTime(2, 1);
    assert FramePosition(30, previous) == 50.0;
    assert FramePosition(30, current) == 60.0;
    assert Trunc(51.0 / 30.0) == 1;
  }
}
