/** Choosing the capture frame rate (`configureFrameRate`) and the frame-rate
    response to the device's system-pressure level.

    The device reports its supported frame-rate ranges with `Double` bounds. Two
    integer bounds are folded out of them, each starting at -1 and raised to the
    truncated rate whenever a rate exceeds it; the desired rate is then clamped to
    those bounds. Both bounds are folded the same way, so the lower bound is the
    greatest of the ranges' minima. */
module FrameRate {
  import opened MediaTypes
  import opened FrameClock

  /** `AVFrameRateRange`: the two bounds the controller reads. */
  datatype FrameRateRange = FrameRateRange(minFrameRate: real, maxFrameRate: real)

  /** The bound every fold starts from, also the result when there are no ranges. */
  const NoBound: int := -1

  /** One step of the fold: `rate > Double(bound) ? Int(rate) : bound`. */
  function RaiseBound(bound: int, rate: real): (b: int)
    ensures b == (if Trunc(rate) > bound then Trunc(rate) else bound)
  {
    if rate > bound as real then Trunc(rate) else bound
  }

  /** The `forEach` fold over `rates`, in order, from `bound`. */
  function RunningBound(rates: seq<real>, bound: int): int
    decreases |rates|
  {
    if |rates| == 0 then bound else RunningBound(rates[1..], RaiseBound(bound, rates[0]))
  }

  function MaxRates(ranges: seq<FrameRateRange>): (rates: seq<real>)
    ensures |rates| == |ranges|
    ensures forall k :: 0 <= k < |ranges| ==> rates[k] == ranges[k].maxFrameRate
  {
    seq(|ranges|, k requires 0 <= k < |ranges| => ranges[k].maxFrameRate)
  }

  function MinRates(ranges: seq<FrameRateRange>): (rates: seq<real>)
    ensures |rates| == |ranges|
    ensures forall k :: 0 <= k < |ranges| ==> rates[k] == ranges[k].minFrameRate
  {
    seq(|ranges|, k requires 0 <= k < |ranges| => ranges[k].minFrameRate)
  }

  /** The upper bound the desired rate is clamped to. */
  function SupportedMax(ranges: seq<FrameRateRange>): int {
    RunningBound(MaxRates(ranges), NoBound)
  }

  /** The lower bound the desired rate is clamped to. */
  function SupportedMin(ranges: seq<FrameRateRange>): int {
    RunningBound(MinRates(ranges), NoBound)
  }

  /** Each fold step keeps the larger of the bound and the truncated rate. */
  lemma RaiseBoundIsMax(bound: int, rate: real)
    ensures RaiseBound(bound, rate) >= bound && RaiseBound(bound, rate) >= Trunc(rate)
    ensures RaiseBound(bound, rate) == bound || RaiseBound(bound, rate) == Trunc(rate)
  {
  }

  /** The fold yields the greatest of its starting bound and the truncated rates. */
  lemma {:induction false} RunningBoundIsGreatest(rates: seq<real>, bound: int)
    ensures RunningBound(rates, bound) >= bound
    ensures forall k :: 0 <= k < |rates| ==> Trunc(rates[k]) <= RunningBound(rates, bound)
    ensures RunningBound(rates, bound) == bound
            || exists k :: 0 <= k < |rates| && RunningBound(rates, bound) == Trunc(rates[k])
    decreases |rates|
  {
    if |rates| > 0 {
      var next := RaiseBound(bound, rates[0]);
      RaiseBoundIsMax(bound, rates[0]);
      RunningBoundIsGreatest(rates[1..], next);
      var r := RunningBound(rates, bound);
      assert r == RunningBound(rates[1..], next);
      forall k | 0 <= k < |rates|
        ensures Trunc(rates[k]) <= r
      {
        if k > 0 {
          assert rates[k] == rates[1..][k - 1];
        }
      }
      if r != next {
        var j :| 0 <= j < |rates[1..]| && r == Trunc(rates[1..][j]);
        assert r == Trunc(rates[j + 1]);
      }
    }
  }

  /** Both bounds are -1 when the device reports no ranges, and otherwise the
      greatest truncated maximum (minimum) rate, or -1 if that is smaller. */
  lemma SupportedBoundsAreGreatest(ranges: seq<FrameRateRange>)
    ensures |ranges| == 0 ==> SupportedMax(ranges) == NoBound && SupportedMin(ranges) == NoBound
    ensures forall k :: 0 <= k < |ranges| ==>
              Trunc(ranges[k].maxFrameRate) <= SupportedMax(ranges)
              && Trunc(ranges[k].minFrameRate) <= SupportedMin(ranges)
    ensures SupportedMax(ranges) == NoBound
            || exists k :: 0 <= k < |ranges| && SupportedMax(ranges) == Trunc(ranges[k].maxFrameRate)
    ensures SupportedMin(ranges) == NoBound
            || exists k :: 0 <= k < |ranges| && SupportedMin(ranges) == Trunc(ranges[k].minFrameRate)
  {
    RunningBoundIsGreatest(MaxRates(ranges), NoBound);
    RunningBoundIsGreatest(MinRates(ranges), NoBound);
  }

  /** The fold is monotone in its starting bound and in every rate. */
  lemma {:induction false} RunningBoundMonotone(lo: seq<real>, hi: seq<real>, a: int, b: int)
    requires |lo| == |hi| && a <= b
    requires forall k :: 0 <= k < |lo| ==> lo[k] <= hi[k]
    ensures RunningBound(lo, a) <= RunningBound(hi, b)
    decreases |lo|
  {
    if |lo| > 0 {
      assert Trunc(lo[0]) <= Trunc(hi[0]);
      RunningBoundMonotone(lo[1..], hi[1..], RaiseBound(a, lo[0]), RaiseBound(b, hi[0]));
    }
  }

  /** When every range has its minimum at or below its maximum, the lower bound
      never exceeds the upper one, so clamping lands inside the bounds. */
  lemma BoundsOrdered(ranges: seq<FrameRateRange>)
    requires forall k :: 0 <= k < |ranges| ==> ranges[k].minFrameRate <= ranges[k].maxFrameRate
    ensures SupportedMin(ranges) <= SupportedMax(ranges)
  {
    RunningBoundMonotone(MinRates(ranges), MaxRates(ranges), NoBound, NoBound);
  }

  /** The two `forEach` loops of `configureFrameRate`, which fold the maxima and the
      minima of the supported ranges into integer bounds. */
  method SupportedBounds(ranges: seq<FrameRateRange>) returns (maxFrameRate: int, minFrameRate: int)
    ensures maxFrameRate == SupportedMax(ranges) && minFrameRate == SupportedMin(ranges)
  {
    var maxFrameRates := MaxRates(ranges);
    var minFrameRates := MinRates(ranges);
    maxFrameRate, minFrameRate := NoBound, NoBound;
    var i := 0;
    while i < |maxFrameRates|
      invariant 0 <= i <= |maxFrameRates|
      invariant RunningBound(maxFrameRates[i..], maxFrameRate) == SupportedMax(ranges)
    {
      var rate := maxFrameRates[i];
      maxFrameRate := if rate > maxFrameRate as real then Trunc(rate) else maxFrameRate;
      assert maxFrameRates[i..][1..] == maxFrameRates[i + 1..];
      i := i + 1;
    }
    i := 0;
    while i < |minFrameRates|
      invariant 0 <= i <= |minFrameRates|
      invariant RunningBound(minFrameRates[i..], minFrameRate) == SupportedMin(ranges)
    {
      var rate := minFrameRates[i];
      minFrameRate := if rate > minFrameRate as real then Trunc(rate) else minFrameRate;
      assert minFrameRates[i..][1..] == minFrameRates[i + 1..];
      i := i + 1;
    }
  }

  /** The rate actually requested: the upper bound when the desired rate is above
      it, else the lower bound when the desired rate is below that, else the
      desired rate itself. */
  function ClampFrameRate(desired: int, maxFrameRate: int, minFrameRate: int): (r: int)
    ensures r == desired <==> minFrameRate <= desired <= maxFrameRate
    ensures r == desired || r == maxFrameRate || r == minFrameRate
    ensures r <= maxFrameRate || r == minFrameRate
  {
    if desired > maxFrameRate then maxFrameRate
    else if desired < minFrameRate then minFrameRate
    else desired
  }

  /** With ordered bounds, the clamped rate lies within them, equals the desired rate
      exactly when that is within them, and is the closest rate to it that does. */
  lemma ClampIsNearestSupported(desired: int, maxFrameRate: int, minFrameRate: int, v: int)
    requires minFrameRate <= maxFrameRate
    requires minFrameRate <= v <= maxFrameRate
    ensures minFrameRate <= ClampFrameRate(desired, maxFrameRate, minFrameRate) <= maxFrameRate
    ensures ClampFrameRate(desired, maxFrameRate, minFrameRate) == desired
            <==> minFrameRate <= desired <= maxFrameRate
    ensures Dist(ClampFrameRate(desired, maxFrameRate, minFrameRate), desired) <= Dist(v, desired)
  {
  }

  function Dist(a: int, b: int): int {
    if a <= b then b - a else a - b
  }

  /** Clamping an already clamped rate changes nothing. */
  lemma ClampIsIdempotent(desired: int, maxFrameRate: int, minFrameRate: int)
    requires minFrameRate <= maxFrameRate
    ensures var r := ClampFrameRate(desired, maxFrameRate, minFrameRate);
            ClampFrameRate(r, maxFrameRate, minFrameRate) == r
  {
  }

  /** The rate `configureFrameRate(toframeRate:)` aims for: the explicit rate, or
      else `desiredFrameRate`, clamped to the bounds of the active format. */
  function TargetFrameRate(toFrameRate: Option<int>, desiredFrameRate: int,
                           ranges: seq<FrameRateRange>): (r: int)
  {
    ClampFrameRate(toFrameRate.GetOr(desiredFrameRate), SupportedMax(ranges), SupportedMin(ranges))
  }

  /** The device is reconfigured only when neither active frame duration already
      has the target as its timescale. */
  predicate NeedsReconfiguration(minDurationTimescale: int, maxDurationTimescale: int, target: int) {
    minDurationTimescale != target && maxDurationTimescale != target
  }

  // ---------------------------------------------------------------------------
  // System pressure
  // ---------------------------------------------------------------------------

  /** `AVCaptureDevice.SystemPressureState.Level`. */
  datatype PressureLevel = Nominal | Fair | Serious | Critical | Shutdown

  /** The rate asked for under elevated pressure. */
  const ThrottledFrameRate: int := 20

  /** What the pressure observer does: nothing, or `configureFrameRate` with the
      given explicit rate (none: back to `desiredFrameRate`). */
  datatype PressureResponse = LeaveFrameRate | Configure(toFrameRate: Option<int>)

  function RespondToPressure(level: PressureLevel, isRecording: bool): (r: PressureResponse)
    ensures r.Configure? <==> isRecording && level != Shutdown
    ensures r.Configure? ==> (r.toFrameRate == Some(ThrottledFrameRate) <==> level in {Serious, Critical})
    ensures r.Configure? && r.toFrameRate.Some? ==> r.toFrameRate.value == ThrottledFrameRate
  {
    match level
    case Serious | Critical => if isRecording then Configure(Some(ThrottledFrameRate)) else LeaveFrameRate
    case Shutdown => LeaveFrameRate
    case _ => if isRecording then Configure(None) else LeaveFrameRate
  }

  /** Under serious or critical pressure the target rate is at most 20 unless the
      device supports nothing that low, and it is then the device's lower bound. */
  lemma ThrottleCapsFrameRate(level: PressureLevel, desiredFrameRate: int, ranges: seq<FrameRateRange>)
    requires RespondToPressure(level, true).Configure?
    requires level in {Serious, Critical}
    ensures var target := TargetFrameRate(RespondToPressure(level, true).toFrameRate, desiredFrameRate, ranges);
            target <= ThrottledFrameRate || target == SupportedMin(ranges)
  {
  }
}
