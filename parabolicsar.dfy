/**
 * The Parabolic SAR (stop and reverse) indicator
 * (src/technical-analysis/parabric.js).  Before any price it is
 * uninitialised; the first call with a stored previous bar establishes
 * the trend, its extreme point and stop; later calls track the extreme
 * point, accelerate the stop toward it and flip on a reversal.
 */
module ParabolicSar {
  import opened JsNumber

  /** The fields of a `Parabolic` object other than its fixed acceleration step. */
  datatype SarState = SarState(sar: real, af: real, ep: real, upTrend: bool,
                               prevLow: real, prevHigh: real, prevClose: real)

  /** The state of a new object. */
  const Initial := SarState(0.0, 0.0, 0.0, true, 0.0, 0.0, 0.0)

  /** The acceleration-factor threshold below which the factor still grows. */
  const AfLimit: real := 0.2

  /** The state after `calc(low, high, close)` with acceleration step `deltaAF`. */
  function Step(deltaAF: real, s: SarState, low: real, high: real, close: real): SarState
  {
    Advance(deltaAF, s, low, high, close).(prevLow := low, prevHigh := high, prevClose := close)
  }

  /** A call up to the store of the previous bar: nothing, establishing, or tracking. */
  function Advance(deltaAF: real, s: SarState, low: real, high: real, close: real): SarState
  {
    if s.prevLow == 0.0 && s.prevHigh == 0.0 && s.prevClose == 0.0 then s
    else if s.af == 0.0 then
      if close > s.prevClose then s.(af := deltaAF, upTrend := true, ep := high, sar := s.prevHigh)
      else s.(af := deltaAF, upTrend := false, ep := low, sar := s.prevLow)
    else Track(deltaAF, s, low, high)
  }

  /** The trend a tracking call moves to. */
  function NewTrend(s: SarState, low: real, high: real): bool
  {
    if s.upTrend then s.sar < low else s.sar < high
  }

  /** The extreme point a tracking call moves to, under the new trend. */
  function NewEp(s: SarState, low: real, high: real): real
  {
    if NewTrend(s, low, high) then (if s.sar > low then low else Max(high, s.ep))
    else (if s.sar < high then high else Min(low, s.ep))
  }

  /** A tracking call, before the previous bar is stored. */
  function Track(deltaAF: real, s: SarState, low: real, high: real): SarState
  {
    var trend := NewTrend(s, low, high);
    var ep := NewEp(s, low, high);
    if trend == s.upTrend then
      var af := if s.ep != ep && s.af < AfLimit then s.af + deltaAF else s.af;
      s.(upTrend := trend, ep := ep, af := af, sar := s.sar + af * (ep - s.sar))
    else
      s.(upTrend := trend, ep := ep, af := deltaAF, sar := s.ep)
  }

  class Parabolic {
    var sar: real
    var af: real
    var ep: real
    var upTrend: bool
    const deltaAF: real
    var prevLow: real
    var prevHigh: real
    var prevClose: real

    constructor (deltaAF: real)
      ensures this.deltaAF == deltaAF && State() == Initial
    {
      this.deltaAF := deltaAF;
      sar, af, ep, upTrend := 0.0, 0.0, 0.0, true;
      prevLow, prevHigh, prevClose := 0.0, 0.0, 0.0;
    }

    function State(): SarState
      reads this
    {
      SarState(sar, af, ep, upTrend, prevLow, prevHigh, prevClose)
    }

    method Calc(low: real, high: real, close: real) returns (r: real)
      modifies this
      ensures State() == Step(deltaAF, old(State()), low, high, close)
      ensures r == sar
    {
      ghost var s0 := State();
      if prevLow == 0.0 && prevHigh == 0.0 && prevClose == 0.0 {
      } else if af == 0.0 {
        af := deltaAF;
        upTrend := close > prevClose;
        if upTrend {
          ep := high;
          sar := prevHigh;
        } else {
          ep := low;
          sar := prevLow;
        }
      } else {
        var prevTrend := upTrend;
        var prevEp := ep;
        upTrend := if upTrend then sar < low else sar < high;
        ep := if upTrend then (if sar > low then low else Max(high, ep)) else (if sar < high then high else Min(low, ep));
        assert upTrend == NewTrend(s0, low, high) && ep == NewEp(s0, low, high);
        if upTrend == prevTrend {
          if prevEp != ep && af < AfLimit {
            af := af + deltaAF;
          }
          sar := sar + af * (ep - sar);
        } else {
          af := deltaAF;
          sar := prevEp;
        }
        assert State() == Track(deltaAF, s0, low, high);
      }
      assert State() == Advance(deltaAF, s0, low, high, close);
      prevLow := low;
      prevHigh := high;
      prevClose := close;
      return sar;
    }

    /** `getTrend()`. */
    function GetTrend(): bool
      reads this
    {
      upTrend
    }
  }

  /** With no previous bar stored, a call only stores the bar; the first call answers 0. */
  lemma WarmUp(deltaAF: real, s: SarState, low: real, high: real, close: real)
    requires s.prevLow == 0.0 && s.prevHigh == 0.0 && s.prevClose == 0.0
    ensures Step(deltaAF, s, low, high, close) == s.(prevLow := low, prevHigh := high, prevClose := close)
    ensures Step(deltaAF, Initial, low, high, close).sar == 0.0
  {
  }

  /**
   * The establishing call: the factor becomes `deltaAF`, the trend is up
   * iff the close rose, and the extreme point and stop are the bar's high
   * and the previous high in an uptrend, the low and previous low otherwise.
   */
  lemma Establish(deltaAF: real, s: SarState, low: real, high: real, close: real)
    requires !(s.prevLow == 0.0 && s.prevHigh == 0.0 && s.prevClose == 0.0) && s.af == 0.0
    ensures var t := Step(deltaAF, s, low, high, close);
      t.af == deltaAF && (t.upTrend <==> close > s.prevClose) &&
      (t.upTrend ==> t.ep == high && t.sar == s.prevHigh) &&
      (!t.upTrend ==> t.ep == low && t.sar == s.prevLow)
  {
  }

  /** A state that is tracking: a previous bar is stored and the factor is set. */
  predicate Tracking(s: SarState)
  {
    !(s.prevLow == 0.0 && s.prevHigh == 0.0 && s.prevClose == 0.0) && s.af != 0.0
  }

  /**
   * While an uptrend holds, the extreme point never falls and is at least
   * the bar's high; while a downtrend holds, it never rises and is at most
   * the bar's low.
   */
  lemma ExtremeFollows(deltaAF: real, s: SarState, low: real, high: real, close: real)
    requires Tracking(s)
    ensures var t := Step(deltaAF, s, low, high, close);
      (s.upTrend && t.upTrend ==> t.ep >= s.ep && t.ep >= high) &&
      (!s.upTrend && !t.upTrend ==> t.ep <= s.ep && t.ep <= low)
  {
  }

  /** On a reversal the factor restarts at `deltaAF` and the stop jumps to the extreme point held before the call. */
  lemma Flip(deltaAF: real, s: SarState, low: real, high: real, close: real)
    requires Tracking(s)
    ensures var t := Step(deltaAF, s, low, high, close);
      t.upTrend != s.upTrend ==> t.af == deltaAF && t.sar == s.ep
  {
  }

  /**
   * With the trend unchanged, the factor grows by `deltaAF` exactly when the
   * extreme point moved and the factor was below 0.2, and the stop moves
   * the new factor's share of the way to the new extreme point.
   */
  lemma Accelerate(deltaAF: real, s: SarState, low: real, high: real, close: real)
    requires Tracking(s)
    ensures var t := Step(deltaAF, s, low, high, close);
      t.upTrend == s.upTrend ==>
        t.af == (if t.ep != s.ep && s.af < AfLimit then s.af + deltaAF else s.af) &&
        t.sar == s.sar + t.af * (t.ep - s.sar)
  {
  }

  /** With the trend unchanged and a factor in [0, 1], the new stop lies between the old stop and the new extreme point. */
  lemma StopBetween(deltaAF: real, s: SarState, low: real, high: real, close: real)
    requires Tracking(s)
    ensures var t := Step(deltaAF, s, low, high, close);
      t.upTrend == s.upTrend && 0.0 <= t.af <= 1.0 ==>
        Min(s.sar, t.ep) <= t.sar <= Max(s.sar, t.ep)
  {
    var t := Step(deltaAF, s, low, high, close);
    if t.upTrend == s.upTrend && 0.0 <= t.af <= 1.0 {
      Between(s.sar, t.ep, t.af);
    }
  }

  lemma Between(a: real, b: real, f: real)
    requires 0.0 <= f <= 1.0
    ensures Min(a, b) <= a + f * (b - a) <= Max(a, b)
  {
    if a <= b {
      var p := (b - a) * f;
      ScaleDown(b - a, f, p);
      assert f * (b - a) == p;
    } else {
      var q := (a - b) * f;
      ScaleDown(a - b, f, q);
      assert f * (b - a) == -q;
    }
  }

  /** The factor is unset or in [deltaAF, 0.2 + deltaAF). */
  predicate FactorInRange(deltaAF: real, s: SarState)
  {
    s.af == 0.0 || deltaAF <= s.af < AfLimit + deltaAF
  }

  /** With a positive step every call keeps the factor in range. */
  lemma FactorStays(deltaAF: real, s: SarState, low: real, high: real, close: real)
    requires 0.0 < deltaAF && FactorInRange(deltaAF, s)
    ensures FactorInRange(deltaAF, Step(deltaAF, s, low, high, close))
  {
  }

  /** Every call stores the bar as the previous one; `calc` answers the new stop. */
  lemma StoresBar(deltaAF: real, s: SarState, low: real, high: real, close: real)
    ensures var t := Step(deltaAF, s, low, high, close);
      t.prevLow == low && t.prevHigh == high && t.prevClose == close
  {
  }
}
