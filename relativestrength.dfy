/**
 * The streaming Relative Strength Index (src/technical-analysis/rsi.js):
 * a bounded history of price changes, the sums of its up and down moves,
 * and the reading `100 * up / (up + down)` truncated to an integer.
 */
module RelativeStrength {
  import opened JsNumber

  /** The sum of the non-negative deltas, accumulated left to right. */
  function UpSum(d: seq<real>): real
  {
    if d == [] then 0.0 else UpSum(d[..|d| - 1]) + (if d[|d| - 1] >= 0.0 then d[|d| - 1] else 0.0)
  }

  /** The sum of the magnitudes of the negative deltas. */
  function DownSum(d: seq<real>): real
  {
    if d == [] then 0.0 else DownSum(d[..|d| - 1]) + (if d[|d| - 1] >= 0.0 then 0.0 else -d[|d| - 1])
  }

  /** The reading for up and down sums with a positive total: `(up / (up + down) * 100) | 0`. */
  function Reading(up: real, down: real): int
    requires up + down != 0.0
  {
    Trunc(up / (up + down) * 100.0)
  }

  /** The fields of an `RSI` object: the deltas, the last price, the period and the reading. */
  datatype RsiState = RsiState(deltas: seq<real>, last: real, period: int, value: int)

  /** The state and the answer after `push(price)`. */
  function Step(s: RsiState, price: real): (RsiState, bool)
  {
    if price < 0.0 then (s, false)
    else if s.last == 0.0 then (s.(last := price), false)
    else
      var d := s.deltas + [price - s.last];
      if |d| < s.period then (s.(deltas := d, last := price), false)
      else
        var up, down := UpSum(d), DownSum(d);
        var t := s.(deltas := d[1..], last := price);
        if up + down == 0.0 then (t, false)
        else (t.(value := Reading(up, down)), true)
  }

  class RSI {
    var deltas: seq<real>
    var last: real
    const period: int
    var value: int

    /** `new RSI(period)`, by default over 14 prices. */
    constructor (period: int := 14)
      ensures this.period == period && deltas == [] && last == 0.0 && value == 0
    {
      this.period := period;
      deltas := [];
      last := 0.0;
      value := 0;
    }

    function State(): RsiState
      reads this
    {
      RsiState(deltas, last, period, value)
    }

    method Push(price: real) returns (ready: bool)
      modifies this
      ensures (State(), ready) == Step(old(State()), price)
    {
      if price < 0.0 {
        return false;
      }
      if last == 0.0 {
        last := price;
        return false;
      }
      deltas := deltas + [price - last];
      last := price;
      if |deltas| < period {
        return false;
      }
      var up, down := SumMoves(deltas);
      deltas := deltas[1..];
      if up + down == 0.0 {
        return false;
      }
      value := Trunc(up / (up + down) * 100.0);
      return true;
    }

    /** The `value` getter. */
    function Value(): int
      reads this
    {
      value
    }
  }

  /** The loop of `push` over the history: up moves added to `up`, down moves to `down`, then `down` negated. */
  method SumMoves(d: seq<real>) returns (up: real, down: real)
    ensures up == UpSum(d) && down == DownSum(d)
  {
    up, down := 0.0, 0.0;
    var i := 0;
    while i < |d|
      invariant 0 <= i <= |d|
      invariant up == UpSum(d[..i]) && down == -DownSum(d[..i])
    {
      var v := d[i];
      assert d[..i + 1][..i] == d[..i];
      if v >= 0.0 {
        up := up + v;
      } else {
        down := down + v;
      }
      i := i + 1;
    }
    assert d[..i] == d;
    down := -down;
  }

  lemma {:induction false} SumsNonNegative(d: seq<real>)
    ensures 0.0 <= UpSum(d) && 0.0 <= DownSum(d)
  {
    if d != [] {
      SumsNonNegative(d[..|d| - 1]);
    }
  }

  /** The up and down sums are both zero exactly when every delta is zero. */
  lemma {:induction false} SumsZero(d: seq<real>)
    ensures UpSum(d) + DownSum(d) == 0.0 <==> forall i :: 0 <= i < |d| ==> d[i] == 0.0
  {
    if d != [] {
      var p := d[..|d| - 1];
      SumsZero(p);
      SumsNonNegative(p);
      assert forall i :: 0 <= i < |p| ==> p[i] == d[i];
    }
  }

  /** The reading lies in 0..100, and is 100 exactly when there was no down move. */
  lemma ReadingRange(up: real, down: real)
    requires 0.0 <= up && 0.0 <= down && up + down != 0.0
    ensures 0 <= Reading(up, down) <= 100
    ensures Reading(up, down) == 100 <==> down == 0.0
  {
    var r := up / (up + down);
    Fraction(up, up + down);
    if down == 0.0 {
      TruncOfInt(100);
    } else {
      assert r < 1.0;
      assert r * 100.0 < 100.0;
      TruncMonotone(r * 100.0, 100.0);
    }
  }

  lemma Fraction(a: real, t: real)
    requires 0.0 <= a <= t && 0.0 < t
    ensures 0.0 <= a / t <= 1.0
    ensures a / t == 1.0 <==> a == t
  {
    var r := a / t;
    assert r * t == a;
  }

  /** A negative price changes nothing and is not ready. */
  lemma NegativePrice(s: RsiState, price: real)
    requires price < 0.0
    ensures Step(s, price) == (s, false)
  {
  }

  /** While no price is recorded, a push only records it. */
  lemma FirstPrice(s: RsiState, price: real)
    requires 0.0 <= price && s.last == 0.0
    ensures Step(s, price) == (s.(last := price), false)
  {
  }

  /**
   * Otherwise the push records `price - last` as the newest delta and
   * `price` as the last price; with fewer than `period` deltas it is not
   * ready, and once there are `period` the oldest delta is dropped, whether
   * the reading is then updated or not.
   */
  lemma Appends(s: RsiState, price: real)
    requires 0.0 <= price && s.last != 0.0
    ensures var (t, ready) := Step(s, price);
      var d := s.deltas + [price - s.last];
      t.last == price && t.period == s.period &&
      (|d| < s.period ==> t.deltas == d && !ready && t.value == s.value) &&
      (s.period <= |d| ==> t.deltas == d[1..])
  {
  }

  /**
   * With `period` deltas, the push is ready exactly when some of them is
   * nonzero, and then the reading is that of the up and down sums, a value
   * in 0..100; otherwise the reading stays as it was.
   */
  lemma Readings(s: RsiState, price: real)
    requires 0.0 <= price && s.last != 0.0 && s.period <= |s.deltas| + 1
    ensures var (t, ready) := Step(s, price);
      var d := s.deltas + [price - s.last];
      (ready <==> exists i :: 0 <= i < |d| && d[i] != 0.0) &&
      (ready ==> t.value == Reading(UpSum(d), DownSum(d)) && 0 <= t.value <= 100) &&
      (!ready ==> t.value == s.value)
  {
    var d := s.deltas + [price - s.last];
    SumsZero(d);
    SumsNonNegative(d);
    if UpSum(d) + DownSum(d) != 0.0 {
      ReadingRange(UpSum(d), DownSum(d));
    }
  }

  /** The history an RSI keeps between pushes: fewer than `period` deltas, none when `period <= 1`. */
  predicate Bounded(s: RsiState)
  {
    |s.deltas| < s.period || s.deltas == []
  }

  /** Every push keeps the history bounded and the reading in 0..100. */
  lemma StepKeeps(s: RsiState, price: real)
    requires Bounded(s) && 0 <= s.value <= 100
    ensures Bounded(Step(s, price).0) && 0 <= Step(s, price).0.value <= 100
  {
    if 0.0 <= price && s.last != 0.0 {
      var d := s.deltas + [price - s.last];
      if s.period <= |d| {
        Readings(s, price);
      }
    }
  }
}
