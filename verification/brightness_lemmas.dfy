/**
 * What `change_brightness` promises across one call and across any sequence
 * of calls, stated on the value model `Brightness.Change` / `Brightness.Run`
 * that the controller's methods are proved against.
 */
module BrightnessLemmas {
  import opened Wrappers
  import opened Backlight
  import opened Brightness

  /** `n` copies of `xs`, one after another. */
  function Repeat<T>(xs: seq<T>, n: nat): seq<T>
  {
    if n == 0 then [] else xs + Repeat(xs, n - 1)
  }

  /** Every write ever attempted lies within [min, max] when min <= max. */
  lemma {:induction false} RunWritesWithinBounds(s: Snapshot, calls: seq<Call>)
    requires s.min <= s.max
    ensures forall w :: w in Run(s, calls).writes ==> s.min <= w <= s.max
    decreases |calls|
  {
    if calls != [] {
      var e := Change(s, calls[0].delta, calls[0].reading, calls[0].write);
      RunWritesWithinBounds(e.after, calls[1..]);
    }
  }

  /**
   * With a falsy ceiling (an unreadable or zero device maximum) the
   * controller never writes, never changes state, and every call sends the
   * error value to every callback that is set.
   */
  lemma {:induction false} FalsyMaxReportsOnlyErrors(s: Snapshot, calls: seq<Call>)
    requires s.max == 0
    ensures Run(s, calls).writes == []
    ensures Run(s, calls).after == s
    ensures Run(s, calls).notes == Repeat(Fanout(s.callback, s.widgetCallback, Error), |calls|)
    decreases |calls|
  {
    if calls != [] {
      FalsyMaxReportsOnlyErrors(s, calls[1..]);
    }
  }

  /**
   * An unreadable or zero device maximum leaves the ceiling falsy whenever a
   * max_brightness path is given, unless the override is negative: the
   * fallback of 500 is not used.
   */
  lemma UnreadableMaxDisablesControl(maxPath: Option<string>, deviceMax: ReadOutcome, limit: Option<int>)
    requires PathGiven(maxPath) && ValueOrFalse(deviceMax) == 0
    requires !(OverrideGiven(limit) && limit.value < 0)
    ensures ResolveMax(maxPath, deviceMax, limit) == 0
  {
  }

  /** The four branches of the ceiling's resolution. */
  lemma ResolveMaxCases(maxPath: Option<string>, deviceMax: ReadOutcome, limit: Option<int>)
    ensures PathGiven(maxPath) && OverrideGiven(limit) ==>
              ResolveMax(maxPath, deviceMax, limit) == Min(ValueOrFalse(deviceMax), limit.value)
    ensures PathGiven(maxPath) && !OverrideGiven(limit) ==>
              ResolveMax(maxPath, deviceMax, limit) == ValueOrFalse(deviceMax)
    ensures !PathGiven(maxPath) && OverrideGiven(limit) ==>
              ResolveMax(maxPath, deviceMax, limit) == limit.value
    ensures !PathGiven(maxPath) && !OverrideGiven(limit) ==>
              ResolveMax(maxPath, deviceMax, limit) == FallbackMax
  {
  }

  /**
   * Above the ceiling the write saturates at the ceiling, below the floor at
   * the floor; nothing is rejected.
   */
  lemma Saturates(s: Snapshot, delta: int, reading: ReadOutcome, write: WriteOutcome)
    requires Readable(ValueOrFalse(reading), s.max) && s.min <= s.max
    ensures ValueOrFalse(reading) + delta >= s.max ==> Change(s, delta, reading, write).written == Some(s.max)
    ensures ValueOrFalse(reading) + delta <= s.min ==> Change(s, delta, reading, write).written == Some(s.min)
  {
  }

  /** Where `a / b` lies for a positive `b`: the step Z3 needs to bound a reported fraction. */
  lemma Fraction(a: real, b: real)
    requires 0.0 < b
    ensures 0.0 <= a ==> 0.0 <= a / b
    ensures a <= b ==> a / b <= 1.0
    ensures b < a ==> a / b > 1.0
  {
    var q := a / b;
    assert q * b == a;
    assert (q - 1.0) * b == a - b;
  }

  /**
   * A ceiling below the floor (the default floor 100 with a device maximum of
   * 15, say) makes every readable call write the floor, above the ceiling,
   * and, when that write succeeds and the value changed, report a fraction
   * above 1.
   */
  lemma CrossedBoundsWriteAboveCeiling(s: Snapshot, delta: int, reading: ReadOutcome, write: WriteOutcome)
    requires Readable(ValueOrFalse(reading), s.max) && 0 < s.max < s.min
    ensures Change(s, delta, reading, write).written == Some(s.min)
    ensures write.Written? && s.min != s.previous ==>
              forall n :: n in Change(s, delta, reading, write).notes ==>
                n.outcome.Percent? && n.outcome.fraction > 1.0
  {
    Fraction(s.min as real, s.max as real);
  }

  /**
   * A brightness file that reads 0 is falsy like a failed read: nothing is
   * written and every set callback receives the error value, so a screen
   * set to 0 elsewhere cannot be raised.
   */
  lemma ZeroReadingReportsError(s: Snapshot, delta: int, write: WriteOutcome)
    ensures Change(s, delta, Parsed(0), write).written == None
    ensures Change(s, delta, Parsed(0), write).after == s
    ensures Change(s, delta, Parsed(0), write).notes == Fanout(s.callback, s.widgetCallback, Error)
  {
  }

  /**
   * The error outcome (`ERROR_VALUE`) is sent exactly when a callback is set
   * and either the device or the ceiling was unreadable, or the write failed
   * on a value different from the previous one. A failed write of the
   * previous value is not reported. This is about the error outcome, not the
   * number -1: with a negative floor a successful write can deliver -1 as a
   * fraction; with 0 <= min <= max it cannot (`PercentWithinUnitRange`).
   */
  lemma ErrorReportedExactlyWhen(s: Snapshot, delta: int, reading: ReadOutcome, write: WriteOutcome)
    ensures var e := Change(s, delta, reading, write);
            (exists n :: n in e.notes && n.outcome == Error) <==>
            (s.callback || s.widgetCallback) &&
            (e.written.None? || (e.written.value != s.previous && !write.Written?))
  {
  }

  /**
   * With a non-negative floor below the ceiling every percentage reported
   * lies in [0, 1], so it is never mistaken for the error value.
   */
  lemma PercentWithinUnitRange(s: Snapshot, delta: int, reading: ReadOutcome, write: WriteOutcome)
    requires 0 <= s.min <= s.max
    ensures forall n :: n in Change(s, delta, reading, write).notes && n.outcome.Percent? ==>
              0.0 <= n.outcome.fraction <= 1.0 && Delivered(n.outcome) != ErrorValue
  {
    var e := Change(s, delta, reading, write);
    if e.written.Some? {
      Fraction(e.written.value as real, s.max as real);
    }
  }

  /**
   * Two calls in a row that clamp to the same value: the second notifies no
   * callback, whether its write succeeded or not.
   */
  lemma RepeatedTargetIsSilent(s: Snapshot, first: Call, second: Call)
    requires Change(s, first.delta, first.reading, first.write).written.Some?
    requires Change(Change(s, first.delta, first.reading, first.write).after,
                    second.delta, second.reading, second.write).written
             == Change(s, first.delta, first.reading, first.write).written
    ensures Change(Change(s, first.delta, first.reading, first.write).after,
                   second.delta, second.reading, second.write).notes == []
  {
  }

  /**
   * `previous` follows the value tried on every readable call, whether the
   * write succeeded or not, and is untouched by unreadable calls.
   */
  lemma {:induction false} PreviousTracksLastAttempt(s: Snapshot, calls: seq<Call>)
    ensures Run(s, calls).writes == [] ==> Run(s, calls).after.previous == s.previous
    ensures Run(s, calls).writes != [] ==>
              Run(s, calls).after.previous == Run(s, calls).writes[|Run(s, calls).writes| - 1]
    decreases |calls|
  {
    if calls != [] {
      var e := Change(s, calls[0].delta, calls[0].reading, calls[0].write);
      PreviousTracksLastAttempt(e.after, calls[1..]);
    }
  }
}
