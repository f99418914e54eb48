/**
 * The `BrightnessControl` class of the qtile brightness plugin: it resolves a
 * brightness ceiling once, then on every step re-reads the device, clamps the
 * new value into [min, max], writes it, and tells its callbacks the resulting
 * fraction of the ceiling, or the error value -1.
 *
 * Python's `False`, which `_read` returns for every failure, behaves as 0 in
 * every expression the class uses it in (truth tests and `min`), so the
 * model stores it as 0.
 */
module Brightness {
  import opened Wrappers
  import opened Backlight

  /** ERROR_VALUE: what the callbacks receive when the device failed. */
  const ErrorValue: real := -1.0

  /** Ceiling used when neither a max_brightness file nor an override is given. */
  const FallbackMax: int := 500

  // ---------------------------------------------------------------------
  // Configuration and reads

  /** `_read` turns every failure into `False`, that is, 0. */
  function ValueOrFalse(o: ReadOutcome): int
  {
    match o
    case Parsed(n) => n
    case _ => 0
  }

  /** `if max_brightness_path:` -- neither None nor the empty string. */
  predicate PathGiven(path: Option<string>)
  {
    path.Some? && path.value != ""
  }

  /** `if max_brightness:` -- neither None nor 0. */
  predicate OverrideGiven(limit: Option<int>)
  {
    limit.Some? && limit.value != 0
  }

  /** Python's `min`, which returns its first argument on a tie. */
  function Min(a: int, b: int): int
  {
    if b < a then b else a
  }

  /** Python's `max`, which returns its first argument on a tie. */
  function Max(a: int, b: int): int
  {
    if b > a then b else a
  }

  /** The bounds the user configured: the device maximum and the override. */
  function ConfiguredBounds(maxPath: Option<string>, deviceMax: ReadOutcome, limit: Option<int>): set<int>
  {
    (if PathGiven(maxPath) then {ValueOrFalse(deviceMax)} else {}) +
    (if OverrideGiven(limit) then {limit.value} else {})
  }

  /**
   * The ceiling `__init__` settles on: the least of the configured bounds, or
   * the fallback of 500 when none is configured. An unreadable or zero device
   * maximum is a configured bound of 0 (`False`), not a missing one.
   */
  function ResolveMax(maxPath: Option<string>, deviceMax: ReadOutcome, limit: Option<int>): (r: int)
    ensures ConfiguredBounds(maxPath, deviceMax, limit) != {} ==>
              r in ConfiguredBounds(maxPath, deviceMax, limit) &&
              forall b :: b in ConfiguredBounds(maxPath, deviceMax, limit) ==> r <= b
    ensures ConfiguredBounds(maxPath, deviceMax, limit) == {} ==> r == FallbackMax
  {
    if PathGiven(maxPath) then
      var m := ValueOrFalse(deviceMax);
      if OverrideGiven(limit) then Min(m, limit.value) else m
    else if OverrideGiven(limit) then
      limit.value
    else
      FallbackMax
  }

  /**
   * `max(min(v, hi), lo)`: saturates at `hi` above and at `lo` below, never
   * rejects; when the bounds cross, the floor wins.
   */
  function Clamp(v: int, lo: int, hi: int): (r: int)
    ensures lo <= hi ==> lo <= r <= hi
    ensures lo <= v <= hi ==> r == v
    ensures lo <= hi < v ==> r == hi
    ensures v < lo ==> r == lo
    ensures hi < lo ==> r == lo
  {
    Max(Min(v, hi), lo)
  }

  // ---------------------------------------------------------------------
  // Notifications

  /** What a callback is told: a fraction of the ceiling, or the error. */
  datatype Outcome = Percent(fraction: real) | Error

  /** The number a callback receives for an outcome. */
  function Delivered(o: Outcome): real
  {
    match o
    case Percent(f) => f
    case Error => ErrorValue
  }

  /** `callback` is the user's; `widget_callback` is set by `Widget`. */
  datatype Sink = Callback | WidgetCallback

  datatype Notification = Notification(sink: Sink, outcome: Outcome)

  /**
   * One round of notifications: every callback that is set receives the same
   * outcome, `callback` before `widget_callback`; unset ones are skipped.
   */
  function Fanout(callback: bool, widgetCallback: bool, o: Outcome): (r: seq<Notification>)
    ensures |r| == (if callback then 1 else 0) + (if widgetCallback then 1 else 0)
    ensures forall n :: n in r ==> n.outcome == o
    ensures callback ==> r[0] == Notification(Callback, o)
    ensures widgetCallback ==> r[|r| - 1] == Notification(WidgetCallback, o)
  {
    (if callback then [Notification(Callback, o)] else []) +
    (if widgetCallback then [Notification(WidgetCallback, o)] else [])
  }

  // ---------------------------------------------------------------------
  // One call of change_brightness, on values

  /** The part of the controller's state that a brightness change reads. */
  datatype Snapshot = Snapshot(min: int, max: int, previous: int, callback: bool, widgetCallback: bool)

  /** Nothing but `previous` differs: bounds and callbacks are the same. */
  predicate SameConfiguration(a: Snapshot, b: Snapshot)
  {
    a.min == b.min && a.max == b.max &&
    a.callback == b.callback && a.widgetCallback == b.widgetCallback
  }

  /** `if self.current and self.max:` */
  predicate Readable(current: int, max: int)
  {
    current != 0 && max != 0
  }

  /**
   * What one call does: the state after it, the value it re-read, the value
   * it tried to write (None when it did not try), and its notifications.
   */
  datatype Effect = Effect(after: Snapshot, current: int, written: Option<int>, notes: seq<Notification>)

  /**
   * `change_brightness(delta)` given what re-reading the brightness file
   * yields and how the write ends.
   */
  function Change(s: Snapshot, delta: int, reading: ReadOutcome, write: WriteOutcome): (e: Effect)
    ensures SameConfiguration(s, e.after)
    ensures e.current == ValueOrFalse(reading)
    ensures e.written.Some? <==> Readable(ValueOrFalse(reading), s.max)
    ensures e.written.Some? ==> e.written.value == Clamp(ValueOrFalse(reading) + delta, s.min, s.max)
    ensures e.written.Some? && s.min <= s.max ==> s.min <= e.written.value <= s.max
    ensures e.written.Some? ==> e.after.previous == e.written.value
    ensures e.written.Some? && e.written.value == s.previous ==> e.notes == []
    ensures e.written.Some? && e.written.value != s.previous ==>
              e.notes == Fanout(s.callback, s.widgetCallback,
                                if write.Written? then Percent(e.written.value as real / s.max as real) else Error)
    ensures e.written.None? ==> e.after == s && e.notes == Fanout(s.callback, s.widgetCallback, Error)
  {
    var current := ValueOrFalse(reading);
    if Readable(current, s.max) then
      var newval := Clamp(current + delta, s.min, s.max);
      var outcome := if write.Written? then Percent(newval as real / s.max as real) else Error;
      Effect(s.(previous := newval), current, Some(newval),
             if newval != s.previous then Fanout(s.callback, s.widgetCallback, outcome) else [])
    else
      Effect(s, current, None, Fanout(s.callback, s.widgetCallback, Error))
  }

  /** The write attempts of one call, as a sequence. */
  function Attempts(written: Option<int>): seq<int>
  {
    if written.Some? then [written.value] else []
  }

  // ---------------------------------------------------------------------
  // A sequence of calls, on values

  /** One call of change_brightness together with what the device does. */
  datatype Call = Call(delta: int, reading: ReadOutcome, write: WriteOutcome)

  /** The state after a sequence of calls, every write attempted and every notification sent. */
  datatype History = History(after: Snapshot, writes: seq<int>, notes: seq<Notification>)

  /** The ceiling is resolved once: no sequence of calls changes it, or the floor or callbacks. */
  function Run(s: Snapshot, calls: seq<Call>): (h: History)
    ensures SameConfiguration(s, h.after)
    ensures |h.writes| <= |calls|
    decreases |calls|
  {
    if calls == [] then
      History(s, [], [])
    else
      var e := Change(s, calls[0].delta, calls[0].reading, calls[0].write);
      var rest := Run(e.after, calls[1..]);
      History(rest.after, Attempts(e.written) + rest.writes, e.notes + rest.notes)
  }

  // ---------------------------------------------------------------------
  // The controller object

  class BrightnessControl {
    var step: int
    var min: int
    var max: int             // 0 stands for False
    var current: int         // 0 stands for False
    var previous: int        // `self.old`
    var callback: bool       // whether `self.callback` is set
    var widgetCallback: bool // whether `self.widget_callback` is set
    const device: Device
    const maxPathGiven: bool // whether `self.max_path` exists
    ghost var Notes: seq<Notification>  // every call of a callback, in order

    ghost function Snap(): Snapshot
      reads this
    {
      Snapshot(min, max, previous, callback, widgetCallback)
    }

    /**
     * `__init__`: the ceiling is resolved from the device maximum (read only
     * when a max_brightness path is given) and the override; the current
     * value is read once; no widget callback yet; `previous` is 0. The
     * defaults are those of `__init__`: step 50, the "max_brightness" file,
     * floor 100, no override, no callback. `self.max_path` is set only
     * when a max_brightness path is given.
     */
    constructor (device: Device, step: int := 50,
                 maxBrightnessPath: Option<string> := Some("max_brightness"),
                 minBrightness: int := 100, maxBrightness: Option<int> := None,
                 callback: bool := false)
      ensures this.step == step && this.device == device && min == minBrightness
      ensures maxPathGiven == PathGiven(maxBrightnessPath)
      ensures max == ResolveMax(maxBrightnessPath, device.maxBrightness, maxBrightness)
      ensures current == ValueOrFalse(device.brightness)
      ensures this.callback == callback && !widgetCallback
      ensures previous == 0 && Notes == []
    {
      this.step := step;
      this.device := device;
      min := minBrightness;
      maxPathGiven := PathGiven(maxBrightnessPath);
      new;
      if PathGiven(maxBrightnessPath) {
        max := GetMax();
        if OverrideGiven(maxBrightness) {
          max := Min(max, maxBrightness.value);
        }
      } else if OverrideGiven(maxBrightness) {
        max := maxBrightness.value;
      } else {
        max := FallbackMax;
      }
      current := GetCurrent();
      this.callback := callback;
      widgetCallback := false;
      previous := 0;
      Notes := [];
    }

    /** `_read`: every failure becomes False (0); nothing is raised. */
    method Read(f: File) returns (value: int)
      ensures device.Contents(f).Parsed? ==> value == device.Contents(f).n
      ensures !device.Contents(f).Parsed? ==> value == 0
    {
      match device.Contents(f)
      case Parsed(n) => value := n;
      case PermissionDenied => value := 0;
      case Malformed => value := 0;
      case OtherError => value := 0;
    }

    /**
     * `get_max`. It reads `self.max_path`, which exists only when a
     * max_brightness path was given; otherwise the attribute lookup raises
     * before `_read` is entered, so callers must not reach it then.
     */
    method GetMax() returns (maxval: int)
      requires maxPathGiven
      ensures maxval == ValueOrFalse(device.maxBrightness)
    {
      maxval := Read(MaxBrightnessFile);
    }

    /** `get_current` */
    method GetCurrent() returns (value: int)
      ensures value == ValueOrFalse(device.brightness)
    {
      value := Read(BrightnessFile);
    }

    /** `set_current`: true exactly when the write completed; nothing is raised. */
    method SetCurrent(newval: int) returns (success: bool)
      modifies device
      ensures success <==> old(device.nextWrite).Written?
      ensures device.Writes == old(device.Writes) + [newval]
      ensures device.brightness == (if success then Parsed(newval) else old(device.brightness))
      ensures device.maxBrightness == old(device.maxBrightness) && device.nextWrite == old(device.nextWrite)
    {
      var o := device.Write(newval);
      match o
      case Written => success := true;
      case WriteDenied => success := false;
      case WriteFailed => success := false;
    }

    /** Calls `callback`, then `widget_callback`, skipping those not set. */
    method NotifyCallbacks(o: Outcome)
      modifies this`Notes
      ensures Notes == old(Notes) + Fanout(callback, widgetCallback, o)
    {
      if callback {
        Notes := Notes + [Notification(Callback, o)];
      }
      if widgetCallback {
        Notes := Notes + [Notification(WidgetCallback, o)];
      }
    }

    /** The state after one call of `change_brightness(delta)` is what `Change` says. */
    twostate predicate ChangedBy(delta: int)
      reads this, device
    {
      var e := Change(old(Snap()), delta, old(device.brightness), old(device.nextWrite));
      Snap() == e.after && current == e.current && step == old(step) &&
      Notes == old(Notes) + e.notes &&
      device.Writes == old(device.Writes) + Attempts(e.written) &&
      device.brightness == (if e.written.Some? && old(device.nextWrite).Written?
                            then Parsed(e.written.value) else old(device.brightness)) &&
      device.maxBrightness == old(device.maxBrightness) && device.nextWrite == old(device.nextWrite)
    }

    /** `change_brightness` */
    method ChangeBrightness(delta: int)
      modifies this, device
      ensures ChangedBy(delta)
    {
      current := GetCurrent();
      if current != 0 && max != 0 {
        var newval := current + delta;
        newval := Clamp(newval, min, max);
        var success := SetCurrent(newval);
        if newval != previous {
          var percentage := if success then Percent(newval as real / max as real) else Error;
          NotifyCallbacks(percentage);
        }
        previous := newval;
      } else {
        NotifyCallbacks(Error);
      }
    }

    /** `brightness_up` */
    method BrightnessUp()
      modifies this, device
      ensures ChangedBy(old(step))
    {
      ChangeBrightness(step);
    }

    /** `brightness_down` */
    method BrightnessDown()
      modifies this, device
      ensures ChangedBy(-old(step))
    {
      ChangeBrightness(step * -1);
    }

    /** `Widget`: only the wiring of the second callback is modelled. */
    method AttachWidget()
      modifies this`widgetCallback
      ensures widgetCallback
    {
      widgetCallback := true;
    }
  }
}
