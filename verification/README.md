# qtile brightness control, modelled in Dafny

This project models the `BrightnessControl` class of the qtile brightness
plugin. The class drives one backlight device that exposes its brightness
as text files. At construction it fixes a brightness ceiling once. It uses
the smaller of the device-reported maximum and a user override, the
device-reported maximum alone, the override alone, or a fallback of 500.

Each `brightness_up` / `brightness_down` call goes through
`change_brightness`. That call re-reads the current raw value, because
another process may have changed it. It then clamps `current + step` into
`[min, max]`, writes the result, and reports `new / max` to its callbacks.
A failed write reports the error value -1, and an unchanged target reports
nothing. If the current value or the ceiling is falsy (a failed read, or a
read that gives 0), the call writes nothing and reports -1.

Files:

- `wrappers.dfy`: module `Wrappers`, an `Option` type for Python's `None` defaults.
- `backlight.dfy`: module `Backlight`, the device directory as an oracle. A read
  yields a parsed integer or one of the three failures that `_read` catches.
  A write either completes or fails. A ghost log records every write attempt.
- `brightness.dfy`: module `Brightness`. It holds the value model: ceiling
  resolution (`ResolveMax`), the clamp (`Clamp`), one call of
  `change_brightness` (`Change`), a sequence of calls (`Run`), and the
  notification fan-out (`Fanout`). It also holds the class
  `BrightnessControl`, whose methods are proved against that model. The
  callbacks are recorded in a ghost trace `Notes`.
- `brightness_lemmas.dfy`: module `BrightnessLemmas`, properties of one call and of
  any sequence of calls.
- `scenarios.dfy`: module `Scenarios`. Clients built with the constructor's
  defaults (step 50, floor 100) on a device maximum of 1000 or of 15,
  followed using only the method contracts.

Python's `False`, which `_read` returns on every failure, is stored as 0. It
behaves the same in every expression the class uses it in: truth tests and
`min`. `self.old` is called `previous`, because `old` is a Dafny
keyword. The percentage `newval / self.max` is an exact `real`.

What the code does where one might expect otherwise:

- One might expect an unreadable device maximum to fall back to 500. Instead,
  a configured max_brightness path whose read fails gives a ceiling of
  `False`. `min(False, override)` is still `False` for a positive override.
  Every later call then takes the error branch
  (`UnreadableMaxDisablesControl`, `FalsyMaxReportsOnlyErrors`).
- One might expect separate last-read and last-notified values. The code
  compares against one value, `self.old` (`self.current` keeps the last read
  but is not used for duplicate suppression). It holds the last value tried, even when that write
  failed (`PreviousTracksLastAttempt`).
- One might expect -1 to be reported exactly when a read or write failed.
  It is not, in both directions (`ErrorReportedExactlyWhen`):
  - a failed write of the same value as `self.old` is not reported;
  - a successful read of 0 from the brightness file (or from the
    max_brightness file) is falsy, so the call writes nothing and reports -1
    although nothing failed. A screen set to 0 by another process can never
    be raised (`ZeroReadingReportsError`).
- One might expect writes never to leave [min, max]. They stay inside when
  `min <= max` (`RunWritesWithinBounds`). When the ceiling is below the
  floor, for instance the default floor 100 with a device maximum of 15 or an
  override of 50, `max(min(v, 15), 100)` is 100 on every readable call. The
  floor is then written above the ceiling and 100/15 is reported
  (`CrossedBoundsWriteAboveCeiling`).
- A reported percentage lies in [0, 1] when `0 <= min <= max`
  (`PercentWithinUnitRange`). Outside that case it can fall outside [0, 1],
  and with a negative floor or ceiling it can even equal -1. A negative
  ceiling is truthy, so it takes the readable branch like a positive one.

## Model

| member | source | states |
|---|---|---|
| `Brightness.ResolveMax` | brightnesscontrol/brightnesscontrol.py:49-65 | the ceiling is the least of the configured bounds (an unreadable device maximum counts as 0), or 500 when none is configured |
| `Brightness.Clamp` | brightnesscontrol/brightnesscontrol.py:89-90 | `max(min(v, hi), lo)` lies in [lo, hi] when lo <= hi, keeps values already inside, saturates at hi above and at lo below, and gives lo when the bounds cross |
| `Brightness.Fanout` | brightnesscontrol/brightnesscontrol.py:101-105 | every callback that is set receives the same outcome, `callback` before `widget_callback`; unset ones are skipped |
| `Brightness.Change` | brightnesscontrol/brightnesscontrol.py:77-118 | a write is attempted exactly when the re-read value and the ceiling are both truthy; its value is the clamp of current + step; `previous` becomes that value; an unchanged target notifies nobody; a changed one reports new/max or -1 after a failed write; an unreadable call reports -1 and changes nothing; bounds and callbacks never change |
| `Brightness.Run` | brightnesscontrol/brightnesscontrol.py:77-118 | no sequence of calls changes the ceiling, the floor or the callbacks, and there are never more write attempts than calls |
| `Brightness.BrightnessControl.constructor` | brightnesscontrol/brightnesscontrol.py:35-75 | the ceiling is `ResolveMax` of the path, the device maximum and the override; the current value is read once; no widget callback; `previous` starts at 0 |
| `Brightness.BrightnessControl.Read` | brightnesscontrol/brightnesscontrol.py:121-137 | a parsed value is returned as is; a permission error, a malformed value or any other failure returns False (0), and nothing is raised |
| `Brightness.BrightnessControl.GetMax` | brightnesscontrol/brightnesscontrol.py:139-146 | callable only when a max_brightness path was given (`self.max_path` is set only then, at line 51); returns the max_brightness file's value, or False when it cannot be read |
| `Brightness.BrightnessControl.GetCurrent` | brightnesscontrol/brightnesscontrol.py:148-155 | returns the brightness file's value, or False when it cannot be read |
| `Brightness.BrightnessControl.SetCurrent` | brightnesscontrol/brightnesscontrol.py:157-171 | attempts exactly one write; returns true exactly when it completed; the device holds the new value only then |
| `Brightness.BrightnessControl.NotifyCallbacks` | brightnesscontrol/brightnesscontrol.py:101-105 | appends one notification per set callback, `callback` first, to the trace |
| `Brightness.BrightnessControl.ChangeBrightness` | brightnesscontrol/brightnesscontrol.py:77-118 | the new controller state, device state, write log and notifications are those `Change` gives for the pre-state, the re-read value and the write outcome |
| `Brightness.BrightnessControl.BrightnessUp` | brightnesscontrol/brightnesscontrol.py:173-176 | has the effect of `change_brightness(step)` |
| `Brightness.BrightnessControl.BrightnessDown` | brightnesscontrol/brightnesscontrol.py:178-181 | has the effect of `change_brightness(-step)` |
| `Brightness.BrightnessControl.AttachWidget` | brightnesscontrol/brightnesscontrol.py:183-190 | sets the second callback and changes nothing else |
| `BrightnessLemmas.RunWritesWithinBounds` | brightnesscontrol/brightnesscontrol.py:84-93 | over any sequence of calls, with any readings and write outcomes, every value written lies in [min, max] when min <= max |
| `BrightnessLemmas.FalsyMaxReportsOnlyErrors` | brightnesscontrol/brightnesscontrol.py:110-118 | with a falsy ceiling, no sequence of calls writes anything or changes state, and each call sends -1 to every set callback |
| `BrightnessLemmas.UnreadableMaxDisablesControl` | brightnesscontrol/brightnesscontrol.py:50-55 | with a max_brightness path whose read fails or gives 0, the ceiling is falsy (not 500) unless the override is negative |
| `BrightnessLemmas.ResolveMaxCases` | brightnesscontrol/brightnesscontrol.py:50-65 | both configured: `min(device, override)`; only the path: the device value; only the override: the override; neither: 500 |
| `BrightnessLemmas.Saturates` | brightnesscontrol/brightnesscontrol.py:87-93 | on a readable call with min <= max, current + step at or above the ceiling writes the ceiling, and at or below the floor writes the floor |
| `BrightnessLemmas.CrossedBoundsWriteAboveCeiling` | brightnesscontrol/brightnesscontrol.py:87-99 | with a positive ceiling below the floor, every readable call writes the floor, above the ceiling, and a changed value whose write succeeds is reported as a fraction above 1 |
| `BrightnessLemmas.ZeroReadingReportsError` | brightnesscontrol/brightnesscontrol.py:81-118 | a brightness file that reads 0 is treated like a failed read: no write, no state change, -1 to every set callback |
| `BrightnessLemmas.ErrorReportedExactlyWhen` | brightnesscontrol/brightnesscontrol.py:84-118 | the error outcome (`ERROR_VALUE`) is sent exactly when a callback is set and either the call was unreadable or the write of a changed value failed; together with `PercentWithinUnitRange`, -1 is delivered only in that case when `0 <= min <= max` |
| `BrightnessLemmas.PercentWithinUnitRange` | brightnesscontrol/brightnesscontrol.py:99 | with 0 <= min <= max every reported percentage lies in [0, 1] and differs from -1 |
| `BrightnessLemmas.RepeatedTargetIsSilent` | brightnesscontrol/brightnesscontrol.py:96-108 | a call that clamps to the value the previous call tried notifies nobody, whatever its write outcome |
| `BrightnessLemmas.PreviousTracksLastAttempt` | brightnesscontrol/brightnesscontrol.py:107-108 | after any sequence of calls `previous` is the last value a write was tried with, failed or not, or is unchanged when no write was tried |

## Left out

- `BrightnessControlWidget` (the status-bar widget: drawing, fonts, layout, hide timers and the host's widget lifecycle) is not part of this model. `Widget` is modelled only as setting the second callback (`AttachWidget`).
- File I/O is an oracle. The model leaves out `open`, `int()` parsing of the file contents, `str()` on write, and the device and file path strings joined with `os.path.join`. Only whether a max_brightness path is given matters.
- What the callbacks do is not modelled: each call of a callback is recorded in the ghost trace `Notes`.
- Logger warnings and errors are left out, because they have no effect on state.
- Floating-point division is replaced by exact `real` division.
- Brightness.BrightnessControl.constructor: the `device` and `brightness_path` strings and their defaults are replaced by the `Device` object; the other defaults (step 50, "max_brightness", floor 100, no override, no callback) are kept.
- Brightness.BrightnessControl.GetMax: the `AttributeError` raised when `get_max` is called on a controller built without a max_brightness path is not modelled as an exception; `GetMax` instead requires that a path was given, which `__init__` guarantees for its own call.
- Callbacks are assumed to return normally. In the code, a `callback` that raises skips `widget_callback` and the update of `self.old`, and the exception escapes `change_brightness`; the model does not capture that.
- Concurrent calls are not modelled. The host is assumed to issue one call at a time.
- The `re`, `subprocess` and `images` imports are unused, and `setup.py` is packaging metadata only.
