/**
 * Clients of the controller with the default step 50 and floor 100 and a
 * device maximum of 1000 (or of 15, below the floor), followed from the
 * method contracts alone.
 */
module Scenarios {
  import opened Wrappers
  import opened Backlight
  import opened Brightness

  /** 950 + 50 reaches the ceiling: 1000 is written and 1.0 reported. */
  method RaiseToCeiling()
  {
    var dev := new Device(Parsed(950), Parsed(1000), Written);
    var c := new BrightnessControl(dev, callback := true);
    assert c.max == 1000;
    c.BrightnessUp();
    assert dev.Writes == [1000];
    assert c.Notes == [Notification(Callback, Percent(1.0))];
  }

  /** A second call that clamps to the same value writes it but tells nobody. */
  method RepeatAtCeiling()
  {
    var dev := new Device(Parsed(1000), Parsed(1000), WriteDenied);
    var c := new BrightnessControl(dev, callback := true);
    c.BrightnessUp();
    assert c.Notes == [Notification(Callback, Error)];
    c.BrightnessUp();
    assert dev.Writes == [1000, 1000];
    assert c.Notes == [Notification(Callback, Error)];
  }

  /** 120 - 50 is clamped up to the floor: 100 is written and 0.1 reported to both callbacks. */
  method LowerToFloor()
  {
    var dev := new Device(Parsed(120), Parsed(1000), Written);
    var c := new BrightnessControl(dev, callback := true);
    c.AttachWidget();
    c.BrightnessDown();
    assert dev.Writes == [100];
    assert c.Notes == [Notification(Callback, Percent(0.1)), Notification(WidgetCallback, Percent(0.1))];
  }

  /** An unreadable brightness file: no write, -1 to both callbacks. */
  method UnreadableDevice()
  {
    var dev := new Device(PermissionDenied, Parsed(1000), Written);
    var c := new BrightnessControl(dev, callback := true);
    c.AttachWidget();
    c.BrightnessUp();
    assert dev.Writes == [];
    assert c.Notes == [Notification(Callback, Error), Notification(WidgetCallback, Error)];
  }

  /** With the default floor 100 and a device maximum of 15, the floor is written, above the ceiling. */
  method FloorAboveCeiling()
  {
    var dev := new Device(Parsed(7), Parsed(15), Written);
    var c := new BrightnessControl(dev, callback := true);
    c.BrightnessUp();
    assert dev.Writes == [100];
    assert c.Notes == [Notification(Callback, Percent(100.0 / 15.0))];
  }
}
