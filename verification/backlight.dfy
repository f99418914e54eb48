/**
 * The backlight device directory as the controller sees it. Opening a file,
 * parsing it with `int()` and writing `str(value)` are not modelled: the
 * device only says what a read of each file yields right now and how the
 * next write to the brightness file ends. Other processes may change both
 * between two calls of the controller.
 */
module Backlight {

  /** How opening a file and parsing its contents as an integer ends. */
  datatype ReadOutcome =
    | Parsed(n: int)
    | PermissionDenied  // PermissionError
    | Malformed         // ValueError raised by int()
    | OtherError        // any other exception

  /** How opening the brightness file and writing a value to it ends. */
  datatype WriteOutcome =
    | Written
    | WriteDenied       // PermissionError
    | WriteFailed       // any other exception

  /** The two files the controller reads. */
  datatype File = BrightnessFile | MaxBrightnessFile

  class Device {
    var brightness: ReadOutcome     // what reading the brightness file yields
    var maxBrightness: ReadOutcome  // what reading the max_brightness file yields
    var nextWrite: WriteOutcome     // how a write to the brightness file ends
    ghost var Writes: seq<int>      // every value a write was attempted with

    constructor (brightness: ReadOutcome, maxBrightness: ReadOutcome, nextWrite: WriteOutcome)
      ensures this.brightness == brightness && this.maxBrightness == maxBrightness
      ensures this.nextWrite == nextWrite && Writes == []
    {
      this.brightness := brightness;
      this.maxBrightness := maxBrightness;
      this.nextWrite := nextWrite;
      Writes := [];
    }

    /** What opening and parsing `f` yields right now. */
    function Contents(f: File): ReadOutcome
      reads this
    {
      match f
      case BrightnessFile => brightness
      case MaxBrightnessFile => maxBrightness
    }

    /** A successful write makes later reads yield the value written. */
    method Write(v: int) returns (o: WriteOutcome)
      modifies this
      ensures o == old(nextWrite) && nextWrite == old(nextWrite)
      ensures Writes == old(Writes) + [v]
      ensures brightness == (if o.Written? then Parsed(v) else old(brightness))
      ensures maxBrightness == old(maxBrightness)
    {
      o := nextWrite;
      Writes := Writes + [v];
      if o.Written? {
        brightness := Parsed(v);
      }
    }
  }
}
