/** `java.io.StringWriter`, the buffer the hand-written encoders append to. */
module JavaIo {

  class StringWriter {
    /** The text written so far; `toString()` returns it. */
    var buffer: string

    constructor ()
      ensures buffer == ""
    {
      buffer := "";
    }

    /** `write(s)`: appends `s`. */
    method Write(s: string)
      modifies this
      ensures buffer == old(buffer) + s
    {
      buffer := buffer + s;
    }
  }
}
