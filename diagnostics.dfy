/**
 * The buffer-growing loop that dpi_fatal_stub, dpi_print_stub and
 * Dpi_model::print share: format into a stack buffer of `size` bytes,
 * and retry with a larger buffer when vsnprintf reports that the
 * message did not fit. The varargs formatting itself is abstracted:
 * `msg` stands for the full text the format and arguments produce, as
 * the bytes of a C string without its terminating NUL.
 */
module Diagnostics {
  import opened Kernel

  /** The buffer size of the first attempt. */
  const InitialBufferSize: nat := 1024

  /** What vsnprintf leaves in a buffer of `size` bytes: at most size - 1
      bytes, then the terminating NUL (not part of the sequence here). */
  function Vsnprintf(msg: seq<Byte>, size: nat): (written: seq<Byte>)
    requires size >= 1
  {
    if |msg| < size then msg else msg[..size - 1]
  }

  /** What a reader of the buffer as a C string sees: the bytes before the
      first NUL. A message formatted with an embedded NUL (say from `%c`
      with 0) reaches the sink only up to that NUL. */
  function UntilNul(s: seq<Byte>): (r: seq<Byte>)
    ensures r <= s
    ensures forall i :: 0 <= i < |r| ==> r[i] != 0
    ensures |r| < |s| ==> s[|r|] == 0
  {
    if s == [] || s[0] == 0 then [] else [s[0]] + UntilNul(s[1..])
  }

  /** The loop as the source writes it. vsnprintf returns |msg|, the length
      without the terminating NUL, and the loop stops once that is at most
      `size`: a message of exactly `size` bytes is accepted although
      only size - 1 of them fit, and the retry buffer gets exactly |msg|
      bytes, so every message of 1024 bytes or more loses its last byte. */
  method FormatAsWritten(msg: seq<Byte>) returns (text: seq<Byte>)
    ensures |msg| < InitialBufferSize ==> text == msg
    ensures |msg| >= InitialBufferSize ==> text == msg[..|msg| - 1]
  {
    var size: nat := InitialBufferSize;
    text := [];
    while true
      invariant size == InitialBufferSize || (size == |msg| && |msg| > InitialBufferSize)
      decreases if |msg| <= size then 0 else 1
    {
      var str := Vsnprintf(msg, size);
      var iterSize := |msg|;
      if iterSize <= size {
        text := str;
        break;
      }
      size := iterSize;
    }
  }

  /** A message of exactly InitialBufferSize bytes, and what the as-written loop passes on for it. */
  method TruncationWitness() returns (msg: seq<Byte>, text: seq<Byte>)
    ensures |msg| == InitialBufferSize
    ensures text != msg && text == msg[..|msg| - 1]
  {
    msg := seq(InitialBufferSize, _ => 0x78);
    text := FormatAsWritten(msg);
  }

  /** The loop as intended: accept only when the message fits with its NUL,
      and retry with room for it. The full message is passed on. */
  method Format(msg: seq<Byte>) returns (text: seq<Byte>)
    ensures text == msg
  {
    var size: nat := InitialBufferSize;
    text := [];
    while true
      invariant size == InitialBufferSize || (size == |msg| + 1 && |msg| >= InitialBufferSize)
      decreases if |msg| < size then 0 else 1
    {
      var str := Vsnprintf(msg, size);
      var iterSize := |msg|;
      if iterSize < size {
        text := str;
        break;
      }
      size := iterSize + 1;
    }
  }
}
