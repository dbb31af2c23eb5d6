/**
 The report interval: its conversion from the configured seconds to the
 milliseconds the report generator sleeps, and the validation rule on it.
 */
module Validation {

  /** The values of a Java `int`. */
  type Int32 = x: int | -0x8000_0000 <= x < 0x8000_0000

  /** The values of a Java `long`. */
  predicate InLongRange(x: int)
  {
    -0x8000_0000_0000_0000 <= x < 0x8000_0000_0000_0000
  }

  /** Two's complement wrap-around of `x` to 32 bits, as Java `int`
      arithmetic does. */
  function Wrap32(x: int): (r: Int32)
    ensures (x - r) % 0x1_0000_0000 == 0
    ensures -0x8000_0000 <= x < 0x8000_0000 ==> r == x
  {
    (x + 0x8000_0000) % 0x1_0000_0000 - 0x8000_0000
  }

  /** The interval as the processor computes it: the configured seconds, read
      as an `int`, times the `int` literal 1000. The product is taken in 32
      bits and only then widened to the `long` field. */
  function ReportIntervalMillisAsWritten(seconds: Int32): int
  {
    Wrap32(seconds * 1000)
  }

  /** The interval as evidently intended: the product taken in `long`
      arithmetic, so it is exactly the number of milliseconds in `seconds`. */
  function ReportIntervalMillis(seconds: Int32): (millis: int)
    ensures InLongRange(millis)
    ensures millis % 1000 == 0 && millis / 1000 == seconds
    ensures 0 < millis <==> 0 < seconds
  {
    seconds * 1000
  }

  /** The key of the one validation message. */
  const InvalidReportInterval: string := "VALIDATION_INVALID_REPORT_INTERVAL"

  /** Whether the configuration may become active, and if not, why. */
  datatype Validity = Valid | Invalid(messages: seq<string>)

  /** The processor's own validation: an interval of zero or less is the only
      error it reports. */
  function Validate(reportInterval: int): (r: Validity)
    ensures r.Valid? <==> 0 < reportInterval
    ensures r.Invalid? ==> r.messages == [InvalidReportInterval]
  {
    var errors := if reportInterval <= 0 then [InvalidReportInterval] else [];
    if |errors| > 0 then Invalid(errors) else Valid
  }

  /** With the intended conversion a configuration is valid exactly when the
      configured number of seconds is positive. */
  lemma ValidIffPositiveSeconds(seconds: Int32)
    ensures Validate(ReportIntervalMillis(seconds)).Valid? <==> 0 < seconds
  {
  }

  /** As written, the 32-bit product wraps: a positive interval of 2147484
      seconds is rejected as non-positive, and one of 4294968 seconds (about 50
      days) turns into 704 milliseconds. */
  lemma ReportIntervalWraps()
    ensures ReportIntervalMillisAsWritten(2147484) < 0
    ensures Validate(ReportIntervalMillisAsWritten(2147484)).Invalid?
    ensures ReportIntervalMillisAsWritten(4294968) == 704
    ensures ReportIntervalMillis(4294968) == 4294968000
  {
    assert 2147484 * 1000 == 2147484000;
    assert 4294968 * 1000 == 4294968000;
  }

  /** The two conversions agree whenever the product fits in an `int`. */
  lemma AsWrittenAgreesWhenSmall(seconds: Int32)
    requires -2147483 <= seconds <= 2147483
    ensures ReportIntervalMillisAsWritten(seconds) == ReportIntervalMillis(seconds)
  {
  }
}
