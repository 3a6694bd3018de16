/**
 * Functions of the JavaScript runtime the engine and the parser call but
 * whose exact floating-point or calendar behaviour is not modelled here.
 * Each is passed in as a value, so every member that uses one is a
 * function of it.
 */
module Host {
  import opened Wrappers

  /** `Math.sqrt` and `Number.prototype.toFixed(3)`. */
  datatype Numerics = Numerics(sqrt: real -> real, toFixed3: real -> string)

  /** The two facts about `Math.sqrt` the metrics rely on. */
  ghost predicate ValidNumerics(num: Numerics) {
    && num.sqrt(0.0) == 0.0
    && forall x: real :: 0.0 <= x ==> 0.0 <= num.sqrt(x)
  }

  /**
   * The JavaScript `Date` object built from a date label, `d` days later:
   * its `getDay()` (None when the date is invalid, where `getDay()` is NaN)
   * and its `toLocaleDateString('en-GB')` with '/' replaced by '-'.
   */
  datatype Calendar = Calendar(
    weekdayAfter: (string, nat) -> Option<int>,
    labelAfter: (string, nat) -> string)

  /**
   * The conversions `parseIEXRows` applies to spreadsheet cells:
   * `String(x)` of a number, `parseFloat(s)`, `Number(s)` (None for NaN),
   * and the weekday of the `Date` built from a "DD-MM-YYYY" label
   * (None when that `Date` is invalid).
   */
  datatype Conversions = Conversions(
    numberToString: real -> string,
    parseFloat: string -> Option<real>,
    toNumber: string -> Option<real>,
    weekdayOf: string -> Option<int>)

  /**
   * The three facts of the runtime the parser's defaults rely on:
   * `parseFloat(undefined)` and `parseFloat('')` are NaN, and `Number('')` is 0.
   */
  predicate ValidConversions(conv: Conversions) {
    && conv.parseFloat("undefined") == None
    && conv.parseFloat("") == None
    && conv.toNumber("") == Some(0.0)
  }
}
