/** Python values that cross the interface of the DLnSec laser driver. */
module Values {

  /** An argument passed to a driver method: the driver is called with ints
      or with the query marker string '?'. */
  datatype Arg = Int(i: int) | Str(s: string)

  /** What a driver method returns: Python's None, the float of a parsed
      reply, or a str (an unparsed reply or a local acknowledgement). */
  datatype Value = None | Number(x: real) | Text(s: string)

  /** Exceptions that escape a driver method. */
  datatype Exc =
    | TypeError   // an int ordered against a str, or a str called as a function
    | IndexError  // `cmd[-1]` on an empty command
    | Timeout     // the transport read no reply line within its timeout

  /** A returned value, or the exception the call raised. */
  datatype Result<+T> = Ok(value: T) | Raised(exc: Exc)

  /** The outcome of `float(text)` on a reply; the parser itself is supplied
      from outside the model. */
  datatype Parsed = Numeric(x: real) | NotNumeric
}
