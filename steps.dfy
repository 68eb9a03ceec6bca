/** What each state-changing operation of the driver does to the resource,
    as functions from the resource's state before the call to the result
    and the state after it. The methods of `Driver.DLnSec` are proved
    against these. */
module Steps {
  import opened Values
  import opened Commands
  import opened Transport

  /** The value a query returns for the line its transport call produced. */
  function Answer(parse: string -> Parsed, line: Result<string>): (answer: Result<Value>)
  {
    match line
    case Ok(reply) => Ok(Coerce(parse, reply))
    case Raised(e) => Raised(e)
  }

  /** `_com(cmd)`: a query when the last character is the marker, otherwise
      a write acknowledged with "Sent: " and the command. */
  function ComStep(parse: string -> Parsed, cmd: string, l: Link): (step: (Result<Value>, Link))
  {
    if cmd == [] then (Raised(IndexError), l)
    else if cmd[|cmd| - 1] == '?' then
      var (line, l') := QueryStep(Wire(cmd), l);
      (Answer(parse, line), l')
    else (Ok(Text("Sent: " + cmd)), WriteStep(cmd, l))
  }

  /** `power(percentage)`. The `Exception` in the else branch is built and
      dropped, so that branch returns None. */
  function PowerStep(parse: string -> Parsed, percentage: Arg, l: Link): (step: (Result<Value>, Link))
  {
    match PowerTest(percentage)
    case Raised(e) => (Raised(e), l)
    case Ok(valid) => if valid then ComStep(parse, "PWR" + Format(percentage), l) else (Ok(None), l)
  }

  /** `prescaler(prescale)`; an unlisted value builds an `Exception` and drops it. */
  function PrescalerStep(parse: string -> Parsed, prescale: Arg, l: Link): (step: (Result<Value>, Link))
  {
    if prescale in PrescalerOptions then ComStep(parse, "PRE" + Format(prescale), l) else (Ok(None), l)
  }

  /** `pulse_width(width)`: sends under the prescaler's mnemonic "PRE". */
  function PulseWidthStep(parse: string -> Parsed, width: Arg, l: Link): (step: (Result<Value>, Link))
  {
    match PulseWidthTest(width)
    case Raised(e) => (Raised(e), l)
    case Ok(valid) => if valid then ComStep(parse, "PRE" + Format(width), l) else (Ok(None), l)
  }

  /** The values of the `commands` dictionary of `set_parameters`. */
  datatype Setter = SetPower | SetPrescale | SetPulseWidth

  /** The `commands` dictionary of `set_parameters`. */
  const SetterTable: map<string, Setter> :=
    map["power" := SetPower, "prescale" := SetPrescale, "pulse_width" := SetPulseWidth]

  function SetStep(parse: string -> Parsed, setter: Setter, value: Arg, l: Link): (step: (Result<Value>, Link))
  {
    match setter
    case SetPower => PowerStep(parse, value, l)
    case SetPrescale => PrescalerStep(parse, value, l)
    case SetPulseWidth => PulseWidthStep(parse, value, l)
  }

  /** `set_parameters(**kwargs)`, with the keyword arguments in call order.
      A Python call cannot repeat a keyword; a sequence that repeats a key
      corresponds to no real call, and the lemmas simply cover it as well.
      A key missing from the table raises KeyError, which is swallowed; any
      other exception ends the loop and propagates. */
  function SetParametersStep(parse: string -> Parsed, kwargs: seq<(string, Arg)>, l: Link): (step: (Result<Value>, Link))
    decreases |kwargs|
  {
    if kwargs == [] then (Ok(None), l)
    else
      var (key, value) := kwargs[0];
      if key !in SetterTable then SetParametersStep(parse, kwargs[1..], l)
      else
        var (r, l') := SetStep(parse, SetterTable[key], value, l);
        if r.Raised? then (Raised(r.exc), l') else SetParametersStep(parse, kwargs[1..], l')
  }
}
