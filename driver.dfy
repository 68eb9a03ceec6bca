/** The DLnSec laser driver: every method builds a command and passes it to
    `Com`, which writes it or queries it on the resource `inst`. */
module Driver {
  import opened Values
  import opened Commands
  import opened Transport
  import opened Steps
  import opened Properties

  /** Trigger selection of `trigger`: which wrapper a bound-method entry names. */
  datatype Source = Internal | External

  /** A value of the `options` dictionary of `trigger`: a bound method not yet
      called, or the result of a call made while the dictionary was built. */
  datatype Entry = Bound(source: Source) | Evaluated(v: Value)

  class DLnSec {
    const inst: Resource
    const verbatim: bool
    const parse: string -> Parsed

    /** `inst` stands for the resource the constructor opens; `parse` is `float`. */
    constructor (inst: Resource, verbatim: bool, parse: string -> Parsed)
      ensures this.inst == inst && this.verbatim == verbatim && this.parse == parse
    {
      this.inst := inst;
      this.verbatim := verbatim;
      this.parse := parse;
    }

    /** The call wrote `cmd` and returned the local acknowledgement. */
    ghost predicate Wrote(before: Link, cmd: string, r: Result<Value>)
      reads inst
    {
      inst.State() == WriteStep(cmd, before) && r == Ok(Text("Sent: " + cmd))
    }

    /** The call queried `sent` and returned the coerced reply line, or the
        transport's error when there was none. */
    ghost predicate Queried(before: Link, sent: string, r: Result<Value>)
      reads inst
    {
      var (line, after) := QueryStep(sent, before);
      inst.State() == after && r == Answer(parse, line)
    }

    method Com(cmd: string) returns (r: Result<Value>)
      modifies inst
      ensures (r, inst.State()) == ComStep(parse, cmd, old(inst.State()))
    {
      // the `verbatim` echo goes to the console only
      if |cmd| == 0 {
        return Raised(IndexError);
      }
      if cmd[|cmd| - 1] == '?' {
        var sent := cmd;
        if StripTest(cmd) {
          sent := cmd[..|cmd| - 1];
        }
        var line := inst.Query(sent);
        r := Answer(parse, line);
      } else {
        inst.Write(cmd);
        r := Ok(Text("Sent: " + cmd));
      }
    }

    method Identify() returns (r: Result<Value>)
      modifies inst
      ensures Queried(old(inst.State()), "*IDN", r)
    {
      r := Com("*IDN?");
      assert Wire("*IDN?") == "*IDN";
    }

    method Idn() returns (r: Result<Value>)
      modifies inst
      ensures Queried(old(inst.State()), "*IDN", r)
    {
      r := Identify();
    }

    method Save() returns (r: Result<Value>)
      modifies inst
      ensures Wrote(old(inst.State()), "*SAV", r)
    {
      r := Com("*SAV");
    }

    method Recall() returns (r: Result<Value>)
      modifies inst
      ensures Wrote(old(inst.State()), "*RCL", r)
    {
      r := Com("*RCL");
    }

    /** Number of saved settings. */
    method NSaved() returns (r: Result<Value>)
      modifies inst
      ensures Queried(old(inst.State()), "NSAV", r)
    {
      r := Com("NSAV?");
      assert Wire("NSAV?") == "NSAV";
    }

    method Howdy() returns (r: Result<Value>)
      modifies inst
      ensures Queried(old(inst.State()), "HOWDY", r)
    {
      r := Com("HOWDY?");
      assert Wire("HOWDY?") == "HOWDY";
    }

    method Restart() returns (r: Result<Value>)
      modifies inst
      ensures Wrote(old(inst.State()), "*RST", r)
    {
      r := Com("*RST");
    }

    method Error() returns (r: Result<Value>)
      modifies inst
      ensures Queried(old(inst.State()), "ERR", r)
    {
      r := Com("ERR?");
      assert Wire("ERR?") == "ERR";
    }

    method OutputOn() returns (r: Result<Value>)
      modifies inst
      ensures Wrote(old(inst.State()), "*ON", r)
    {
      r := Com("*ON");
    }

    method OutputOff() returns (r: Result<Value>)
      modifies inst
      ensures Wrote(old(inst.State()), "*OFF", r)
    {
      r := Com("*OFF");
    }

    method Cw() returns (r: Result<Value>)
      modifies inst
      ensures Wrote(old(inst.State()), "LAS", r)
    {
      r := Com("LAS");
    }

    method ContinuousWave() returns (r: Result<Value>)
      modifies inst
      ensures Wrote(old(inst.State()), "LAS", r)
    {
      r := Cw();
    }

    method TrigInternal() returns (r: Result<Value>)
      modifies inst
      ensures Wrote(old(inst.State()), "INT", r)
    {
      r := Com("INT");
    }

    method TrigExternal() returns (r: Result<Value>)
      modifies inst
      ensures Wrote(old(inst.State()), "EXT", r)
    {
      r := Com("EXT");
    }

    method StopLaser() returns (r: Result<Value>)
      modifies inst
      ensures Wrote(old(inst.State()), "STOP", r)
    {
      r := Com("STOP");
    }

    method Power(percentage: Arg := Str("?")) returns (r: Result<Value>)
      modifies inst
      ensures (r, inst.State()) == PowerStep(parse, percentage, old(inst.State()))
      ensures percentage.Int? ==> Wrote(old(inst.State()), "PWR" + Decimal(percentage.i), r)
      ensures percentage.Str? ==> r == Raised(TypeError) && inst.State() == old(inst.State())
    {
      var test := PowerTest(percentage);
      match test {
        case Raised(e) =>
          r := Raised(e);
        case Ok(valid) =>
          if valid {
            r := Com("PWR" + Format(percentage));
          } else {
            // the Exception is constructed and dropped
            r := Ok(None);
          }
      }
      if percentage.Int? {
        PowerIntegerWrites(parse, percentage.i, old(inst.State()));
      }
    }

    method Pow(percentage: Arg := Str("?")) returns (r: Result<Value>)
      modifies inst
      ensures (r, inst.State()) == PowerStep(parse, percentage, old(inst.State()))
    {
      r := Power(percentage);
    }

    method Prescaler(prescale: Arg := Str("?")) returns (r: Result<Value>)
      modifies inst
      ensures (r, inst.State()) == PrescalerStep(parse, prescale, old(inst.State()))
    {
      if prescale in PrescalerOptions {
        r := Com("PRE" + Format(prescale));
      } else {
        // the Exception is constructed and dropped
        r := Ok(None);
      }
    }

    method PulseWidth(width: Arg := Str("?")) returns (r: Result<Value>)
      modifies inst
      ensures (r, inst.State()) == PulseWidthStep(parse, width, old(inst.State()))
    {
      var test := PulseWidthTest(width);
      match test
      case Raised(e) =>
        r := Raised(e);
      case Ok(valid) =>
        if valid {
          r := Com("PRE" + Format(width));
        } else {
          // the Exception is constructed and dropped
          r := Ok(None);
        }
    }

    /** Building `options` calls `continuous_wave()` twice, once for "cw" and
        once for "continuous"; those entries hold the returned str, and
        calling a str raises TypeError. An unknown name raises KeyError,
        which is caught (the valid keys go to the console). */
    method Trigger(trigType: string) returns (r: Result<Value>)
      modifies inst
      ensures inst.replies == old(inst.replies)
      ensures trigType == "int" || trigType == "internal" ==>
        r == Ok(None) && inst.trace == old(inst.trace) + [Write("LAS"), Write("LAS"), Write("INT")]
      ensures trigType == "ext" || trigType == "external" ==>
        r == Ok(None) && inst.trace == old(inst.trace) + [Write("LAS"), Write("LAS"), Write("EXT")]
      ensures trigType == "cw" || trigType == "continuous" ==>
        r == Raised(TypeError) && inst.trace == old(inst.trace) + [Write("LAS"), Write("LAS")]
      ensures trigType !in {"int", "internal", "ext", "external", "cw", "continuous"} ==>
        r == Ok(None) && inst.trace == old(inst.trace) + [Write("LAS"), Write("LAS")]
    {
      var cw := ContinuousWave();
      var continuous := ContinuousWave();
      var options := map["int" := Bound(Internal), "internal" := Bound(Internal),
                         "ext" := Bound(External), "external" := Bound(External),
                         "cw" := Evaluated(cw.value), "continuous" := Evaluated(continuous.value)];
      if trigType !in options {
        return Ok(None);
      }
      match options[trigType]
      case Bound(Internal) =>
        var _ := TrigInternal();
        r := Ok(None);
      case Bound(External) =>
        var _ := TrigExternal();
        r := Ok(None);
      case Evaluated(_) =>
        r := Raised(TypeError);
    }

    /** Continuous-wave mode, the power, then output on; a failing step
        leaves the earlier ones in place. */
    method QuickCw(power: Arg) returns (r: Result<Value>)
      modifies inst
      ensures inst.replies == old(inst.replies)
      ensures power.Int? ==>
        r == Ok(None) &&
        inst.trace == old(inst.trace) + [Write("LAS"), Write("PWR" + Decimal(power.i)), Write("*ON")]
      ensures power.Str? ==> r == Raised(TypeError) && inst.trace == old(inst.trace) + [Write("LAS")]
    {
      var _ := ContinuousWave();
      var p := Power(power);
      if p.Raised? {
        return Raised(p.exc);
      }
      var _ := OutputOn();
      r := Ok(None);
    }

    /** The inner tests compare the list `options` itself with strings and
        are never true, and the `Exception` for an unknown `trig` is dropped:
        `trig`, `prescale` and `pulseWidth` change nothing, and only the power
        and output-on commands are sent. */
    method QuickStart(power: Arg, trig: string := "", prescale: Arg := Int(1024), pulseWidth: Arg := Int(255))
      returns (r: Result<Value>)
      modifies inst
      ensures inst.replies == old(inst.replies)
      ensures power.Int? ==>
        r == Ok(None) && inst.trace == old(inst.trace) + [Write("PWR" + Decimal(power.i)), Write("*ON")]
      ensures power.Str? ==> r == Raised(TypeError) && inst.trace == old(inst.trace)
    {
      var p := Power(power);
      if p.Raised? {
        return Raised(p.exc);
      }
      var _ := OutputOn();
      r := Ok(None);
    }

    /** `power()` with its default '?' orders a str against 0 and raises, so
        the prescaler and pulse-width queries and the dictionary are never
        reached. */
    method GetParameters() returns (r: Result<map<string, Value>>)
      modifies inst
      ensures r == Raised(TypeError) && inst.State() == old(inst.State())
    {
      var power := Power();
      match power
      case Raised(e) =>
        r := Raised(e);
    }

    /** Applies each keyword argument in call order through the `commands`
        table, skipping unknown names. Only sequences with distinct keys
        correspond to Python calls. */
    method SetParameters(kwargs: seq<(string, Arg)>) returns (r: Result<Value>)
      modifies inst
      ensures (r, inst.State()) == SetParametersStep(parse, kwargs, old(inst.State()))
    {
      var commands := SetterTable;
      var i := 0;
      while i < |kwargs|
        invariant 0 <= i <= |kwargs|
        invariant SetParametersStep(parse, kwargs, old(inst.State())) ==
                  SetParametersStep(parse, kwargs[i..], inst.State())
        decreases |kwargs| - i
      {
        assert kwargs[i..][0] == kwargs[i] && kwargs[i..][1..] == kwargs[i + 1..];
        var (key, value) := kwargs[i];
        ghost var before := inst.State();
        if key in commands {
          var result: Result<Value>;
          match commands[key] {
            case SetPower =>
              result := Power(value);
            case SetPrescale =>
              result := Prescaler(value);
            case SetPulseWidth =>
              result := PulseWidth(value);
          }
          assert (result, inst.State()) == SetStep(parse, commands[key], value, before);
          if result.Raised? {
            return Raised(result.exc);
          }
        }
        assert SetParametersStep(parse, kwargs[i..], before) ==
               SetParametersStep(parse, kwargs[i + 1..], inst.State());
        i := i + 1;
      }
      r := Ok(None);
    }
  }
}
