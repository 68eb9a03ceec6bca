/** Properties of the driver's operations, stated over the step functions. */
module Properties {
  import opened Values
  import opened Commands
  import opened Transport
  import opened Steps

  /** `_com` on an empty command fails at `cmd[-1]` before any I/O. */
  lemma EmptyCommandRaises(parse: string -> Parsed, l: Link)
    ensures ComStep(parse, "", l) == (Raised(IndexError), l)
  {
  }

  /** A command not ending in the marker is written once, unchanged, and
      acknowledged locally with "Sent: " followed by exactly that command. */
  lemma WriteAcknowledged(parse: string -> Parsed, cmd: string, l: Link)
    requires cmd != [] && cmd[|cmd| - 1] != '?'
    ensures ComStep(parse, cmd, l) == (Ok(Text("Sent: " + cmd)), Link(l.trace + [Write(cmd)], l.replies))
  {
  }

  /** Every query, whatever its mnemonic, reaches the transport without its
      trailing marker and consumes one reply line (when there is one). */
  lemma EveryQueryStripped(parse: string -> Parsed, cmd: string, l: Link)
    requires IsQuery(cmd)
    ensures ComStep(parse, cmd, l).1.trace == l.trace + [Query(cmd[..|cmd| - 1])]
    ensures ComStep(parse, cmd, l).1.replies == if l.replies == [] then [] else l.replies[1..]
  {
  }

  /** A query returns the reply's number when the reply parses as one and
      the reply text otherwise; a reply never makes it raise. Only a missing
      reply does. */
  lemma QueryResult(parse: string -> Parsed, cmd: string, l: Link)
    requires IsQuery(cmd)
    ensures l.replies == [] ==> ComStep(parse, cmd, l).0 == Raised(Timeout)
    ensures l.replies != [] && parse(l.replies[0]).Numeric? ==>
      ComStep(parse, cmd, l).0 == Ok(Number(parse(l.replies[0]).x))
    ensures l.replies != [] && parse(l.replies[0]).NotNumeric? ==>
      ComStep(parse, cmd, l).0 == Ok(Text(l.replies[0]))
  {
  }

  /** For every int, `power` writes "PWR" and the int's decimal text: the
      range test never rejects. */
  lemma PowerIntegerWrites(parse: string -> Parsed, p: int, l: Link)
    ensures PowerStep(parse, Int(p), l) ==
      (Ok(Text("Sent: PWR" + Decimal(p))), Link(l.trace + [Write("PWR" + Decimal(p))], l.replies))
  {
    var cmd := "PWR" + Decimal(p);
    assert cmd[|cmd| - 1] == Decimal(p)[|Decimal(p)| - 1];
    assert "Sent: " + cmd == "Sent: PWR" + Decimal(p);
  }

  /** Any str, the default '?' included, raises TypeError before anything is sent. */
  lemma PowerTextRaises(parse: string -> Parsed, s: string, l: Link)
    ensures PowerStep(parse, Str(s), l) == (Raised(TypeError), l)
  {
  }

  /** Distinct power levels give distinct commands. */
  lemma PowerCommandDeterminesLevel(p: int, q: int)
    requires "PWR" + Decimal(p) == "PWR" + Decimal(q)
    ensures p == q
  {
    assert ("PWR" + Decimal(p))[3..] == Decimal(p);
    assert ("PWR" + Decimal(q))[3..] == Decimal(q);
    DecimalRoundTrip(p);
    DecimalRoundTrip(q);
  }

  /** `prescaler` sends something exactly when its argument is one of the
      listed divisors or '?'. */
  lemma PrescalerSendsOnlyListed(parse: string -> Parsed, prescale: Arg, l: Link)
    ensures PrescalerStep(parse, prescale, l).1.trace != l.trace <==> prescale in PrescalerOptions
  {
  }

  /** An unlisted value returns None with nothing sent: the `Exception` is
      never raised. */
  lemma PrescalerUnlistedIgnored(parse: string -> Parsed, prescale: Arg, l: Link)
    requires prescale !in PrescalerOptions
    ensures PrescalerStep(parse, prescale, l) == (Ok(None), l)
  {
  }

  /** A listed divisor is written after "PRE" and acknowledged. */
  lemma PrescalerListedWrites(parse: string -> Parsed, d: int, l: Link)
    requires d == 1 || d == 8 || d == 64 || d == 256 || d == 1024
    ensures PrescalerStep(parse, Int(d), l) ==
      (Ok(Text("Sent: PRE" + Decimal(d))), Link(l.trace + [Write("PRE" + Decimal(d))], l.replies))
  {
    assert Int(d) in PrescalerOptions;
    var cmd := "PRE" + Decimal(d);
    assert cmd[|cmd| - 1] == Decimal(d)[|Decimal(d)| - 1];
    assert "Sent: " + cmd == "Sent: PRE" + Decimal(d);
  }

  /** `prescaler('?')` reaches the instrument as the query "PRE". */
  lemma PrescalerQuerySentBare(parse: string -> Parsed, l: Link)
    ensures PrescalerStep(parse, Str("?"), l).1.trace == l.trace + [Query("PRE")]
  {
    assert Wire("PRE?") == "PRE";
  }

  /** `pulse_width` writes "PRE" and the int for every int in 0..255. */
  lemma PulseWidthInRangeWrites(parse: string -> Parsed, w: int, l: Link)
    requires 0 <= w <= 255
    ensures PulseWidthStep(parse, Int(w), l) ==
      (Ok(Text("Sent: PRE" + Decimal(w))), Link(l.trace + [Write("PRE" + Decimal(w))], l.replies))
  {
    var cmd := "PRE" + Decimal(w);
    assert cmd[|cmd| - 1] == Decimal(w)[|Decimal(w)| - 1];
    assert "Sent: " + cmd == "Sent: PRE" + Decimal(w);
  }

  /** An int outside 0..255 returns None and sends nothing: the
      `Exception` is never raised. */
  lemma PulseWidthOutOfRangeIgnored(parse: string -> Parsed, w: int, l: Link)
    requires w < 0 || 255 < w
    ensures PulseWidthStep(parse, Int(w), l) == (Ok(None), l)
  {
  }

  /** Any str, the default '?' included, raises TypeError before anything is sent. */
  lemma PulseWidthTextRaises(parse: string -> Parsed, s: string, l: Link)
    ensures PulseWidthStep(parse, Str(s), l) == (Raised(TypeError), l)
  {
  }

  /** For the divisors 1, 8 and 64 the instrument cannot tell a pulse-width
      setting from a prescaler setting: both send the same write. */
  lemma PulseWidthSharesPrescalerMnemonic(parse: string -> Parsed, w: int, l: Link)
    requires w == 1 || w == 8 || w == 64
    ensures PulseWidthStep(parse, Int(w), l) == PrescalerStep(parse, Int(w), l)
  {
    assert Int(w) in PrescalerOptions;
  }

  /** The keyword arguments are applied in order: a call with `first`
      followed by `rest` is the call with `first`, then, unless it raised,
      the call with `rest` from the state it left. */
  lemma {:induction false} SetParametersInOrder(parse: string -> Parsed, first: seq<(string, Arg)>,
                                                rest: seq<(string, Arg)>, l: Link)
    ensures SetParametersStep(parse, first + rest, l) ==
      var (r, l') := SetParametersStep(parse, first, l);
      if r.Raised? then (r, l') else SetParametersStep(parse, rest, l')
    decreases |first|
  {
    if first != [] {
      assert (first + rest)[0] == first[0];
      assert (first + rest)[1..] == first[1..] + rest;
      var (key, value) := first[0];
      if key !in SetterTable {
        SetParametersInOrder(parse, first[1..], rest, l);
      } else {
        var (r, l') := SetStep(parse, SetterTable[key], value, l);
        if !r.Raised? {
          SetParametersInOrder(parse, first[1..], rest, l');
        }
      }
    } else {
      assert first + rest == rest;
    }
  }

  /** The keyword arguments whose names `set_parameters` knows. */
  function Recognized(kwargs: seq<(string, Arg)>): (known: seq<(string, Arg)>)
    ensures forall i :: 0 <= i < |known| ==> known[i].0 in SetterTable
    ensures |known| <= |kwargs|
  {
    if kwargs == [] then []
    else if kwargs[0].0 in SetterTable then [kwargs[0]] + Recognized(kwargs[1..])
    else Recognized(kwargs[1..])
  }

  /** Unknown names are skipped without a trace: the call behaves as if
      only the recognised arguments had been passed. */
  lemma {:induction false} SetParametersSkipsUnknown(parse: string -> Parsed, kwargs: seq<(string, Arg)>, l: Link)
    ensures SetParametersStep(parse, kwargs, l) == SetParametersStep(parse, Recognized(kwargs), l)
    decreases |kwargs|
  {
    if kwargs != [] {
      var (key, value) := kwargs[0];
      if key !in SetterTable {
        SetParametersSkipsUnknown(parse, kwargs[1..], l);
      } else {
        var known := Recognized(kwargs);
        assert known[0] == kwargs[0] && known[1..] == Recognized(kwargs[1..]);
        var (r, l') := SetStep(parse, SetterTable[key], value, l);
        if !r.Raised? {
          SetParametersSkipsUnknown(parse, kwargs[1..], l');
        }
      }
    }
  }

  /** With no recognised name at all the call returns None and leaves the
      resource untouched. */
  lemma {:induction false} SetParametersUnknownOnly(parse: string -> Parsed, kwargs: seq<(string, Arg)>, l: Link)
    requires forall i :: 0 <= i < |kwargs| ==> kwargs[i].0 !in SetterTable
    ensures SetParametersStep(parse, kwargs, l) == (Ok(None), l)
    decreases |kwargs|
  {
    if kwargs != [] {
      SetParametersUnknownOnly(parse, kwargs[1..], l);
    }
  }

  /** A single setter only appends to the trace. */
  lemma SetStepExtendsTrace(parse: string -> Parsed, setter: Setter, value: Arg, l: Link)
    ensures l.trace <= SetStep(parse, setter, value, l).1.trace
  {
  }

  /** `set_parameters` never takes back an event: the trace after the call,
      raised or not, extends the trace before it. */
  lemma {:induction false} SetParametersExtendsTrace(parse: string -> Parsed, kwargs: seq<(string, Arg)>, l: Link)
    ensures l.trace <= SetParametersStep(parse, kwargs, l).1.trace
    decreases |kwargs|
  {
    if kwargs != [] {
      var (key, value) := kwargs[0];
      if key !in SetterTable {
        SetParametersExtendsTrace(parse, kwargs[1..], l);
      } else {
        var (r, l') := SetStep(parse, SetterTable[key], value, l);
        SetStepExtendsTrace(parse, SetterTable[key], value, l);
        if !r.Raised? {
          SetParametersExtendsTrace(parse, kwargs[1..], l');
        }
      }
    }
  }

  /** No rollback: when the settings in `first` succeed and a later one in
      `rest` raises, the whole call raises that exception, and every event
      `first` produced stays in the trace. */
  lemma SetParametersNoRollback(parse: string -> Parsed, first: seq<(string, Arg)>,
                                rest: seq<(string, Arg)>, l: Link)
    requires SetParametersStep(parse, first, l).0.Ok?
    requires SetParametersStep(parse, rest, SetParametersStep(parse, first, l).1).0.Raised?
    ensures SetParametersStep(parse, first + rest, l).0 ==
            SetParametersStep(parse, rest, SetParametersStep(parse, first, l).1).0
    ensures SetParametersStep(parse, first, l).1.trace <= SetParametersStep(parse, first + rest, l).1.trace
  {
    var l' := SetParametersStep(parse, first, l).1;
    SetParametersInOrder(parse, first, rest, l);
    SetParametersExtendsTrace(parse, rest, l');
  }

  /** An instance of the above: an accepted power setting is written even
      when the following pulse width raises. */
  lemma SetParametersNoRollbackInstance(parse: string -> Parsed, p: int, s: string, l: Link)
    ensures SetParametersStep(parse, [("power", Int(p)), ("pulse_width", Str(s))], l) ==
      (Raised(TypeError), Link(l.trace + [Write("PWR" + Decimal(p))], l.replies))
  {
    var kwargs := [("power", Int(p)), ("pulse_width", Str(s))];
    PowerIntegerWrites(parse, p, l);
    assert kwargs[1..] == [("pulse_width", Str(s))];
  }
}
