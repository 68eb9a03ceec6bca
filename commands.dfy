/** Command text: how the driver formats arguments, recognises queries and
    checks its arguments before anything is sent. */
module Commands {
  import opened Values

  predicate IsDigit(c: char) {
    '0' <= c <= '9'
  }

  function DigitChar(d: nat): (c: char)
    requires d < 10
    ensures IsDigit(c) && c as int - '0' as int == d
  {
    ('0' as int + d) as char
  }

  /** The decimal digits of `n`, most significant first. */
  function Digits(n: nat): (s: string)
    ensures |s| > 0
    ensures forall i :: 0 <= i < |s| ==> IsDigit(s[i])
    ensures s[0] != '0' || n == 0
    decreases n
  {
    if n < 10 then [DigitChar(n)] else Digits(n / 10) + [DigitChar(n % 10)]
  }

  /** `str(n)`, which `"{}".format(n)` produces for an int. */
  function Decimal(n: int): (s: string)
    ensures |s| > 0 && IsDigit(s[|s| - 1])
    ensures s[0] == '-' <==> n < 0
    ensures var start := if n < 0 then 1 else 0;
      start < |s| && (s[start] != '0' || n == 0) &&
      forall i :: start <= i < |s| ==> IsDigit(s[i])
  {
    if n < 0 then "-" + Digits(-n) else Digits(n)
  }

  /** The number a string of decimal digits denotes. */
  function DigitsValue(s: string): (n: int)
  {
    if s == [] then 0 else DigitsValue(s[..|s| - 1]) * 10 + (s[|s| - 1] as int - '0' as int)
  }

  /** Reads an optionally signed decimal back, as the instrument must to
      recover a parameter from a command. */
  function ParseDecimal(s: string): (n: int)
  {
    if |s| > 0 && s[0] == '-' then -DigitsValue(s[1..]) else DigitsValue(s)
  }

  lemma {:induction false} DigitsRoundTrip(n: nat)
    ensures DigitsValue(Digits(n)) == n
    decreases n
  {
    if n >= 10 {
      DigitsRoundTrip(n / 10);
      var s := Digits(n);
      assert s[..|s| - 1] == Digits(n / 10);
    }
  }

  /** Formatting an int loses nothing: the text reads back as the same int. */
  lemma DecimalRoundTrip(n: int)
    ensures ParseDecimal(Decimal(n)) == n
  {
    if n < 0 {
      DigitsRoundTrip(-n);
      assert Decimal(n)[1..] == Digits(-n);
    } else {
      DigitsRoundTrip(n);
    }
  }

  /** `"{}".format(a)`: an int's decimal text, or a str unchanged. */
  function Format(a: Arg): (s: string)
    ensures a.Str? ==> s == a.s
    ensures a.Int? ==> |s| > 0 && s[|s| - 1] != '?' && ParseDecimal(s) == a.i
  {
    match a
    case Int(i) => DecimalRoundTrip(i); Decimal(i)
    case Str(t) => t
  }

  /** `cmd[-1] == '?'` for a non-empty command: the command is a query. */
  predicate IsQuery(cmd: string) {
    |cmd| > 0 && cmd[|cmd| - 1] == '?'
  }

  /** Python truthiness of a str. */
  predicate Truthy(s: string) {
    s != ""
  }

  /** The test `cmd == "*IDN?" or "HOWDY?"` guarding the removal of the
      marker. Its right operand is the bare literal, not a comparison. */
  predicate StripTest(cmd: string) {
    cmd == "*IDN?" || Truthy("HOWDY?")
  }

  /** The text `_com` hands to the transport. Because StripTest always
      holds, every query loses its marker, not only `*IDN?` and `HOWDY?`. */
  function Wire(cmd: string): (w: string)
    ensures IsQuery(cmd) ==> w == cmd[..|cmd| - 1] && |w| + 1 == |cmd|
    ensures !IsQuery(cmd) ==> w == cmd
  {
    if IsQuery(cmd) && StripTest(cmd) then cmd[..|cmd| - 1] else cmd
  }

  /** `float(value)`, falling back to the reply text when it does not parse. */
  function Coerce(parse: string -> Parsed, reply: string): (v: Value)
    ensures v != None
    ensures v.Number? <==> parse(reply).Numeric?
    ensures v.Number? ==> v.x == parse(reply).x
    ensures v.Text? ==> v.s == reply
  {
    match parse(reply)
    case Numeric(x) => Number(x)
    case NotNumeric => Text(reply)
  }

  /** The test `percentage > 0 or percentage < 100 or percentage == '?'`.
      Every int passes; a str cannot be ordered against 0. */
  function PowerTest(percentage: Arg): (r: Result<bool>)
    ensures percentage.Int? ==> r == Ok(true)
    ensures percentage.Str? ==> r == Raised(TypeError)
  {
    match percentage
    case Int(p) => Ok(p > 0 || p < 100 || percentage == Str("?"))
    case Str(_) => Raised(TypeError)
  }

  /** The list `options` of `prescaler`. */
  const PrescalerOptions: seq<Arg> := [Int(1), Int(8), Int(64), Int(256), Int(1024), Str("?")]

  /** The test `0 <= width <= 255 or width == '?'`. The chained comparison
      is evaluated first, so even '?' raises before `width == '?'` is reached. */
  function PulseWidthTest(width: Arg): (r: Result<bool>)
    ensures width.Int? ==> r == Ok(0 <= width.i <= 255)
    ensures width.Str? ==> r == Raised(TypeError)
  {
    match width
    case Int(w) => Ok((0 <= w && w <= 255) || width == Str("?"))
    case Str(_) => Raised(TypeError)
  }
}
