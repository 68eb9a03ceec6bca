# DLnSec laser driver: command formation and dispatch

A model of the `DLnSec` class, the Python driver for the Swabian Instruments
DLnSec laser. Each driver method builds an ASCII command and passes it to
`_com`. `_com` treats a command ending in `?` as a query and anything else as
a write. A query is sent with its marker removed, and the reply is returned
as a float when it parses as one and as text otherwise. A write gets the
local acknowledgement `"Sent: " + cmd`.

The instrument resource is a `Transport.Resource` object. It records every
call made on it as an event, `Write(cmd)` or `Query(cmd)`, and serves query
replies from a queue of lines the instrument will send. A query with no line
left raises `Timeout`, which stands for the transport's read timeout.
`float()` is a parameter `parse` given to the driver's constructor.

Modules:

- `Values` (values.dfy): the Python arguments (`Int` or `Str`), the return
  values (`None`, `Number`, `Text`), and the exceptions that escape.
- `Commands` (commands.dfy): pure command text. This covers `str(int)`,
  `"{}".format`, the query test, the marker-stripping test, the reply
  coercion, and the argument tests of `power` and `pulse_width`.
- `Transport` (transport.dfy): the event trace, the reply queue and the
  `Resource` class.
- `Steps` (steps.dfy): each state-changing operation as a function from the
  resource state before the call to the result and the state after it.
- `Properties` (properties.dfy): lemmas about those functions.
- `Driver` (driver.dfy): the class `DLnSec`. Its methods mirror the Python
  methods one by one, and each is proved against `Steps` or states its
  events directly.

The model follows the code as written, under Python 3 semantics:

- `cmd == "*IDN?" or "HOWDY?"` is always true, so every query loses its
  marker. For example, `error()` sends `ERR` and `prescaler('?')` sends `PRE`.
- `percentage > 0 or percentage < 100` holds for every int. A str, including
  the default `'?'`, raises `TypeError` when it is compared with `0`.
- `pulse_width` reuses the mnemonic `PRE`. For `'?'`, it raises `TypeError`
  at `0 <= width` before the `width == '?'` test is reached.
- In `prescaler` and `pulse_width`, the exception built for an invalid int
  is never raised: the call returns None and sends nothing. In `quick_start`,
  the one built for an unknown `trig` is dropped too, and the call goes on to
  send the power and `*ON`.
- Building the dictionary in `trigger` calls `continuous_wave()` twice.
  Selecting `cw` or `continuous` then calls the returned str and raises
  `TypeError`.
- The inner tests of `quick_start` compare the list `options` with strings,
  so they are never true.
- `get_parameters()` always raises `TypeError`, in its first call, `power()`.
- Six wrappers use a starred mnemonic: `identify()` sends the query `*IDN`
  (its marker stripped), and `save`, `recall`, `restart`, `output_on` and
  `output_off` write `*SAV`, `*RCL`, `*RST`, `*ON` and `*OFF`. The other
  wrappers use bare mnemonics.

## Model

| member | source | states |
|---|---|---|
| `Commands.Decimal` | swabian_dlnsec.py:65 | `str(n)` is non-empty, ends in a digit (so never in `?`), starts with `-` exactly when `n` is negative, is all digits after that sign, and has no leading zero unless `n` is 0 |
| `Commands.DecimalRoundTrip` | swabian_dlnsec.py:65 | the decimal text of every int reads back as the same int |
| `Commands.Format` | swabian_dlnsec.py:65 | `"{}".format(a)` keeps a str unchanged; for an int it is text that does not end in `?` and reads back as the int |
| `Commands.Wire` | swabian_dlnsec.py:152-155 | the text sent for a query is the command minus its last character, for every query and not only `*IDN?` and `HOWDY?`; a non-query is sent unchanged |
| `Commands.PowerTest` | swabian_dlnsec.py:64 | the power range test accepts every int; a str raises TypeError |
| `Commands.PulseWidthTest` | swabian_dlnsec.py:81 | an int passes exactly when it is in 0..255; every str, `'?'` included, raises TypeError |
| `Commands.Coerce` | swabian_dlnsec.py:157-160 | a reply becomes a Number exactly when it parses, carrying the parsed value; otherwise it is the reply text unchanged, and never None |
| `Transport.Resource.Write` | swabian_dlnsec.py:162 | a write appends one `Write(cmd)` event and consumes no reply |
| `Transport.Resource.Query` | swabian_dlnsec.py:156 | a query appends one `Query(cmd)` event and returns the next reply line, which it consumes; with none left it raises Timeout |
| `Driver.DLnSec.constructor` | swabian_dlnsec.py:5-11 | the driver keeps the resource it talks to and the verbosity flag |
| `Driver.DLnSec.Com` | swabian_dlnsec.py:149-163 | the result and the new resource state are those of `Steps.ComStep` for the command and the old state |
| `Properties.EmptyCommandRaises` | swabian_dlnsec.py:152 | an empty command raises IndexError and sends nothing |
| `Properties.WriteAcknowledged` | swabian_dlnsec.py:161-163 | a non-empty command not ending in `?` yields exactly one `Write(cmd)` event and returns exactly `"Sent: " + cmd` |
| `Properties.EveryQueryStripped` | swabian_dlnsec.py:152-156 | every query yields one `Query` event carrying the command without its trailing `?`, and consumes one reply line |
| `Properties.QueryResult` | swabian_dlnsec.py:156-160 | a query returns the reply's number when it parses, the reply text unchanged when it does not, and raises only when no reply arrives |
| `Driver.DLnSec.Identify` | swabian_dlnsec.py:17-18 | sends the query `*IDN` and returns the coerced reply |
| `Driver.DLnSec.Idn` | swabian_dlnsec.py:20-21 | same as `Identify` |
| `Driver.DLnSec.Save` | swabian_dlnsec.py:23-24 | writes `*SAV` and returns `"Sent: *SAV"` |
| `Driver.DLnSec.Recall` | swabian_dlnsec.py:26-27 | writes `*RCL` and returns `"Sent: *RCL"` |
| `Driver.DLnSec.NSaved` | swabian_dlnsec.py:29-31 | sends the query `NSAV`, without its marker, and returns the coerced reply |
| `Driver.DLnSec.Howdy` | swabian_dlnsec.py:33-34 | sends the query `HOWDY` and returns the coerced reply |
| `Driver.DLnSec.Restart` | swabian_dlnsec.py:36-37 | writes `*RST` and returns `"Sent: *RST"` |
| `Driver.DLnSec.Error` | swabian_dlnsec.py:39-40 | sends the query `ERR`, without its marker, and returns the coerced reply |
| `Driver.DLnSec.OutputOn` | swabian_dlnsec.py:42-43 | writes `*ON` and returns `"Sent: *ON"` |
| `Driver.DLnSec.OutputOff` | swabian_dlnsec.py:45-46 | writes `*OFF` and returns `"Sent: *OFF"` |
| `Driver.DLnSec.Cw` | swabian_dlnsec.py:48-49 | writes `LAS` and returns `"Sent: LAS"` |
| `Driver.DLnSec.ContinuousWave` | swabian_dlnsec.py:51-52 | same as `Cw` |
| `Driver.DLnSec.TrigInternal` | swabian_dlnsec.py:54-55 | writes `INT` and returns `"Sent: INT"` |
| `Driver.DLnSec.TrigExternal` | swabian_dlnsec.py:57-58 | writes `EXT` and returns `"Sent: EXT"` |
| `Driver.DLnSec.StopLaser` | swabian_dlnsec.py:60-61 | writes `STOP` and returns `"Sent: STOP"` |
| `Driver.DLnSec.Power` | swabian_dlnsec.py:63-67 | follows `Steps.PowerStep`; every int `p` writes `"PWR" + str(p)` and is acknowledged; a str raises TypeError with nothing sent |
| `Driver.DLnSec.Pow` | swabian_dlnsec.py:69-70 | same as `Power` |
| `Properties.PowerIntegerWrites` | swabian_dlnsec.py:63-65 | for every int `p`, `power(p)` yields exactly `Write("PWR" + str(p))` and returns its acknowledgement |
| `Properties.PowerTextRaises` | swabian_dlnsec.py:63-64 | `power` with any str, the default `'?'` included, raises TypeError and sends nothing |
| `Properties.PowerCommandDeterminesLevel` | swabian_dlnsec.py:65 | two power commands are equal only when their levels are equal |
| `Driver.DLnSec.Prescaler` | swabian_dlnsec.py:72-78 | the result and new state are those of `Steps.PrescalerStep` |
| `Properties.PrescalerSendsOnlyListed` | swabian_dlnsec.py:72-78 | the trace changes exactly when the argument is one of 1, 8, 64, 256, 1024 or `'?'` |
| `Properties.PrescalerUnlistedIgnored` | swabian_dlnsec.py:72-78 | any other argument returns None and sends nothing |
| `Properties.PrescalerListedWrites` | swabian_dlnsec.py:73-75 | a listed divisor `d` yields exactly `Write("PRE" + str(d))` and returns its acknowledgement |
| `Properties.PrescalerQuerySentBare` | swabian_dlnsec.py:73-75 | `prescaler('?')` yields the event `Query("PRE")`, without the marker |
| `Driver.DLnSec.PulseWidth` | swabian_dlnsec.py:80-86 | the result and new state are those of `Steps.PulseWidthStep` |
| `Properties.PulseWidthInRangeWrites` | swabian_dlnsec.py:80-82 | every int in 0..255 yields exactly `Write("PRE" + str(w))`, under the prescaler's mnemonic |
| `Properties.PulseWidthOutOfRangeIgnored` | swabian_dlnsec.py:80-86 | an int outside 0..255 returns None and sends nothing |
| `Properties.PulseWidthTextRaises` | swabian_dlnsec.py:80-81 | any str, the default `'?'` included, raises TypeError and sends nothing |
| `Properties.PulseWidthSharesPrescalerMnemonic` | swabian_dlnsec.py:72-86 | for 1, 8 and 64, `pulse_width(w)` and `prescaler(w)` have the same effect and result |
| `Driver.DLnSec.Trigger` | swabian_dlnsec.py:91-101 | always writes `LAS` twice first; then `int`/`internal` writes `INT`, `ext`/`external` writes `EXT`, both returning None; `cw`/`continuous` raises TypeError; any other name returns None with nothing more sent |
| `Driver.DLnSec.QuickCw` | swabian_dlnsec.py:103-106 | for an int power, writes exactly `LAS`, `PWR<p>`, `*ON` in that order; for a str, raises TypeError after `LAS` alone |
| `Driver.DLnSec.QuickStart` | swabian_dlnsec.py:108-124 | whatever `trig`, `prescale` and `pulseWidth` are, an int power writes exactly `PWR<p>` then `*ON`; a str raises TypeError with nothing sent |
| `Driver.DLnSec.GetParameters` | swabian_dlnsec.py:126-132 | always raises TypeError and leaves the resource unchanged |
| `Driver.DLnSec.SetParameters` | swabian_dlnsec.py:134-144 | the result and new state are those of `Steps.SetParametersStep` over the keyword arguments in call order |
| `Properties.SetParametersInOrder` | swabian_dlnsec.py:140-144 | the arguments are applied left to right: a split call is the first part, then the rest from the state it left, unless the first part raised |
| `Properties.SetParametersSkipsUnknown` | swabian_dlnsec.py:134-144 | the call behaves exactly as if only the arguments named `power`, `prescale` or `pulse_width` had been passed |
| `Properties.SetParametersUnknownOnly` | swabian_dlnsec.py:140-144 | with no recognised name the call returns None and the trace is unchanged |
| `Properties.SetParametersExtendsTrace` | swabian_dlnsec.py:140-144 | whatever the arguments, and whether or not the call raises, the trace after `set_parameters` extends the trace before it |
| `Properties.SetParametersNoRollback` | swabian_dlnsec.py:140-144 | when the settings in `first` succeed and a later one in `rest` raises, the whole call raises that exception and keeps every event `first` produced |
| `Properties.SetParametersNoRollbackInstance` | swabian_dlnsec.py:140-144 | for `power=p, pulse_width=s` with a str `s`, the call raises TypeError after writing `PWR<p>` |

## Left out

- Opening the resource (`open_resource`, `read_termination`, `timeout`): the constructor takes an already open `Resource`. Serial I/O belongs to the external instrument library.
- Parsing floats: `float()` on a reply is the constructor parameter `parse`. The model does not say which texts parse.
- Console output: the `verbatim` echo in `_com` and the list of valid keys printed by `trigger`. Neither affects results or the trace.
- The messages of the exceptions that are built but never raised. Only the fact that nothing is sent and None is returned is modelled.
- The `__main__` demonstration script, because it drives real hardware.
- Arguments other than ints and strs (floats, bools, other objects), and `trigger` keys other than strs.
- Transport failures on writes: a write always succeeds in the model. A query fails only when no reply line is left.
- Driver.DLnSec.QuickStart: the bodies of its three inner branches are not written out. Their tests compare the list `options` with a str, which is always False in Python, so the branches never run and are omitted. The `trig in options` test only chooses between them and the dropped `Exception`, so it has no effect either.
- Driver.DLnSec.GetParameters: the prescaler and pulse-width queries and the dictionary after `power()` are not written out. `power()` always raises first, so these steps are never reached.
- Commands.Decimal: ints are formatted without the interpreter's digit limit. From Python 3.11 on, `str()` of an int with more than 4300 digits raises ValueError by default, so such a `power(p)` raises and sends nothing. Properties.PowerIntegerWrites, Driver.DLnSec.Power, Driver.DLnSec.QuickCw, Driver.DLnSec.QuickStart and Driver.DLnSec.SetParameters write `PWR` and the digits for every int.
- Values.Number: a parsed reply is a real. NaN, the infinities and -0.0, which `float()` can return, are not represented, so `parse` cannot give the float Python would return for replies such as `nan`, `inf` or `-0.0`.
