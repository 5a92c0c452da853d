# pixtendtool command-line core, in Dafny

pixtendtool is the command-line front end to the PiXtend I/O board. One run
goes through these steps:
- It reads a flag and its values from the command line.
- It picks the first branch of an `if`/`else if` chain in `main` whose test on
  `(argv[1], argc)` holds.
- It clamps the numeric values into range with `limitPar`, printing a warning
  for each value it clamps.
- It runs the branch's body, whose library use and output vary by branch:
  - The register branches call `Spi_Setup` and then one register call (`-ucr`
    makes only the reset call), and print one confirmation or reading.
  - `-sr` opens the serial port, or prints one error line when that fails,
    and then prints what it receives. It runs until SIGINT, which exits with
    the signal number, or until `serialDataAvail` fails, which prints three
    more lines (the error, flushed, closed) and returns 0.
  - `-swc` and `-sws` open, write, flush and close the serial port, and
    print four lines; when the port fails to open they print one error line.
  - `-shw rs232` makes only the `Change_Serial_Mode` call; `-h`, `-shw rs485`
    and an unknown `-shw` mode make no library call.
  - The wrong-command branch makes no library call and prints the echo of the
    command line followed by the help text.
- It exits with status 0.

This project models that decision and the small computations around it:
- the clamp;
- the first-match chain;
- the digital-input bit test of `-di BIT`;
- the version split of `-ucv`;
- the sensor-type choice and DHT11 high byte of `-tr`/`-hr`;
- the `-sws` word join;
- the wrong-command echo.

What the library returns in a run is an input (`Tool.Hardware`).

Modules (one file each):

- `LimitPar` (`limitpar.dfy`): `limitPar` as a method with the caller's
  variable as an out-parameter, specified by the function `Limit`.
- `Bits` (`bits.dfy`): C's `&`, `>>`, `uint8_t` and `uint16_t` conversions on
  unbounded integers, and the bit test, version split and DHT11 shift built on
  them.
- `ArgText` (`argtext.dfy`): the two loops over `argv`, the `-sws` join and the
  wrong-command echo, as methods proved against the functions `Joined` and
  `Echoed`.
- `CommandLine` (`dispatch.dfy`): `main`'s decision as a pure function
  `Dispatch`. `Select` is the chain of tests in source order. `RuleOf` is the
  same chain written as a table of rules: flag, accepted word counts and
  clamped parameters. `SelectIsFirstMatch` proves that the chain takes the
  first rule that accepts.
- `Tool` (`tool.dfy`): what a run prints (`Transcript`) and the method `Run`.
  `Run` plays `main`: it uses the two loops and returns 0.

`argv` is a sequence of `Arg(text, num)`, where `num` is what `atoi` made of
the word.

The C semantics are written out:
- Conversion to `uint16_t` is reduction modulo 2^16.
- `a & b` is computed digit by digit in two's complement.
- `x >> n` on a non-negative value is division by 2^n.

## Model

| member | source | states |
|---|---|---|
| LimitPar.Limit | pixtendtool/pixtendtool.c:86-101 | Return code is 0, 1 or 2. Code 0 exactly when `min <= value <= max`, and then the value is unchanged. Code 1, with the value set to `min`, exactly when `value < min <= max`. Code 2, with the value set to `max`, for every other input outside the range, an inverted range included. With `min <= max` the result lies in range. |
| LimitPar.Warned | pixtendtool/pixtendtool.c:97-98 | At most one warning. One is printed exactly when the code is non-zero, and it names the parameter and the range. |
| LimitPar.LimitPar | pixtendtool/pixtendtool.c:86-101 | The two in-place tests compute `Limit`. Code 1 exactly when the value was below `min` (proper range). Code 2 exactly when it was above `max` or the range is inverted. The warning is printed exactly on a non-zero code. |
| LimitPar.LimitIdempotent | pixtendtool/pixtendtool.c:86-101 | Clamping a clamped value returns 0, keeps it and prints nothing. |
| LimitPar.LimitInvertedRange | pixtendtool/pixtendtool.c:89-96 | With `min > max` every input ends at `max` with code 2. |
| Bits.Uint16 | pixtendtool/pixtendtool.c:155 | Conversion to `uint16_t` lands in 0..65535, differs from the input by a multiple of 2^16, and keeps values already in range. |
| Bits.Uint16Unique | pixtendtool/pixtendtool.c:155 | The conversion is the only value in 0..65535 congruent to the input modulo 2^16; so -1 reads as 65535. |
| Bits.Uint8 | pixtendtool/pixtendtool.c:214 | Conversion to `uint8_t` lands in 0..255, differs from the input by a multiple of 2^8, and keeps values already there. |
| Bits.BitAnd | pixtendtool/pixtendtool.c:141 | `a & b` with `b >= 0` lies in `0..b`. |
| Bits.BitAndPow2 | pixtendtool/pixtendtool.c:141 | `a & (1 << k)` is `2^k` times bit `k` of `a` (induction on `k`). |
| Bits.BitAndLowMask | pixtendtool/pixtendtool.c:445 | `a & (2^k - 1)` is `a mod 2^k`, so `version & 0xFF` is the low byte. |
| Bits.ShiftRight | pixtendtool/pixtendtool.c:445 | `a >> n` is the number of whole `2^n` in `a`. |
| Bits.DinBit | pixtendtool/pixtendtool.c:141-146 | The reported `-di` value is bit `bit` of the input byte. |
| Bits.SplitVersion | pixtendtool/pixtendtool.c:440-446 | Major and minor are bytes, and `major * 256 + minor` is the version word. |
| Bits.SplitVersionJoin | pixtendtool/pixtendtool.c:445 | Splitting the word built from two bytes gives those bytes back. |
| Bits.Dht11Value | pixtendtool/pixtendtool.c:258 | `uiRet >> 8` is a byte, and it is `uiRet / 256`, the high byte of the word. |
| Bits.Dht11HighByte | pixtendtool/pixtendtool.c:257-258 | A word `whole * 256 + fraction` reads as `whole`, whatever the low byte. |
| ArgText.JoinArgs | pixtendtool/pixtendtool.c:355-360 | The `strcpy`/`strcat` loop yields `argv[2]` then `" " + argv[i]` for i = 3..argc-1. Its length is the sum of the word lengths plus `argc - 3`. |
| ArgText.EchoArgs | pixtendtool/pixtendtool.c:459-462 | The echo prints each word of `argv` in order, each followed by a space. That is the words joined by spaces, plus one space. |
| ArgText.JoinedLength | pixtendtool/pixtendtool.c:355-360 | The join adds one character per gap between words. |
| ArgText.EchoedIsJoined | pixtendtool/pixtendtool.c:459-462 | The echo is the join with a trailing space. |
| ArgText.SplitJoined | pixtendtool/pixtendtool.c:355-360 | Cutting the joined string at its spaces gives back the words, when no word holds a space. |
| CommandLine.SensorOf | pixtendtool/pixtendtool.c:254-262 | DHT22 exactly when there is no type word or it is `dht22`. DHT11 exactly when it is `dht11`. Any other word is refused and reported. |
| CommandLine.ScaleOf | pixtendtool/pixtendtool.c:166-180 | Channels 0-1 read volts against `5V` or `10V`, or report an unknown reference. Channels 2-3 read a current. Other channels print nothing. |
| CommandLine.ModeOf | pixtendtool/pixtendtool.c:321-330 | `rs232` and `rs485` are recognised. Any other word is reported. |
| CommandLine.FlagOf | pixtendtool/pixtendtool.c:113-447 | A word passes at most one of the `strcmp(argv[1], ...)` tests, the one naming its spelling. |
| CommandLine.Select | pixtendtool/pixtendtool.c:111-456 | The chain's tests in order. A branch is taken only when its rule accepts the flag and `argc`. |
| CommandLine.SelectIsFirstMatch | pixtendtool/pixtendtool.c:111-456 | First match: no earlier rule accepts, and the taken one does. |
| CommandLine.RuleOf | pixtendtool/pixtendtool.c:113-455 | The branches in source order with the flag each tests, the word counts it accepts and its `limitPar(&v, min, max, name)` calls: every rule names a flag, and its parameters are the words after the flag, in order, each with a range starting at 0. |
| CommandLine.RulesWellFormed | pixtendtool/pixtendtool.c:117-455 | Each branch reads its numeric words only at positions below `argc`, and every clamp range is proper. |
| CommandLine.ExactCounts | pixtendtool/pixtendtool.c:117-455 | Every branch except `-h`, `-tr`, `-hr` and `-sws` requires one exact `argc`. |
| CommandLine.ClampAll | pixtendtool/pixtendtool.c:119-450 | Each parameter of a branch is `limitPar`'d, in argument order, into its range. |
| CommandLine.ClampAllWarnings | pixtendtool/pixtendtool.c:119-450 | The warnings printed are one per parameter whose argument was out of range (`Exceeded`), each naming that parameter and its range, in argument order (induction). |
| CommandLine.Exceeded | pixtendtool/pixtendtool.c:89-98 | The parameters whose argument lies outside their range: every one listed is out of range, and every out-of-range one is listed. It is a filter over the parameters, so it keeps their order. |
| CommandLine.WarningsFor | pixtendtool/pixtendtool.c:97-98 | One warning per listed parameter, naming it and its range, in order. |
| CommandLine.ClampAllQuiet | pixtendtool/pixtendtool.c:119-450 | The clamps print nothing exactly when every argument already lies in its range. |
| CommandLine.Build | pixtendtool/pixtendtool.c:113-455 | A branch body yields the command of that branch, carrying exactly the clamped values. |
| CommandLine.BuildLow | pixtendtool/pixtendtool.c:113-263 | Branch bodies from `-h` through `-tr` yield their own command, carrying exactly the clamped values. |
| CommandLine.BuildHigh | pixtendtool/pixtendtool.c:264-455 | Branch bodies from `-hr` through `-rasp` yield their own command, carrying exactly the clamped values. |
| CommandLine.BuildWords | pixtendtool/pixtendtool.c:158-375 | The reference, sensor, mode, character and string words are read at the positions the branches read them. |
| CommandLine.Dispatch | pixtendtool/pixtendtool.c:111-470 | Help exactly for `argc <= 1` or `-h` with any count. Otherwise the branch `Select` picks. A wrong command clamps nothing and carries every word. |
| CommandLine.DispatchWords | pixtendtool/pixtendtool.c:133-375 | The `-di` bit lies in 0..7 after the clamp. Each word argument comes from its source position. |
| CommandLine.DispatchFirstMatch | pixtendtool/pixtendtool.c:111-465 | The command run is the first rule accepting `(argv[1], argc)`. It is a wrong command exactly when no rule accepts. |
| CommandLine.DispatchClamps | pixtendtool/pixtendtool.c:119-450 | The chosen command's values are the clamps of its arguments, within the rule's ranges. The warnings are one per out-of-range argument, naming its parameter and range, in argument order; none exactly when every argument was in range. |
| CommandLine.AoutTwoWarnings | pixtendtool/pixtendtool.c:196-207 | `-ao 5 2000` prints the `CHANNEL [0 - 1]` warning, then the `VALUE [0 - 1023]` warning, and sets channel 1 to 1023. |
| CommandLine.DispatchDin | pixtendtool/pixtendtool.c:127-147 | `-di` with argc 2 reads the byte. With argc 3 it reads the bit clamped to 0..7 with a `BIT` warning. Otherwise it is a wrong command. |
| CommandLine.DispatchTemperature | pixtendtool/pixtendtool.c:246-263 | `-tr` with argc 3 or 4 reads the channel clamped to 0..3 with the chosen sensor type. Other counts are wrong commands. |
| CommandLine.DispatchHumidity | pixtendtool/pixtendtool.c:264-281 | `-hr` with argc 3 or 4 reads the channel clamped to 0..3 with the chosen sensor type. Other counts are wrong commands. |
| CommandLine.DispatchSerialString | pixtendtool/pixtendtool.c:350-377 | `-sws` takes every word after it for any `argc >= 3` and clamps nothing. With no word it is a wrong command. |
| CommandLine.FlagOfSpelling | pixtendtool/pixtendtool.c:113-447 | Each flag is recognised from its own spelling. |
| Tool.SensorLine | pixtendtool/pixtendtool.c:254-262 | A DHT22 line shows the word in tenths; a DHT11 line shows the word's high byte; any other type word is reported as unknown. The same choice serves `-hr` (272-280). |
| Tool.Response | pixtendtool/pixtendtool.c:113-465 | What each branch prints after its warnings: never a range warning of its own; nothing only for `-ai` on a channel outside 0..3; the wrong command ends with the help text; a serial command whose port does not open prints only that error. |
| Tool.Transcript | pixtendtool/pixtendtool.c:103-472 | A run prints the clamp warnings first. |
| Tool.Run | pixtendtool/pixtendtool.c:103-472 | `main` returns 0 and prints `Transcript`, using the join and echo loops. |
| Tool.HelpOnly | pixtendtool/pixtendtool.c:111-116 | No arguments, or `-h` with any count, prints the help text and nothing else. |
| Tool.WrongCommandEcho | pixtendtool/pixtendtool.c:456-465 | An unmatched command prints "Wrong command: " with every word in order, each followed by a space, then the help. The echo is the join of the words plus one space, and cutting that join at spaces gives back the command line when no word holds a space. |
| Tool.DinBitReport | pixtendtool/pixtendtool.c:133-147 | `-di BIT` reports the clamped bit and 1 exactly when `din & (1 << bit)` is non-zero, that is, when that bit is set. |
| Tool.VersionReport | pixtendtool/pixtendtool.c:440-446 | `-ucv` prints two bytes that rebuild the `uint16_t` version word. |
| Tool.TemperatureReport | pixtendtool/pixtendtool.c:246-263 | `-tr` prints the channel warning, then one line chosen by sensor type from the `uint16_t` word. |
| Tool.HumidityReport | pixtendtool/pixtendtool.c:264-281 | `-hr` prints the channel warning, then one line chosen by sensor type from the `uint16_t` word. |
| Tool.Dht11Temperature | pixtendtool/pixtendtool.c:257-258 | `-tr CH dht11` prints the high byte of the sensor word as whole degrees. |
| Tool.SerialStringSent | pixtendtool/pixtendtool.c:350-377 | With the port open, `-sws` sends the words joined by single spaces. The length is the sum of the word lengths plus one per gap, and the string splits back into the words. |
| Tool.SerialCharSent | pixtendtool/pixtendtool.c:332-348 | `-swc W` with the port open prints exactly: opened with the descriptor, the first character of `W` put (NUL for an empty `W`), flushed, closed. With the port failing to open it prints only the error. |

## Left out

- All `Spi_*` calls and `Change_Serial_Mode`. They belong to a library that
  is not part of this model. What they return is an input; which writes they
  make is not modelled. The printed confirmation carries the same values.
- `-shw rs485` prints its confirmation without calling `Change_Serial_Mode`,
  unlike `rs232`. The printed line is modelled as the code has it; the missing
  library call is not visible in the model.
- Serial I/O (`serialOpen`, `serialPutchar`, `serialPuts`, `serialFlush`,
  `serialClose`). Only the descriptor `serialOpen` returns is an input, and
  the lines printed around the session are modelled.
- The `-sr` receive loop, the SIGINT handler and the global `fd`. The loop
  runs on characters from the serial line until SIGINT or until
  `serialDataAvail` fails; neither the received characters nor the three
  lines of its error exit are modelled. The model's `-sr` transcript stops at
  "Recv: ".
- Tool.Run: the exit status is 0 on every path the model covers. An `-sr`
  session that ends by SIGINT exits with the signal number, outside the model.
- Floating-point scaling of voltages, currents and DHT22 tenths. The printed
  line keeps the raw word it is computed from.
- CommandLine.FirstChar: words are modelled as strings of characters, not of
  bytes. C's `*argv[2]` is the first byte of the word, so for a word whose
  first character is not ASCII the model's first character differs from the
  byte `-swc` sends and prints. The same holds for every word the model
  echoes or joins.
- `atoi`. Its result is an input (`Arg.num`); its overflow behaviour is not
  modelled.
- The help text and the `printf` formatting. Lines are values that carry what
  they print.
- The 256-byte buffer of `-sws` and the overflow of `strcpy`/`strcat`. The
  join is over unbounded strings.
- The 16-character limit on `-sws`. The help text documents it, but the code
  does not enforce it, and the model follows the code.
