/** What one run of pixtendtool prints, and its exit status. `main` decides on
    a command (module CommandLine), prints the warnings of its clamps, then runs
    the branch: most read or write one board register and print one
    confirmation or reading, the serial branches print a line per step of the
    session, and the wrong-command branch echoes the command line and prints
    the help. The board and the serial port are outside the model: what they
    return in a run is an input. */
module Tool {
  import opened LimitPar
  import opened Bits
  import opened ArgText
  import opened CommandLine

  /** What the library calls return during one run: the integers
      `Spi_Get_Din`, `Spi_Get_Ain`, `Spi_Get_Gpio`, `Spi_Get_Temp`,
      `Spi_Get_Hum`, `Spi_Get_uC_Status` and `Spi_Get_uC_Version` give, and the
      descriptor `serialOpen` gives (-1 when it fails). Each run makes at most
      one of these reads. */
  datatype Hardware = Hardware(din: int, ain: int, gpio: int, temp: int, hum: int,
                               ucStatus: int, ucVersion: int, serialFd: int)

  datatype Quantity = Temperature | Humidity

  /** One printed line (or group of lines), with the values it shows.
      Floating-point renderings keep the raw reading they are computed from. */
  datatype Line =
    | RangeWarning(w: Warning)
    | HelpText
    | WrongCommandLine(echo: string)
    | DoutSet(value: int)
    | DinByte(value: int)
    | DinBitIs(bit: int, value: int)
    | AinValue(channel: int, raw: int)
    | AinVoltage(channel: int, raw: int, refVolts: int)
    | AinCurrent(channel: int, raw: int)
    | UnknownReference(token: string)
    | AiControlSet(value0: int, value1: int)
    | AoutSet(channel: int, value: int)
    | RelaysSet(value: int)
    | GpioByte(value: int)
    | GpioSet(value: int)
    | GpioControlSet(value: int)
    | DhtTenths(q: Quantity, channel: int, raw: int)
    | DhtWhole(q: Quantity, channel: int, whole: int)
    | UnknownSensorType(q: Quantity, token: string)
    | ServoSet(channel: int, value: int)
    | PwmSet(channel: int, value: int)
    | PwmControlSet(value0: int, value1: int, value2: int)
    | ModeChanged(mode: SerialMode)
    | UnknownMode(token: string)
    | SerialOpenFailed
    | SerialOpened(fd: int)
    | PutChar(c: char)
    | PutString(s: string)
    | Flushed
    | Closed
    | Receiving
    | UcControlSet(value: int)
    | UcResetDone
    | UcStatusIs(value: int)
    | UcVersionIs(major: int, minor: int)
    | RaspStatusSet(value: int)

  /** The warnings of the clamps, one line each, in order. */
  function WarningLines(ws: seq<Warning>): (lines: seq<Line>)
    ensures |lines| == |ws|
    ensures forall i :: 0 <= i < |ws| ==> lines[i] == RangeWarning(ws[i])
  {
    seq(|ws|, i requires 0 <= i < |ws| => RangeWarning(ws[i]))
  }

  /** A serial session: open the port; when that fails, say so and stop;
      otherwise report the descriptor, do the work, flush and close. */
  function SerialSession(fd: int, work: seq<Line>): (lines: seq<Line>)
    ensures fd == -1 ==> lines == [SerialOpenFailed]
    ensures fd != -1 ==> lines == [SerialOpened(fd)] + work + [Flushed, Closed]
  {
    if fd == -1 then [SerialOpenFailed] else [SerialOpened(fd)] + work + [Flushed, Closed]
  }

  /** A `-tr`/`-hr` reading of the `uint16_t` sensor word, by sensor type. */
  function SensorLine(q: Quantity, channel: int, sensor: Sensor, word: int): (l: Line)
    requires 0 <= word < 65536
    ensures sensor == Dht22 ==> l == DhtTenths(q, channel, word)
    ensures sensor == Dht11 ==> l.DhtWhole? && l.q == q && l.channel == channel &&
                                0 <= l.whole < 256 && l.whole * 256 <= word < l.whole * 256 + 256
    ensures sensor.BadSensor? ==> l == UnknownSensorType(q, sensor.token)
  {
    match sensor
    case Dht22 => DhtTenths(q, channel, word)
    case Dht11 => DhtWhole(q, channel, Dht11Value(word))
    case BadSensor(token) => UnknownSensorType(q, token)
  }

  /** What a command can be run with: a bit number `1 << bit` is defined for,
      and at least one word to send. */
  predicate Runnable(cmd: Command) {
    (cmd.GetDinBit? ==> 0 <= cmd.bit <= 7) &&
    (cmd.SerialWriteString? ==> |cmd.tokens| >= 1)
  }

  /** The lines a branch prints after its warnings. No branch prints a range
      warning of its own; only `-ai` on a channel outside 0..3 prints nothing;
      the help text ends the wrong-command output; a serial command whose port
      fails to open prints only that. */
  function Response(cmd: Command, hw: Hardware): (lines: seq<Line>)
    requires Runnable(cmd)
    ensures forall i :: 0 <= i < |lines| ==> !lines[i].RangeWarning?
    ensures lines == [] <==> cmd.GetAinScaled? && cmd.scale == NoScale
    ensures cmd.Help? ==> lines == [HelpText]
    ensures cmd.WrongCommand? ==> |lines| == 2 && lines[1] == HelpText
    ensures (cmd.SerialWriteChar? || cmd.SerialWriteString? || cmd.SerialRead?) ==>
              (hw.serialFd == -1 <==> lines == [SerialOpenFailed])
  {
    match cmd
    case Help => [HelpText]
    case SetDout(v) => [DoutSet(v)]
    case GetDin => [DinByte(hw.din)]
    case GetDinBit(bit) => [DinBitIs(bit, DinBit(hw.din, bit))]
    case GetAin(ch) => [AinValue(ch, Uint16(hw.ain))]
    case GetAinScaled(ch, scale) =>
      (match scale
       case Volts5 => [AinVoltage(ch, Uint16(hw.ain), 5)]
       case Volts10 => [AinVoltage(ch, Uint16(hw.ain), 10)]
       case BadRef(token) => [UnknownReference(token)]
       case Current => [AinCurrent(ch, Uint16(hw.ain))]
       case NoScale => [])
    case SetAiControl(v0, v1) => [AiControlSet(v0, v1)]
    case SetAout(ch, v) => [AoutSet(ch, v)]
    case SetRelays(v) => [RelaysSet(Uint8(v))]
    case GetGpio => [GpioByte(hw.gpio)]
    case SetGpio(v) => [GpioSet(v)]
    case SetGpioControl(v) => [GpioControlSet(v)]
    case ReadTemp(ch, sensor) => [SensorLine(Temperature, ch, sensor, Uint16(hw.temp))]
    case ReadHum(ch, sensor) => [SensorLine(Humidity, ch, sensor, Uint16(hw.hum))]
    case SetServo(ch, v) => [ServoSet(ch, v)]
    case SetPwm(ch, v) => [PwmSet(ch, v)]
    case SetPwmControl(v0, v1, v2) => [PwmControlSet(v0, v1, v2)]
    case SwitchSerialMode(mode) =>
      (match mode
       case BadMode(token) => [UnknownMode(token)]
       case _ => [ModeChanged(mode)])
    case SerialWriteChar(c) => SerialSession(hw.serialFd, [PutChar(c)])
    case SerialWriteString(tokens) => SerialSession(hw.serialFd, [PutString(Joined(tokens))])
    case SerialRead => if hw.serialFd == -1 then [SerialOpenFailed] else [SerialOpened(hw.serialFd), Receiving]
    case SetUcControl(v) => [UcControlSet(v)]
    case ResetUc => [UcResetDone]
    case GetUcStatus => [UcStatusIs(hw.ucStatus)]
    case GetUcVersion =>
      var v := SplitVersion(Uint16(hw.ucVersion));
      [UcVersionIs(v.major, v.minor)]
    case SetRaspStatus(v) => [RaspStatusSet(v)]
    case WrongCommand(words) => [WrongCommandLine(Echoed(words)), HelpText]
  }

  /** Everything one run prints: the clamp warnings, then the branch's lines. */
  function Transcript(argv: seq<Arg>, hw: Hardware): (out: seq<Line>)
    ensures |out| >= |Dispatch(argv).warnings|
    ensures out[..|Dispatch(argv).warnings|] == WarningLines(Dispatch(argv).warnings)
  {
    var o := Dispatch(argv);
    DispatchWords(argv);
    WarningLines(o.warnings) + Response(o.cmd, hw)
  }

  /** `main`: decide, print the warnings, run the branch (the `-sws` join and
      the wrong-command echo are the source's loops), and return 0. */
  method Run(argv: seq<Arg>, hw: Hardware) returns (status: int, out: seq<Line>)
    ensures status == 0
    ensures out == Transcript(argv, hw)
  {
    var o := Dispatch(argv);
    DispatchWords(argv);
    out := WarningLines(o.warnings);
    if o.cmd.WrongCommand? {
      var echo := EchoArgs(o.cmd.words);
      assert Response(o.cmd, hw) == [WrongCommandLine(echo), HelpText];
      out := out + [WrongCommandLine(echo), HelpText];
    } else if o.cmd.SerialWriteString? {
      var str := JoinArgs(Texts(argv));
      assert Response(o.cmd, hw) == SerialSession(hw.serialFd, [PutString(str)]);
      out := out + SerialSession(hw.serialFd, [PutString(str)]);
    } else {
      out := out + Response(o.cmd, hw);
    }
    status := 0;
  }

  // ---------------------------------------------------------------------------
  // Properties of a run.

  /** A bare invocation, and `-h` with any number of words, print the help
      text and nothing else. */
  lemma HelpOnly(argv: seq<Arg>, hw: Hardware)
    requires |argv| <= 1 || argv[1].text == "-h"
    ensures Transcript(argv, hw) == [HelpText]
  {
  }

  /** A command no branch accepts prints "Wrong command: " with every word of
      the command line in order, each followed by a space, then the help text;
      it clamps nothing. When no word holds a space, cutting the echo at its
      spaces gives the command line back. */
  lemma WrongCommandEcho(argv: seq<Arg>, hw: Hardware)
    requires Dispatch(argv).cmd.WrongCommand?
    ensures |argv| >= 2
    ensures Transcript(argv, hw) == [WrongCommandLine(Joined(Texts(argv)) + " "), HelpText]
    ensures (forall i :: 0 <= i < |argv| ==> SpaceFree(argv[i].text)) ==>
              SplitSpaces(Joined(Texts(argv))) == Texts(argv)
  {
    EchoedIsJoined(Texts(argv));
    if forall i :: 0 <= i < |argv| ==> SpaceFree(argv[i].text) {
      SplitJoined(Texts(argv));
    }
  }

  /** `-di BIT` prints the clamped bit number and 1 exactly when that bit of the
      input byte is set. */
  lemma DinBitReport(argv: seq<Arg>, hw: Hardware)
    requires |argv| == 3 && argv[1].text == "-di"
    ensures var bit := Limit(argv[2].num, 0, 7).value;
            var out := Transcript(argv, hw);
            0 <= bit <= 7 && out != [] &&
            out[|out| - 1] == DinBitIs(bit, Bit(hw.din, bit)) &&
            (Bit(hw.din, bit) == 1 <==> BitAnd(hw.din, Pow2(bit)) != 0)
  {
    DispatchDin(argv);
    var bit := Limit(argv[2].num, 0, 7).value;
    BitAndPow2(hw.din, bit);
  }

  /** `-ucv` prints two bytes that rebuild the `uint16_t` version word. */
  lemma VersionReport(argv: seq<Arg>, hw: Hardware)
    requires |argv| == 2 && argv[1].text == "-ucv"
    ensures exists major, minor ::
              Transcript(argv, hw) == [UcVersionIs(major, minor)] &&
              0 <= major < 256 && 0 <= minor < 256 &&
              major * 256 + minor == Uint16(hw.ucVersion)
  {
    FlagOfSpelling(Ucv);
    assert Select(Ucv, 2) == 24;
    var c := ClampAll(argv, RuleOf(24).params);
    assert Dispatch(argv) == Outcome(c.warnings, Build(24, argv, c.values));
    assert Dispatch(argv) == Outcome([], GetUcVersion);
    var v := SplitVersion(Uint16(hw.ucVersion));
    assert Response(GetUcVersion, hw) == [UcVersionIs(v.major, v.minor)];
  }

  /** `-tr CHANNEL [TYPE]` prints the channel warning, if any, then one line
      chosen by the sensor type from the `uint16_t` sensor word. */
  lemma TemperatureReport(argv: seq<Arg>, hw: Hardware)
    requires (|argv| == 3 || |argv| == 4) && argv[1].text == "-tr"
    ensures var ch := Limit(argv[2].num, 0, 3);
            Transcript(argv, hw) ==
              WarningLines(Warned(ch, "CHANNEL", 0, 3)) + [SensorLine(Temperature, ch.value, SensorOf(argv), Uint16(hw.temp))]
  {
    DispatchTemperature(argv);
    var ch := Limit(argv[2].num, 0, 3);
    var cmd := ReadTemp(ch.value, SensorOf(argv));
    assert Response(cmd, hw) == [SensorLine(Temperature, ch.value, SensorOf(argv), Uint16(hw.temp))];
    assert Transcript(argv, hw) == WarningLines(Warned(ch, "CHANNEL", 0, 3)) + Response(cmd, hw);
  }

  /** `-hr CHANNEL [TYPE]` prints the channel warning, if any, then one line
      chosen by the sensor type from the `uint16_t` sensor word. */
  lemma HumidityReport(argv: seq<Arg>, hw: Hardware)
    requires (|argv| == 3 || |argv| == 4) && argv[1].text == "-hr"
    ensures var ch := Limit(argv[2].num, 0, 3);
            Transcript(argv, hw) ==
              WarningLines(Warned(ch, "CHANNEL", 0, 3)) + [SensorLine(Humidity, ch.value, SensorOf(argv), Uint16(hw.hum))]
  {
    DispatchHumidity(argv);
    var ch := Limit(argv[2].num, 0, 3);
    var cmd := ReadHum(ch.value, SensorOf(argv));
    assert Response(cmd, hw) == [SensorLine(Humidity, ch.value, SensorOf(argv), Uint16(hw.hum))];
    assert Transcript(argv, hw) == WarningLines(Warned(ch, "CHANNEL", 0, 3)) + Response(cmd, hw);
  }

  /** `-tr CHANNEL dht11` prints the high byte of the sensor word: the whole
      degrees, whatever the low byte holds. */
  lemma Dht11Temperature(argv: seq<Arg>, hw: Hardware, whole: int, fraction: int)
    requires |argv| == 4 && argv[1].text == "-tr" && argv[3].text == "dht11"
    requires 0 <= whole < 256 && 0 <= fraction < 256 && hw.temp == whole * 256 + fraction
    ensures var out := Transcript(argv, hw);
            out != [] && out[|out| - 1] == DhtWhole(Temperature, Limit(argv[2].num, 0, 3).value, whole)
  {
    TemperatureReport(argv, hw);
    assert SensorOf(argv) == Dht11;
    Dht11HighByte(whole, fraction);
    assert Uint16(hw.temp) == hw.temp;
  }

  /** `-sws` sends, when the port opens, the words after the flag joined by
      single spaces: the sum of their lengths plus one per gap, and cut at its
      spaces it gives the words back when none holds a space. */
  lemma SerialStringSent(argv: seq<Arg>, hw: Hardware)
    requires |argv| >= 3 && argv[1].text == "-sws" && hw.serialFd != -1
    ensures var s := Joined(Texts(argv)[2..]);
            Transcript(argv, hw) == [SerialOpened(hw.serialFd), PutString(s), Flushed, Closed] &&
            |s| == TotalLength(Texts(argv)[2..]) + |argv| - 3 &&
            ((forall i :: 2 <= i < |argv| ==> SpaceFree(argv[i].text)) ==> SplitSpaces(s) == Texts(argv)[2..])
  {
    DispatchSerialString(argv);
    var tokens := Texts(argv)[2..];
    var s := Joined(tokens);
    assert Response(SerialWriteString(tokens), hw) == [SerialOpened(hw.serialFd), PutString(s), Flushed, Closed];
    assert Transcript(argv, hw) == WarningLines([]) + Response(SerialWriteString(tokens), hw);
    JoinedLength(tokens);
    if forall i :: 2 <= i < |argv| ==> SpaceFree(argv[i].text) {
      assert forall i :: 0 <= i < |tokens| ==> tokens[i] == argv[i + 2].text;
      SplitJoined(tokens);
    }
  }

  /** `-swc W`: with the port open, the first character of `W` (the NUL that
      ends an empty `W`) is put, then the port is flushed and closed; when the
      port does not open, only the error is printed. */
  lemma SerialCharSent(argv: seq<Arg>, hw: Hardware)
    requires |argv| == 3 && argv[1].text == "-swc"
    ensures hw.serialFd == -1 ==> Transcript(argv, hw) == [SerialOpenFailed]
    ensures var w := argv[2].text;
            var c := if |w| > 0 then w[0] else '\0';
            hw.serialFd != -1 ==> Transcript(argv, hw) == [SerialOpened(hw.serialFd), PutChar(c), Flushed, Closed]
  {
    FlagOfSpelling(Swc);
    assert Select(Swc, 3) == 18;
    var cl := ClampAll(argv, RuleOf(18).params);
    assert Dispatch(argv) == Outcome(cl.warnings, Build(18, argv, cl.values));
    assert Dispatch(argv) == Outcome([], SerialWriteChar(FirstChar(argv[2].text)));
  }
}
