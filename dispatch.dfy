/** The command decision of pixtendtool's `main`: an ordered `if`/`else if`
    chain keyed on the flag `argv[1]` and on `argc`, in which each branch first
    clamps its numeric arguments with `limitPar`. The decision is a pure
    function of the words on the command line and the integers `atoi` read
    from them; what the chosen branch then reads from the board and prints is
    in module Tool.

    The chain is written twice: once as the source's sequence of tests
    (`Select`), and once as an ordered table of rules (`RuleOf`) that says for
    each branch its flag, the word counts it accepts and the parameters it
    clamps. `SelectIsFirstMatch` proves the two agree. */
module CommandLine {
  import opened LimitPar

  /** One command-line word and the integer `atoi` makes of it. */
  datatype Arg = Arg(text: string, num: int)

  /** The reference voltage or current reading chosen by `-ai CHANNEL REF`.
      `NoScale` stands for a channel outside 0..3, for which the source prints
      nothing; the clamp keeps it from happening. */
  datatype Scale = Volts5 | Volts10 | BadRef(token: string) | Current | NoScale

  /** The sensor type chosen by `-tr`/`-hr`. */
  datatype Sensor = Dht22 | Dht11 | BadSensor(token: string)

  /** The serial hardware mode chosen by `-shw`. */
  datatype SerialMode = Rs232 | Rs485 | BadMode(token: string)

  /** One branch of the chain, with its arguments after clamping. */
  datatype Command =
    | Help
    | SetDout(value: int)
    | GetDin
    | GetDinBit(bit: int)
    | GetAin(channel: int)
    | GetAinScaled(channel: int, scale: Scale)
    | SetAiControl(value0: int, value1: int)
    | SetAout(channel: int, value: int)
    | SetRelays(value: int)
    | GetGpio
    | SetGpio(value: int)
    | SetGpioControl(value: int)
    | ReadTemp(channel: int, sensor: Sensor)
    | ReadHum(channel: int, sensor: Sensor)
    | SetServo(channel: int, value: int)
    | SetPwm(channel: int, value: int)
    | SetPwmControl(value0: int, value1: int, value2: int)
    | SwitchSerialMode(mode: SerialMode)
    | SerialWriteChar(c: char)
    | SerialWriteString(tokens: seq<string>)
    | SerialRead
    | SetUcControl(value: int)
    | ResetUc
    | GetUcStatus
    | GetUcVersion
    | SetRaspStatus(value: int)
    | WrongCommand(words: seq<string>)

  /** The branch taken and the warnings its clamps printed, in order. */
  datatype Outcome = Outcome(warnings: seq<Warning>, cmd: Command)

  function Texts(argv: seq<Arg>): (words: seq<string>)
    ensures |words| == |argv|
    ensures forall i :: 0 <= i < |argv| ==> words[i] == argv[i].text
  {
    seq(|argv|, i requires 0 <= i < |argv| => argv[i].text)
  }

  // ---------------------------------------------------------------------------
  // The word arguments some branches interpret.

  /** `-tr`/`-hr` with `argc` 3 or 4: no type word or `dht22` reads a DHT22,
      `dht11` a DHT11, and any other word is refused. */
  function SensorOf(argv: seq<Arg>): (s: Sensor)
    requires |argv| == 3 || |argv| == 4
    ensures s == Dht22 <==> |argv| == 3 || argv[3].text == "dht22"
    ensures s == Dht11 <==> |argv| == 4 && argv[3].text == "dht11"
    ensures s.BadSensor? ==> |argv| == 4 && s.token == argv[3].text
  {
    if (|argv| == 4 && argv[3].text == "dht22") || |argv| == 3 then Dht22
    else if |argv| == 4 && argv[3].text == "dht11" then Dht11
    else BadSensor(argv[3].text)
  }

  /** `-ai CHANNEL REF`: channels 0 and 1 read a voltage against `5V` or `10V`,
      channels 2 and 3 a current whatever REF says. */
  function ScaleOf(channel: int, ref: string): (s: Scale)
    ensures s == Current <==> 2 <= channel <= 3
    ensures s == NoScale <==> channel < 0 || channel > 3
    ensures s == Volts5 <==> 0 <= channel <= 1 && ref == "5V"
    ensures s == Volts10 <==> 0 <= channel <= 1 && ref == "10V"
    ensures s.BadRef? ==> 0 <= channel <= 1 && s.token == ref && ref != "5V" && ref != "10V"
  {
    if 0 <= channel <= 1 then
      if ref == "5V" then Volts5
      else if ref == "10V" then Volts10
      else BadRef(ref)
    else if 2 <= channel <= 3 then Current
    else NoScale
  }

  /** `-shw MODE`. */
  function ModeOf(mode: string): (m: SerialMode)
    ensures m == Rs232 <==> mode == "rs232"
    ensures m == Rs485 <==> mode == "rs485"
    ensures m.BadMode? ==> m.token == mode && mode != "rs232" && mode != "rs485"
  {
    if mode == "rs232" then Rs232
    else if mode == "rs485" then Rs485
    else BadMode(mode)
  }

  /** `*argv[2]`: the first character of the word, or the terminating NUL of an
      empty one. */
  function FirstChar(s: string): (c: char)
    ensures |s| > 0 ==> c == s[0]
    ensures |s| == 0 ==> c == '\0'
  {
    if |s| > 0 then s[0] else '\0'
  }

  // ---------------------------------------------------------------------------
  // The flag word.

  /** The flags `main` compares `argv[1]` with, and every other word. */
  datatype Flag = H | Do | Di | Ai | Aic | Ao | Rel | Gr | Gw | Gc | Tr | Hr | Srv | Pwm | Pwmc
                | Shw | Swc | Sws | Sr | Ucc | Ucr | Ucs | Ucv | Rasp | Unknown

  /** The word that names each flag on the command line. */
  function Spelling(f: Flag): string {
    match f
    case H => "-h" case Do => "-do" case Di => "-di" case Ai => "-ai" case Aic => "-aic"
    case Ao => "-ao" case Rel => "-rel" case Gr => "-gr" case Gw => "-gw" case Gc => "-gc"
    case Tr => "-tr" case Hr => "-hr" case Srv => "-srv" case Pwm => "-pwm" case Pwmc => "-pwmc"
    case Shw => "-shw" case Swc => "-swc" case Sws => "-sws" case Sr => "-sr" case Ucc => "-ucc"
    case Ucr => "-ucr" case Ucs => "-ucs" case Ucv => "-ucv" case Rasp => "-rasp" case Unknown => ""
  }

  /** Which of the source's `strcmp(argv[1], ...) == 0` tests a word passes:
      at most one, since the spellings differ. */
  function FlagOf(text: string): (f: Flag)
    ensures f != Unknown ==> Spelling(f) == text
    ensures f == Unknown ==> forall g: Flag :: g != Unknown ==> Spelling(g) != text
  {
    if text == "-h" then H
    else if text == "-do" then Do
    else if text == "-di" then Di
    else if text == "-ai" then Ai
    else if text == "-aic" then Aic
    else if text == "-ao" then Ao
    else if text == "-rel" then Rel
    else if text == "-gr" then Gr
    else if text == "-gw" then Gw
    else if text == "-gc" then Gc
    else if text == "-tr" then Tr
    else if text == "-hr" then Hr
    else if text == "-srv" then Srv
    else if text == "-pwm" then Pwm
    else if text == "-pwmc" then Pwmc
    else if text == "-shw" then Shw
    else if text == "-swc" then Swc
    else if text == "-sws" then Sws
    else if text == "-sr" then Sr
    else if text == "-ucc" then Ucc
    else if text == "-ucr" then Ucr
    else if text == "-ucs" then Ucs
    else if text == "-ucv" then Ucv
    else if text == "-rasp" then Rasp
    else Unknown
  }

  /** Each flag is recognised from its own spelling. */
  lemma FlagOfSpelling(f: Flag)
    requires f != Unknown
    ensures FlagOf(Spelling(f)) == f
  {
  }

  // ---------------------------------------------------------------------------
  // The command table: the chain written as data.

  /** How many words (`argc`, the program name included) a rule accepts. */
  datatype Arity = AnyCount | Exactly(n: nat) | EitherOf(n: nat, m: nat) | AtLeast(n: nat)

  /** A numeric argument: its position in `argv`, its inclusive range and the
      name its warning uses. */
  datatype Param = Param(pos: nat, min: int, max: int, name: string)

  datatype Rule = Rule(flag: Flag, arity: Arity, params: seq<Param>)

  predicate Allows(a: Arity, argc: nat) {
    match a
    case AnyCount => true
    case Exactly(n) => argc == n
    case EitherOf(n, m) => argc == n || argc == m
    case AtLeast(n) => argc >= n
  }

  predicate Accepts(r: Rule, flag: Flag, argc: nat) {
    r.flag == flag && Allows(r.arity, argc)
  }

  function Byte(pos: nat, name: string): Param { Param(pos, 0, 255, name) }

  const RuleCount := 26

  /** The rules in the order `main` tests them: rule `k` is the `k`-th branch.
      Every rule names a flag; its numeric parameters are the words after the
      flag, in order, each clamped into a range starting at 0. */
  function RuleOf(k: nat): (r: Rule)
    requires k < RuleCount
    ensures r.flag != Unknown
    ensures forall i :: 0 <= i < |r.params| ==> r.params[i].pos == i + 2 && r.params[i].min == 0 < r.params[i].max
  {
    if k == 0 then Rule(H, AnyCount, [])
    else if k == 1 then Rule(Do, Exactly(3), [Byte(2, "VALUE")])
    else if k == 2 then Rule(Di, Exactly(2), [])
    else if k == 3 then Rule(Di, Exactly(3), [Param(2, 0, 7, "BIT")])
    else if k == 4 then Rule(Ai, Exactly(3), [Param(2, 0, 3, "CHANNEL")])
    else if k == 5 then Rule(Ai, Exactly(4), [Param(2, 0, 3, "CHANNEL")])
    else if k == 6 then Rule(Aic, Exactly(4), [Byte(2, "VALUE0"), Byte(3, "VALUE1")])
    else if k == 7 then Rule(Ao, Exactly(4), [Param(2, 0, 1, "CHANNEL"), Param(3, 0, 1023, "VALUE")])
    else if k == 8 then Rule(Rel, Exactly(3), [Byte(2, "VALUE")])
    else if k == 9 then Rule(Gr, Exactly(2), [])
    else if k == 10 then Rule(Gw, Exactly(3), [Byte(2, "VALUE")])
    else if k == 11 then Rule(Gc, Exactly(3), [Byte(2, "VALUE")])
    else if k == 12 then Rule(Tr, EitherOf(3, 4), [Param(2, 0, 3, "CHANNEL")])
    else if k == 13 then Rule(Hr, EitherOf(3, 4), [Param(2, 0, 3, "CHANNEL")])
    else if k == 14 then Rule(Srv, Exactly(4), [Param(2, 0, 1, "CHANNEL"), Byte(3, "VALUE")])
    else if k == 15 then Rule(Pwm, Exactly(4), [Param(2, 0, 1, "CHANNEL"), Param(3, 0, 65535, "VALUE")])
    else if k == 16 then Rule(Pwmc, Exactly(5), [Byte(2, "VALUE0"), Byte(3, "VALUE1"), Byte(4, "VALUE2")])
    else if k == 17 then Rule(Shw, Exactly(3), [])
    else if k == 18 then Rule(Swc, Exactly(3), [])
    else if k == 19 then Rule(Sws, AtLeast(3), [])
    else if k == 20 then Rule(Sr, Exactly(2), [])
    else if k == 21 then Rule(Ucc, Exactly(3), [Byte(2, "VALUE")])
    else if k == 22 then Rule(Ucr, Exactly(2), [])
    else if k == 23 then Rule(Ucs, Exactly(2), [])
    else if k == 24 then Rule(Ucv, Exactly(2), [])
    else Rule(Rasp, Exactly(3), [Byte(2, "VALUE")])
  }

  /** Every parameter a rule clamps lies among the words the rule accepts, and
      every range is a proper one. */
  lemma RulesWellFormed()
    ensures forall k, argc: nat, p :: 0 <= k < RuleCount && Allows(RuleOf(k).arity, argc) && p in RuleOf(k).params ==>
              p.pos < argc && p.min <= p.max
  {
  }

  /** The position of a command's branch in the table; `RuleCount` for the final
      `else` that reports a wrong command. */
  function BranchOf(c: Command): (b: nat)
    ensures b <= RuleCount
    ensures b == RuleCount <==> c.WrongCommand?
  {
    match c
    case Help => 0
    case SetDout(_) => 1
    case GetDin => 2
    case GetDinBit(_) => 3
    case GetAin(_) => 4
    case GetAinScaled(_, _) => 5
    case SetAiControl(_, _) => 6
    case SetAout(_, _) => 7
    case SetRelays(_) => 8
    case GetGpio => 9
    case SetGpio(_) => 10
    case SetGpioControl(_) => 11
    case ReadTemp(_, _) => 12
    case ReadHum(_, _) => 13
    case SetServo(_, _) => 14
    case SetPwm(_, _) => 15
    case SetPwmControl(_, _, _) => 16
    case SwitchSerialMode(_) => 17
    case SerialWriteChar(_) => 18
    case SerialWriteString(_) => 19
    case SerialRead => 20
    case SetUcControl(_) => 21
    case ResetUc => 22
    case GetUcStatus => 23
    case GetUcVersion => 24
    case SetRaspStatus(_) => 25
    case WrongCommand(_) => 26
  }

  /** The clamped numeric arguments a command carries, in argument order. */
  function Values(c: Command): seq<int> {
    match c
    case SetDout(v) => [v]
    case GetDinBit(b) => [b]
    case GetAin(ch) => [ch]
    case GetAinScaled(ch, _) => [ch]
    case SetAiControl(v0, v1) => [v0, v1]
    case SetAout(ch, v) => [ch, v]
    case SetRelays(v) => [v]
    case SetGpio(v) => [v]
    case SetGpioControl(v) => [v]
    case ReadTemp(ch, _) => [ch]
    case ReadHum(ch, _) => [ch]
    case SetServo(ch, v) => [ch, v]
    case SetPwm(ch, v) => [ch, v]
    case SetPwmControl(v0, v1, v2) => [v0, v1, v2]
    case SetUcControl(v) => [v]
    case SetRaspStatus(v) => [v]
    case _ => []
  }

  // ---------------------------------------------------------------------------
  // The chain.

  /** The tests of the if/else chain of `main` on `(argv[1], argc)`, in the
      source's order: the number of the first branch whose test holds, or 26
      for the final `else` (a wrong command). */
  function Select(flag: Flag, argc: nat): (b: nat)
    ensures b <= RuleCount
    ensures b < RuleCount ==> Accepts(RuleOf(b), flag, argc)
  {
    if flag == H then 0
    else if flag == Do && argc == 3 then 1
    else if flag == Di && argc == 2 then 2
    else if flag == Di && argc == 3 then 3
    else if flag == Ai && argc == 3 then 4
    else if flag == Ai && argc == 4 then 5
    else if flag == Aic && argc == 4 then 6
    else if flag == Ao && argc == 4 then 7
    else if flag == Rel && argc == 3 then 8
    else if flag == Gr && argc == 2 then 9
    else if flag == Gw && argc == 3 then 10
    else if flag == Gc && argc == 3 then 11
    else if flag == Tr && (argc == 3 || argc == 4) then 12
    else if flag == Hr && (argc == 3 || argc == 4) then 13
    else if flag == Srv && argc == 4 then 14
    else if flag == Pwm && argc == 4 then 15
    else if flag == Pwmc && argc == 5 then 16
    else if flag == Shw && argc == 3 then 17
    else if flag == Swc && argc == 3 then 18
    else if flag == Sws && argc >= 3 then 19
    else if flag == Sr && argc == 2 then 20
    else if flag == Ucc && argc == 3 then 21
    else if flag == Ucr && argc == 2 then 22
    else if flag == Ucs && argc == 2 then 23
    else if flag == Ucv && argc == 2 then 24
    else if flag == Rasp && argc == 3 then 25
    else 26
  }

  /** Argument `p.pos` already lies in the parameter's range. */
  predicate ArgInRange(argv: seq<Arg>, p: Param)
    requires p.pos < |argv|
  {
    p.min <= argv[p.pos].num <= p.max
  }

  /** The clamps a branch applies: `limitPar` on each numeric parameter in
      argument order; the values, and the warnings in the order printed. */
  datatype Clamps = Clamps(values: seq<int>, warnings: seq<Warning>)

  function ClampAll(argv: seq<Arg>, ps: seq<Param>): (c: Clamps)
    requires forall p :: p in ps ==> p.pos < |argv|
    ensures |c.values| == |ps| && |c.warnings| <= |ps|
    ensures forall i :: 0 <= i < |ps| ==> c.values[i] == Limit(argv[ps[i].pos].num, ps[i].min, ps[i].max).value
    ensures forall i :: 0 <= i < |ps| && ps[i].min <= ps[i].max ==> ps[i].min <= c.values[i] <= ps[i].max
  {
    if ps == [] then Clamps([], [])
    else
      var p := ps[0];
      var first := Limit(argv[p.pos].num, p.min, p.max);
      var rest := ClampAll(argv, ps[1..]);
      Clamps([first.value] + rest.values, Warned(first, p.name, p.min, p.max) + rest.warnings)
  }

  /** The parameters whose argument lies outside their range, in argument order. */
  function Exceeded(argv: seq<Arg>, ps: seq<Param>): (e: seq<Param>)
    requires forall p :: p in ps ==> p.pos < |argv|
    ensures |e| <= |ps|
    ensures forall p :: p in e ==> p in ps && !ArgInRange(argv, p)
    ensures forall i :: 0 <= i < |ps| && !ArgInRange(argv, ps[i]) ==> ps[i] in e
  {
    if ps == [] then []
    else (if ArgInRange(argv, ps[0]) then [] else [ps[0]]) + Exceeded(argv, ps[1..])
  }

  /** The warning lines for the given parameters, one each, in order. */
  function WarningsFor(e: seq<Param>): (ws: seq<Warning>)
    ensures |ws| == |e|
    ensures forall j :: 0 <= j < |e| ==> ws[j] == Warning(e[j].name, e[j].min, e[j].max)
  {
    if e == [] then [] else [Warning(e[0].name, e[0].min, e[0].max)] + WarningsFor(e[1..])
  }

  /** The clamps print one warning for each parameter whose argument was out of
      range, naming it and its range, in argument order. */
  lemma {:induction false} ClampAllWarnings(argv: seq<Arg>, ps: seq<Param>)
    requires forall p :: p in ps ==> p.pos < |argv|
    ensures ClampAll(argv, ps).warnings == WarningsFor(Exceeded(argv, ps))
  {
    if ps != [] {
      var p, rest := ps[0], ps[1..];
      ClampAllWarnings(argv, rest);
      var w := Warned(Limit(argv[p.pos].num, p.min, p.max), p.name, p.min, p.max);
      var er := Exceeded(argv, rest);
      assert ClampAll(argv, ps).warnings == w + ClampAll(argv, rest).warnings;
      if ArgInRange(argv, p) {
        assert w == [] && Exceeded(argv, ps) == er;
      } else {
        var e := [p] + er;
        assert Exceeded(argv, ps) == e && e[0] == p && e[1..] == er;
        assert w == [Warning(p.name, p.min, p.max)];
      }
    }
  }

  /** The clamps print nothing exactly when every argument already lies in its
      range. */
  lemma ClampAllQuiet(argv: seq<Arg>, ps: seq<Param>)
    requires forall p :: p in ps ==> p.pos < |argv|
    ensures ClampAll(argv, ps).warnings == [] <==> forall i :: 0 <= i < |ps| ==> ArgInRange(argv, ps[i])
  {
    ClampAllWarnings(argv, ps);
    var e := Exceeded(argv, ps);
    if e != [] {
      assert e[0] in e;
    }
  }

  /** The body of branch `b` once its parameters are clamped to `vs`: the
      command it runs, with the words it interprets. */
  function Build(b: nat, argv: seq<Arg>, vs: seq<int>): (c: Command)
    requires b < RuleCount && Allows(RuleOf(b).arity, |argv|) && |vs| == |RuleOf(b).params|
    ensures BranchOf(c) == b
    ensures Values(c) == vs
  {
    if b < 13 then BuildLow(b, argv, vs) else BuildHigh(b, argv, vs)
  }

  function BuildLow(b: nat, argv: seq<Arg>, vs: seq<int>): (c: Command)
    requires b < 13 && Allows(RuleOf(b).arity, |argv|) && |vs| == |RuleOf(b).params|
    ensures BranchOf(c) == b
    ensures Values(c) == vs
  {
    if b == 0 then Help
    else if b == 1 then SetDout(vs[0])
    else if b == 2 then GetDin
    else if b == 3 then GetDinBit(vs[0])
    else if b == 4 then GetAin(vs[0])
    else if b == 5 then GetAinScaled(vs[0], ScaleOf(vs[0], argv[3].text))
    else if b == 6 then SetAiControl(vs[0], vs[1])
    else if b == 7 then SetAout(vs[0], vs[1])
    else if b == 8 then SetRelays(vs[0])
    else if b == 9 then GetGpio
    else if b == 10 then SetGpio(vs[0])
    else if b == 11 then SetGpioControl(vs[0])
    else ReadTemp(vs[0], SensorOf(argv))
  }

  function BuildHigh(b: nat, argv: seq<Arg>, vs: seq<int>): (c: Command)
    requires 13 <= b < RuleCount && Allows(RuleOf(b).arity, |argv|) && |vs| == |RuleOf(b).params|
    ensures BranchOf(c) == b
    ensures Values(c) == vs
  {
    if b == 13 then ReadHum(vs[0], SensorOf(argv))
    else if b == 14 then SetServo(vs[0], vs[1])
    else if b == 15 then SetPwm(vs[0], vs[1])
    else if b == 16 then SetPwmControl(vs[0], vs[1], vs[2])
    else if b == 17 then SwitchSerialMode(ModeOf(argv[2].text))
    else if b == 18 then SerialWriteChar(FirstChar(argv[2].text))
    else if b == 19 then SerialWriteString(Texts(argv)[2..])
    else if b == 20 then SerialRead
    else if b == 21 then SetUcControl(vs[0])
    else if b == 22 then ResetUc
    else if b == 23 then GetUcStatus
    else if b == 24 then GetUcVersion
    else SetRaspStatus(vs[0])
  }

  /** The words a branch interprets come from the positions the source reads. */
  lemma BuildWords(b: nat, argv: seq<Arg>, vs: seq<int>)
    requires b < RuleCount && Allows(RuleOf(b).arity, |argv|) && |vs| == |RuleOf(b).params|
    ensures var c := Build(b, argv, vs);
            (c.GetAinScaled? ==> |argv| == 4 && c.scale == ScaleOf(c.channel, argv[3].text)) &&
            (c.ReadTemp? ==> (|argv| == 3 || |argv| == 4) && c.sensor == SensorOf(argv)) &&
            (c.ReadHum? ==> (|argv| == 3 || |argv| == 4) && c.sensor == SensorOf(argv)) &&
            (c.SwitchSerialMode? ==> |argv| == 3 && c.mode == ModeOf(argv[2].text)) &&
            (c.SerialWriteChar? ==> |argv| == 3 && c.c == FirstChar(argv[2].text)) &&
            (c.SerialWriteString? ==> |argv| >= 3 && c.tokens == Texts(argv)[2..])
  {
  }

  /** `main`'s decision: help for a bare invocation; otherwise the first branch
      whose test holds, with its parameters clamped, or the wrong-command echo. */
  function Dispatch(argv: seq<Arg>): (o: Outcome)
    ensures o.cmd == Help <==> |argv| <= 1 || argv[1].text == "-h"
    ensures |argv| >= 2 ==> BranchOf(o.cmd) == Select(FlagOf(argv[1].text), |argv|)
    ensures o.cmd.WrongCommand? ==> o.warnings == [] && o.cmd.words == Texts(argv)
  {
    if |argv| <= 1 then Outcome([], Help)
    else
      var b := Select(FlagOf(argv[1].text), |argv|);
      if b == RuleCount then Outcome([], WrongCommand(Texts(argv)))
      else
        RulesWellFormed();
        var c := ClampAll(argv, RuleOf(b).params);
        Outcome(c.warnings, Build(b, argv, c.values))
  }

  // ---------------------------------------------------------------------------
  // Properties of the decision.

  /** What the branches need of their arguments: a bit number in 0..7 for
      `-di BIT`, and each word read from the position the source reads it at. */
  lemma DispatchWords(argv: seq<Arg>)
    ensures var o := Dispatch(argv);
            (o.cmd.Help? ==> o.warnings == []) &&
            (o.cmd.GetDinBit? ==> 0 <= o.cmd.bit <= 7) &&
            (o.cmd.GetAinScaled? ==> |argv| == 4 && o.cmd.scale == ScaleOf(o.cmd.channel, argv[3].text)) &&
            (o.cmd.ReadTemp? ==> (|argv| == 3 || |argv| == 4) && o.cmd.sensor == SensorOf(argv)) &&
            (o.cmd.ReadHum? ==> (|argv| == 3 || |argv| == 4) && o.cmd.sensor == SensorOf(argv)) &&
            (o.cmd.SwitchSerialMode? ==> |argv| == 3 && o.cmd.mode == ModeOf(argv[2].text)) &&
            (o.cmd.SerialWriteChar? ==> |argv| == 3 && o.cmd.c == FirstChar(argv[2].text)) &&
            (o.cmd.SerialWriteString? ==> |argv| >= 3 && o.cmd.tokens == Texts(argv)[2..])
  {
    if |argv| >= 2 {
      var b := Select(FlagOf(argv[1].text), |argv|);
      if b < RuleCount {
        RulesWellFormed();
        BuildWords(b, argv, ClampAll(argv, RuleOf(b).params).values);
      }
    }
  }

  /** First match: the branch `main` takes for a flag and a word count is the
      first rule of the table that accepts them; when no rule does, and only
      then, it is the wrong-command branch. */
  lemma SelectIsFirstMatch(flag: Flag, argc: nat)
    ensures var b := Select(flag, argc);
            (forall k :: 0 <= k < b ==> !Accepts(RuleOf(k), flag, argc)) &&
            (b < RuleCount ==> Accepts(RuleOf(b), flag, argc))
  {
    var b := Select(flag, argc);
    forall k | 0 <= k < RuleCount && Accepts(RuleOf(k), flag, argc)
      ensures b <= k
    {
      // One rule at a time: rule k accepts only its own flag and counts.
      if k == 0 { }
      else if k == 1 { }
      else if k == 2 { }
      else if k == 3 { }
      else if k == 4 { }
      else if k == 5 { }
      else if k == 6 { }
      else if k == 7 { }
      else if k == 8 { }
      else if k == 9 { }
      else if k == 10 { }
      else if k == 11 { }
      else if k == 12 { }
      else if k == 13 { }
      else if k == 14 { }
      else if k == 15 { }
      else if k == 16 { }
      else if k == 17 { }
      else if k == 18 { }
      else if k == 19 { }
      else if k == 20 { }
      else if k == 21 { }
      else if k == 22 { }
      else if k == 23 { }
      else if k == 24 { }
      else if k == 25 { }
    }
  }

  /** The command `main` runs is the first rule accepting `argv[1]` and `argc`;
      it reports a wrong command exactly when no rule accepts them. */
  lemma DispatchFirstMatch(argv: seq<Arg>)
    requires |argv| >= 2
    ensures var flag, b := FlagOf(argv[1].text), BranchOf(Dispatch(argv).cmd);
            (forall k :: 0 <= k < b && k < RuleCount ==> !Accepts(RuleOf(k), flag, |argv|)) &&
            (b < RuleCount ==> Accepts(RuleOf(b), flag, |argv|)) &&
            (Dispatch(argv).cmd.WrongCommand? <==> forall k :: 0 <= k < RuleCount ==> !Accepts(RuleOf(k), flag, |argv|))
  {
    var flag := FlagOf(argv[1].text);
    assert BranchOf(Dispatch(argv).cmd) == Select(flag, |argv|);
    SelectIsFirstMatch(flag, |argv|);
  }

  /** Every numeric argument of the chosen branch is clamped by `limitPar` into
      its rule's range, in argument order; one warning is printed for each
      argument that was out of range, naming that parameter and its range, in
      argument order, and none when every argument was in range. */
  lemma DispatchClamps(argv: seq<Arg>)
    requires |argv| >= 2
    requires BranchOf(Dispatch(argv).cmd) < RuleCount
    ensures var o := Dispatch(argv);
            var ps := RuleOf(BranchOf(o.cmd)).params;
            (forall p :: p in ps ==> p.pos < |argv|) &&
            |Values(o.cmd)| == |ps| &&
            (forall i :: 0 <= i < |ps| ==> Values(o.cmd)[i] == Limit(argv[ps[i].pos].num, ps[i].min, ps[i].max).value) &&
            (forall i :: 0 <= i < |ps| ==> ps[i].min <= Values(o.cmd)[i] <= ps[i].max) &&
            o.warnings == WarningsFor(Exceeded(argv, ps)) &&
            (o.warnings == [] <==> forall i :: 0 <= i < |ps| ==> ArgInRange(argv, ps[i]))
  {
    RulesWellFormed();
    var ps := RuleOf(BranchOf(Dispatch(argv).cmd)).params;
    ClampAllWarnings(argv, ps);
    ClampAllQuiet(argv, ps);
  }

  /** `-ao 5 2000` is out of range twice: two warnings, the channel's first. */
  lemma AoutTwoWarnings()
    ensures var argv := [Arg("pixtendtool", 0), Arg("-ao", 0), Arg("5", 5), Arg("2000", 2000)];
            Dispatch(argv) == Outcome([Warning("CHANNEL", 0, 1), Warning("VALUE", 0, 1023)], SetAout(1, 1023))
  {
    var argv := [Arg("pixtendtool", 0), Arg("-ao", 0), Arg("5", 5), Arg("2000", 2000)];
    FlagOfSpelling(Ao);
    assert Select(Ao, 4) == 7;
    var c := ClampAll(argv, RuleOf(7).params);
    assert Dispatch(argv) == Outcome(c.warnings, Build(7, argv, c.values));
  }

  /** `-di` reads the whole byte with no further word, one bit with one further
      word (the bit number clamped to 0..7), and is a wrong command otherwise. */
  lemma DispatchDin(argv: seq<Arg>)
    requires |argv| >= 2 && argv[1].text == "-di"
    ensures |argv| == 2 ==> Dispatch(argv) == Outcome([], GetDin)
    ensures |argv| == 3 ==>
              var c := Limit(argv[2].num, 0, 7);
              Dispatch(argv) == Outcome(Warned(c, "BIT", 0, 7), GetDinBit(c.value))
    ensures |argv| > 3 ==> Dispatch(argv).cmd == WrongCommand(Texts(argv))
  {
    FlagOfSpelling(Di);
    if |argv| == 2 || |argv| == 3 {
      var b := |argv|;
      assert Select(Di, |argv|) == b;
      var c := ClampAll(argv, RuleOf(b).params);
      assert Dispatch(argv) == Outcome(c.warnings, Build(b, argv, c.values));
    }
  }

  /** `-tr` takes a channel clamped to 0..3 and an optional sensor type, and
      nothing else. */
  lemma DispatchTemperature(argv: seq<Arg>)
    requires |argv| >= 2 && argv[1].text == "-tr"
    ensures |argv| == 3 || |argv| == 4 ==>
              var c := Limit(argv[2].num, 0, 3);
              Dispatch(argv) == Outcome(Warned(c, "CHANNEL", 0, 3), ReadTemp(c.value, SensorOf(argv)))
    ensures |argv| == 2 || |argv| > 4 ==> Dispatch(argv).cmd == WrongCommand(Texts(argv))
  {
    FlagOfSpelling(Tr);
    if |argv| == 3 || |argv| == 4 {
      assert Select(Tr, |argv|) == 12;
      var c := ClampAll(argv, RuleOf(12).params);
      assert Dispatch(argv) == Outcome(c.warnings, Build(12, argv, c.values));
    }
  }

  /** `-hr` takes a channel clamped to 0..3 and an optional sensor type, and
      nothing else. */
  lemma DispatchHumidity(argv: seq<Arg>)
    requires |argv| >= 2 && argv[1].text == "-hr"
    ensures |argv| == 3 || |argv| == 4 ==>
              var c := Limit(argv[2].num, 0, 3);
              Dispatch(argv) == Outcome(Warned(c, "CHANNEL", 0, 3), ReadHum(c.value, SensorOf(argv)))
    ensures |argv| == 2 || |argv| > 4 ==> Dispatch(argv).cmd == WrongCommand(Texts(argv))
  {
    FlagOfSpelling(Hr);
    if |argv| == 3 || |argv| == 4 {
      assert Select(Hr, |argv|) == 13;
      var c := ClampAll(argv, RuleOf(13).params);
      assert Dispatch(argv) == Outcome(c.warnings, Build(13, argv, c.values));
    }
  }

  /** `-sws` takes every word after it, however many there are, and clamps
      nothing; without a word it is a wrong command. */
  lemma DispatchSerialString(argv: seq<Arg>)
    requires |argv| >= 2 && argv[1].text == "-sws"
    ensures |argv| >= 3 ==> Dispatch(argv) == Outcome([], SerialWriteString(Texts(argv)[2..]))
    ensures |argv| == 2 ==> Dispatch(argv).cmd.WrongCommand?
  {
    FlagOfSpelling(Sws);
    if |argv| >= 3 {
      assert Select(Sws, |argv|) == 19;
      var c := ClampAll(argv, RuleOf(19).params);
      assert Dispatch(argv) == Outcome(c.warnings, Build(19, argv, c.values));
    }
  }

  /** Every branch but those of `-h`, `-tr`, `-hr` and `-sws` demands one exact
      word count. */
  lemma ExactCounts()
    ensures forall k :: 0 <= k < RuleCount && RuleOf(k).flag !in {H, Tr, Hr, Sws} ==> RuleOf(k).arity.Exactly?
  {
  }
}
