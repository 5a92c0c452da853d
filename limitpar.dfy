/** The parameter clamp `limitPar` of pixtendtool: it forces an integer argument
    into an inclusive range, reports on which side it clamped, and prints a
    warning naming the parameter whenever it clamped. */
module LimitPar {

  /** The warning line "Warning: <par> range exceeded. Allowed range: [<min> - <max>]". */
  datatype Warning = Warning(par: string, min: int, max: int)

  /** The clamped value and the return code: 0 unchanged, 1 raised to `min`,
      2 lowered to `max`. */
  datatype Clamped = Clamped(value: int, code: int)

  /** What a call of `limitPar` computes, stated by cases on where the input lies.
      With an inverted range (`min > max`) the second test of the source always
      fires, so the upper bound wins. */
  function Limit(value: int, min: int, max: int): (c: Clamped)
    ensures c.code == 0 || c.code == 1 || c.code == 2
    ensures c.code == 0 <==> min <= value <= max
    ensures c.code == 0 ==> c.value == value
    ensures c.code == 1 ==> c.value == min && value < min <= max
    ensures c.code == 2 ==> c.value == max
    ensures value < min <= max ==> c == Clamped(min, 1)
    ensures (value > max || min > max) ==> c == Clamped(max, 2)
    ensures min <= max ==> min <= c.value <= max
  {
    if min <= value <= max then Clamped(value, 0)
    else if value < min && min <= max then Clamped(min, 1)
    else Clamped(max, 2)
  }

  /** The warnings a call prints: one exactly when it clamped. */
  function Warned(c: Clamped, par: string, min: int, max: int): (w: seq<Warning>)
    ensures |w| <= 1
    ensures w != [] <==> c.code != 0
    ensures w != [] ==> w[0] == Warning(par, min, max)
  {
    if c.code != 0 then [Warning(par, min, max)] else []
  }

  /** `limitPar(&value, min, max, par)`: the two sequential tests of the source,
      each overwriting the value and the return code, then the warning. The
      caller's variable after the call is `newValue`; `printed` is what went to
      standard output. */
  method LimitPar(value: int, min: int, max: int, par: string)
    returns (newValue: int, ret: int, printed: seq<Warning>)
    ensures Clamped(newValue, ret) == Limit(value, min, max)
    ensures min <= max ==> min <= newValue <= max
    ensures ret == 0 <==> min <= value <= max && newValue == value
    ensures ret == 1 <==> value < min && min <= max && newValue == min
    ensures ret == 2 <==> (value > max || min > max) && newValue == max
    ensures printed == Warned(Clamped(newValue, ret), par, min, max)
  {
    newValue := value;
    ret := 0;
    if newValue < min {
      newValue := min;
      ret := 1;
    }
    if newValue > max {
      newValue := max;
      ret := 2;
    }
    printed := [];
    if ret != 0 {
      printed := [Warning(par, min, max)];
    }
  }

  /** Clamping twice changes nothing the second time: the second call returns 0,
      keeps the value and prints nothing. */
  lemma LimitIdempotent(value: int, min: int, max: int, par: string)
    requires min <= max
    ensures var c := Limit(value, min, max);
            Limit(c.value, min, max) == Clamped(c.value, 0) &&
            Warned(Limit(c.value, min, max), par, min, max) == []
  {
  }

  /** With an inverted range every input that is not already "inside" ends at
      `max` with code 2; nothing is ever inside. */
  lemma LimitInvertedRange(value: int, min: int, max: int)
    requires min > max
    ensures Limit(value, min, max) == Clamped(max, 2)
  {
  }
}
