/**
 * The unit normaliser: a magnitude and a unit token become a magnitude in
 * one of the four base units, with the milli- prefixes divided out.
 */
module Units {
  import opened Wrappers
  import opened Errors
  import Decimal

  /** Current (amperes), C-rate, voltage (volts) and power (watts). */
  datatype Unit = A | C | V | W

  /** Only current and power have a milli- form in this grammar. */
  datatype Prefix = NoPrefix | Milli

  /** A magnitude in a base unit: the electrical part of a step, or a termination event. */
  datatype Quantity = Quantity(magnitude: real, unit: Unit)

  function Scale(p: Prefix): real {
    if p == Milli then 1.0 / 1000.0 else 1.0
  }

  predicate Allowed(u: Unit, p: Prefix) {
    p == Milli ==> u == A || u == W
  }

  /** The token that names a base unit with a prefix: "A", "mA", "C", "V", "W", "mW". */
  function Symbol(u: Unit, p: Prefix): string
    requires Allowed(u, p)
  {
    var base := match u
      case A => "A"
      case C => "C"
      case V => "V"
      case W => "W";
    if p == Milli then "m" + base else base
  }

  /** The six unit tokens the grammar accepts; matching is case-sensitive. */
  predicate IsUnitToken(t: string) {
    t == "A" || t == "mA" || t == "C" || t == "V" || t == "W" || t == "mW"
  }

  /** Recognises a unit token; anything else is an unknown unit. */
  function ParseUnit(t: string): (r: Result<(Unit, Prefix), Err>)
    ensures r.Success? <==> IsUnitToken(t)
    ensures r.Success? ==> Allowed(r.value.0, r.value.1) && Symbol(r.value.0, r.value.1) == t
    ensures r.Failure? ==> r.error == UnknownUnit
  {
    if t == "A" then Success((A, NoPrefix))
    else if t == "mA" then Success((A, Milli))
    else if t == "C" then Success((C, NoPrefix))
    else if t == "V" then Success((V, NoPrefix))
    else if t == "W" then Success((W, NoPrefix))
    else if t == "mW" then Success((W, Milli))
    else Failure(UnknownUnit)
  }

  /** Reading a unit's own symbol gives back that unit and prefix. */
  lemma ParseSymbol(u: Unit, p: Prefix)
    requires Allowed(u, p)
    ensures ParseUnit(Symbol(u, p)) == Success((u, p))
  {
    if p == Milli {
      assert "m" + "A" == "mA" && "m" + "W" == "mW";
    }
  }

  /**
   * Reads `<number> <unit>`. The unit is checked first, so a bad unit is
   * reported even when the number is bad too. No sign is applied here.
   */
  function ParseQuantity(number: string, unit: string): (r: Result<Quantity, Err>)
    ensures r.Success? <==> IsUnitToken(unit) && Decimal.IsLiteral(number)
    ensures !IsUnitToken(unit) ==> r == Failure(UnknownUnit)
    ensures IsUnitToken(unit) && !Decimal.IsLiteral(number) ==> r == Failure(InvalidNumber)
    ensures r.Success? ==> r.value.magnitude >= 0.0
    ensures Decimal.IsLiteral(number) ==>
      var x := Decimal.Parse(number).value;
      && (unit == "A" ==> r == Success(Quantity(x, A)))
      && (unit == "mA" ==> r == Success(Quantity(x / 1000.0, A)))
      && (unit == "C" ==> r == Success(Quantity(x, C)))
      && (unit == "V" ==> r == Success(Quantity(x, V)))
      && (unit == "W" ==> r == Success(Quantity(x, W)))
      && (unit == "mW" ==> r == Success(Quantity(x / 1000.0, W)))
  {
    var (u, p) :- ParseUnit(unit);
    match Decimal.Parse(number)
    case None => Failure(InvalidNumber)
    case Some(x) => Success(Quantity(x * Scale(p), u))
  }
}
