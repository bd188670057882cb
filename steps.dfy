/**
 * The step parser: one instruction string such as
 * "Charge at 200 mA for 45 minutes" or "Hold at 4.1 V until 50 mA"
 * becomes an operating condition and an optional termination event.
 */
module Steps {
  import opened Wrappers
  import opened Errors
  import opened Tokens
  import opened Units
  import Durations

  /** The actions that take an "at" clause; Rest is recognised separately. */
  datatype Action = Discharge | Charge | Hold

  function ActionWord(a: Action): string {
    match a
    case Discharge => "Discharge"
    case Charge => "Charge"
    case Hold => "Hold"
  }

  function ParseAction(w: string): (r: Option<Action>)
    ensures r.Some? ==> ActionWord(r.value) == w
    ensures r.None? <==> w != "Discharge" && w != "Charge" && w != "Hold"
  {
    if w == "Discharge" then Some(Discharge)
    else if w == "Charge" then Some(Charge)
    else if w == "Hold" then Some(Hold)
    else None
  }

  /** The sign convention: charging negates the magnitude, discharging and holding keep it. */
  function Signed(a: Action, x: real): (r: real)
    ensures r == x || r == -x
    ensures x != 0.0 ==> (r == -x <==> a == Charge)
  {
    if a == Charge then -x else x
  }

  /** `(magnitude, unit, duration in seconds or None)`. */
  datatype OperatingCondition = OperatingCondition(magnitude: real, unit: Unit, duration: Option<real>)

  /** One parsed instruction: its condition and, for an "until" step, the event that ends it. */
  datatype Step = Step(condition: OperatingCondition, event: Option<Quantity>)

  datatype Ending = For | Until

  function Keyword(e: Ending): string {
    if e == For then "for" else "until"
  }

  /** An instruction cut at its keyword: the words before it, which keyword, the words after it. */
  datatype Clauses = Clauses(control: seq<string>, ending: Ending, rest: seq<string>)

  /** Index of the first occurrence of `w` in `ws`, or `|ws|` when it does not occur. */
  function IndexOf(ws: seq<string>, w: string): (k: nat)
    ensures k <= |ws|
    ensures k < |ws| ==> ws[k] == w
    ensures w !in ws[..k]
  {
    if ws == [] then 0
    else if ws[0] == w then 0
    else
      var k := 1 + IndexOf(ws[1..], w);
      assert ws[..k] == [ws[0]] + ws[1..][..k - 1];
      k
  }

  /**
   * Finds the shape of an instruction: cut at the first "for" if there is
   * one, otherwise at the first "until"; with neither there is no shape.
   */
  function SplitClauses(ws: seq<string>): (r: Option<Clauses>)
    ensures r.None? <==> "for" !in ws && "until" !in ws
    ensures r.Some? ==> ws == r.value.control + [Keyword(r.value.ending)] + r.value.rest
    ensures r.Some? ==> Keyword(r.value.ending) !in r.value.control && "for" !in r.value.control
    ensures r.Some? ==> (r.value.ending == Until <==> "for" !in ws)
  {
    var f := IndexOf(ws, "for");
    if f < |ws| then
      assert ws == ws[..f] + [ws[f]] + ws[f + 1..];
      Some(Clauses(ws[..f], For, ws[f + 1..]))
    else
      assert ws[..f] == ws;
      var u := IndexOf(ws, "until");
      if u < |ws| then
        assert ws == ws[..u] + [ws[u]] + ws[u + 1..];
        assert "for" !in ws[..u] by {
          forall i | 0 <= i < u ensures ws[..u][i] != "for" { assert ws[..u][i] == ws[i]; }
        }
        Some(Clauses(ws[..u], Until, ws[u + 1..]))
      else
        assert ws[..u] == ws;
        None
  }

  /** An "at" follows the first word: the instruction claims an action clause. */
  predicate HasAt(c: seq<string>) {
    |c| >= 2 && "at" in c[1..]
  }

  /**
   * The words before the keyword: "Rest" (any words between it and the
   * keyword are ignored, since the bare-Rest shape needs no "at" clause) or
   * `<Action> at <number> <unit>`. The action's sign is applied here. When
   * an "at" follows the first word, the words before it must be exactly one
   * action, otherwise the action is unrecognised; with no "at" the
   * instruction has no recognisable shape.
   */
  function ParseControl(c: seq<string>): (r: Result<Quantity, Err>)
    ensures |c| > 0 && c[0] == "Rest" ==> r == Success(Quantity(0.0, A))
    ensures (c == [] || (c[0] != "Rest" && !HasAt(c))) ==> r == Failure(UnparsableInstruction)
    ensures |c| > 0 && c[0] != "Rest" && HasAt(c) && !(c[1] == "at" && ParseAction(c[0]).Some?) ==>
      r == Failure(UnrecognizedAction)
    ensures |c| >= 2 && c[1] == "at" && ParseAction(c[0]).Some? && |c| != 4 ==> r == Failure(UnparsableInstruction)
    ensures |c| == 4 && c[1] == "at" && ParseAction(c[0]).Some? ==>
      match ParseQuantity(c[2], c[3])
      case Failure(e) => r == Failure(e)
      case Success(q) => r == Success(Quantity(Signed(ParseAction(c[0]).value, q.magnitude), q.unit))
    ensures r.Failure? ==> IsInstructionError(r.error) && r.error != MalformedInstruction
  {
    if |c| > 0 && c[0] == "Rest" then Success(Quantity(0.0, A))
    else if HasAt(c) then
      if c[1] == "at" && ParseAction(c[0]).Some? then
        if |c| != 4 then Failure(UnparsableInstruction)
        else
          var q :- ParseQuantity(c[2], c[3]);
          Success(Quantity(Signed(ParseAction(c[0]).value, q.magnitude), q.unit))
      else Failure(UnrecognizedAction)
    else Failure(UnparsableInstruction)
  }

  /** The words after "until": `<number> <unit>`, a threshold reported as written, never sign-flipped. */
  function ParseEvent(words: seq<string>): (r: Result<Quantity, Err>)
    ensures |words| != 2 ==> r == Failure(UnparsableInstruction)
    ensures |words| == 2 ==> r == ParseQuantity(words[0], words[1])
    ensures r.Success? ==> r.value.magnitude >= 0.0
  {
    if |words| != 2 then Failure(UnparsableInstruction) else ParseQuantity(words[0], words[1])
  }

  /**
   * Completes a step from its control quantity and the words after the
   * keyword: a duration for "for", a threshold event for "until".
   */
  function ParseEnding(q: Quantity, e: Ending, rest: seq<string>): (r: Result<Step, Err>)
    ensures e == For ==>
      (r.Success? <==> Durations.ParseDuration(rest).Success?) &&
      (r.Failure? ==> r.error == Durations.ParseDuration(rest).error)
    ensures e == Until ==>
      (r.Success? <==> ParseEvent(rest).Success?) && (r.Failure? ==> r.error == ParseEvent(rest).error)
    ensures r.Success? ==> r.value.condition.magnitude == q.magnitude && r.value.condition.unit == q.unit
    ensures r.Success? ==> (r.value.event.Some? <==> e == Until) && (r.value.condition.duration.Some? <==> e == For)
    ensures r.Success? && e == For ==> Durations.ParseDuration(rest) == Success(r.value.condition.duration.value)
    ensures r.Success? && e == Until ==> ParseEvent(rest) == Success(r.value.event.value)
    ensures r.Failure? ==> IsInstructionError(r.error) && r.error != MalformedInstruction
  {
    match e
    case For =>
      var d :- Durations.ParseDuration(rest);
      Success(Step(OperatingCondition(q.magnitude, q.unit, Some(d)), None))
    case Until =>
      var t :- ParseEvent(rest);
      Success(Step(OperatingCondition(q.magnitude, q.unit, None), Some(t)))
  }

  /** The instruction starts with the word "Rest", whose quantity is always 0 A. */
  predicate IsRest(control: seq<string>) {
    |control| > 0 && control[0] == "Rest"
  }

  /** "Rest at <n> <unit>": Rest written in the event shape; the quantity is forced to 0 A. */
  predicate IsRestAt(control: seq<string>) {
    |control| == 4 && control[0] == "Rest" && control[1] == "at"
  }

  /**
   * Parses an instruction once it is cut at its keyword: the control words
   * first, then the ending. Rest cut at "until" has a shape only when it is
   * written `Rest at <n> <unit>` (the event shape); otherwise it is the bare
   * Rest form, which takes only "for".
   */
  function ParseClauses(cl: Clauses): (r: Result<Step, Err>)
    ensures IsRest(cl.control) && !IsRestAt(cl.control) && cl.ending == Until ==> r == Failure(UnparsableInstruction)
    ensures !(IsRest(cl.control) && !IsRestAt(cl.control) && cl.ending == Until) ==>
      match ParseControl(cl.control)
      case Failure(e) => r == Failure(e)
      case Success(q) => r == ParseEnding(q, cl.ending, cl.rest)
    ensures r.Failure? ==> IsInstructionError(r.error) && r.error != MalformedInstruction
    ensures r.Success? ==> (r.value.event.Some? <==> cl.ending == Until)
    ensures r.Success? ==> (r.value.condition.duration.Some? <==> cl.ending == For)
    ensures r.Success? && r.value.condition.duration.Some? ==> r.value.condition.duration.value >= 0.0
  {
    if IsRest(cl.control) && !IsRestAt(cl.control) && cl.ending == Until then Failure(UnparsableInstruction)
    else
      var q :- ParseControl(cl.control);
      ParseEnding(q, cl.ending, cl.rest)
  }

  /** Parses the words of one instruction. */
  function ParseWords(ws: seq<string>): (r: Result<Step, Err>)
    ensures r == Failure(MalformedInstruction) <==> "for" !in ws && "until" !in ws
    ensures r.Failure? ==> IsInstructionError(r.error)
    ensures r.Success? ==> (r.value.event.Some? <==> r.value.condition.duration.None?)
    ensures r.Success? ==> (r.value.event.Some? <==> "for" !in ws)
    ensures r.Success? && r.value.condition.duration.Some? ==> r.value.condition.duration.value >= 0.0
  {
    match SplitClauses(ws)
    case None => Failure(MalformedInstruction)
    case Some(cl) => ParseClauses(cl)
  }

  /** Parses one instruction string. */
  function ParseStep(s: string): (r: Result<Step, Err>)
    ensures r == Failure(MalformedInstruction) <==> "for" !in Words(s) && "until" !in Words(s)
    ensures r.Failure? ==> IsInstructionError(r.error)
    ensures r.Success? ==> (r.value.event.Some? <==> r.value.condition.duration.None?)
    ensures r.Success? ==> (r.value.event.Some? <==> "for" !in Words(s))
  {
    ParseWords(Words(s))
  }
}
