/**
 * What the step parser promises for whole families of instructions: the
 * sign convention of the actions, Rest, and the three instruction shapes.
 */
module StepProperties {
  import opened Wrappers
  import opened Errors
  import opened Tokens
  import opened Units
  import opened Steps
  import Durations
  import Decimal

  /** A step with the magnitude of its operating condition negated; errors pass through. */
  function Negated(r: Result<Step, Err>): Result<Step, Err> {
    match r
    case Failure(_) => r
    case Success(st) => Success(st.(condition := st.condition.(magnitude := -st.condition.magnitude)))
  }

  lemma IndexOfCons(x: string, ws: seq<string>, w: string)
    requires x != w
    ensures IndexOf([x] + ws, w) == 1 + IndexOf(ws, w)
  {
    assert ([x] + ws)[1..] == ws;
  }

  /** The first occurrence is unique: any index with the properties of `IndexOf`'s result is that result. */
  lemma IndexOfIs(ws: seq<string>, w: string, k: nat)
    requires k <= |ws| && (k < |ws| ==> ws[k] == w)
    requires forall i :: 0 <= i < k ==> ws[i] != w
    ensures IndexOf(ws, w) == k
  {
  }

  /** A leading word that is not a keyword only lengthens the words before the keyword. */
  lemma SplitClausesCons(x: string, ws: seq<string>)
    requires x != "for" && x != "until"
    ensures SplitClauses(ws).None? ==> SplitClauses([x] + ws).None?
    ensures SplitClauses(ws).Some? ==>
      var cl := SplitClauses(ws).value;
      SplitClauses([x] + ws) == Some(Clauses([x] + cl.control, cl.ending, cl.rest))
  {
    var xs := [x] + ws;
    IndexOfCons(x, ws, "for");
    IndexOfCons(x, ws, "until");
    var f := IndexOf(ws, "for");
    var u := IndexOf(ws, "until");
    assert xs[..1 + f] == [x] + ws[..f];
    if f == |ws| {
      assert xs[..1 + u] == [x] + ws[..u];
      if u < |ws| {
        assert xs[1 + u + 1..] == ws[u + 1..];
      }
    } else {
      assert xs[1 + f + 1..] == ws[f + 1..];
    }
  }

  /** The quantity with its magnitude negated; errors pass through. */
  function NegatedControl(r: Result<Quantity, Err>): Result<Quantity, Err> {
    if r.Success? then Success(Quantity(-r.value.magnitude, r.value.unit)) else r
  }

  /** What the words after an action word give, before the action's sign is applied. */
  function UnsignedControl(c: seq<string>): Result<Quantity, Err> {
    if c != [] && c[0] == "at" then
      if |c| != 3 then Failure(UnparsableInstruction) else ParseQuantity(c[1], c[2])
    else if "at" in c then Failure(UnrecognizedAction)
    else Failure(UnparsableInstruction)
  }

  /** The quantity signed by the action; errors pass through. */
  function SignedBy(a: Action, r: Result<Quantity, Err>): Result<Quantity, Err> {
    if r.Success? then Success(Quantity(Signed(a, r.value.magnitude), r.value.unit)) else r
  }

  /** The control words of an action followed by `c`: the same for every action up to the sign. */
  lemma ControlOfActionWord(a: Action, c: seq<string>)
    ensures ParseControl([ActionWord(a)] + c) == SignedBy(a, UnsignedControl(c))
  {
    var ac := [ActionWord(a)] + c;
    assert ac[0] == ActionWord(a) && ac[1..] == c;
    assert ParseAction(ac[0]) == Some(a);
    if c != [] {
      assert ac[1] == c[0];
      if |c| == 3 {
        assert ac[2] == c[1] && ac[3] == c[2];
      }
    }
  }

  /** Charge signs a result as the negation of Discharge's; Hold signs it as Discharge does. */
  lemma SignedByActions(r: Result<Quantity, Err>)
    ensures SignedBy(Charge, r) == NegatedControl(SignedBy(Discharge, r))
    ensures SignedBy(Hold, r) == SignedBy(Discharge, r)
  {
  }

  /** For any control words, Charge gives the Discharge quantity negated. */
  lemma ChargeControlNegates(c: seq<string>)
    ensures ParseControl(["Charge"] + c) == NegatedControl(ParseControl(["Discharge"] + c))
  {
    ControlOfActionWord(Discharge, c);
    ControlOfActionWord(Charge, c);
    SignedByActions(UnsignedControl(c));
    assert ActionWord(Discharge) == "Discharge" && ActionWord(Charge) == "Charge";
  }

  /** For any control words, Hold gives the same quantity as Discharge. */
  lemma HoldControlKeeps(c: seq<string>)
    ensures ParseControl(["Hold"] + c) == ParseControl(["Discharge"] + c)
  {
    ControlOfActionWord(Discharge, c);
    ControlOfActionWord(Hold, c);
    SignedByActions(UnsignedControl(c));
    assert ActionWord(Discharge) == "Discharge" && ActionWord(Hold) == "Hold";
  }

  /** Negating the control quantity negates the completed step. */
  lemma EndingNegated(q: Quantity, e: Ending, rest: seq<string>)
    ensures ParseEnding(Quantity(-q.magnitude, q.unit), e, rest) == Negated(ParseEnding(q, e, rest))
  {
  }

  /** The step completed from a control result: an error passes through, a quantity gets its ending. */
  function Completed(d: Result<Quantity, Err>, e: Ending, rest: seq<string>): Result<Step, Err> {
    if d.Failure? then Failure(d.error) else ParseEnding(d.value, e, rest)
  }

  /** Away from Rest, a cut instruction is its control result completed by its ending. */
  lemma ClausesCompleted(cl: Clauses)
    requires !IsRest(cl.control)
    ensures ParseClauses(cl) == Completed(ParseControl(cl.control), cl.ending, cl.rest)
  {
  }

  /** Completing a negated control result negates the completed step. */
  lemma CompletedNegated(d: Result<Quantity, Err>, e: Ending, rest: seq<string>)
    ensures Completed(NegatedControl(d), e, rest) == Negated(Completed(d, e, rest))
  {
    if d.Success? {
      EndingNegated(d.value, e, rest);
    }
  }

  /**
   * Two cut instructions with the same ending whose control words parse to
   * negated quantities (or the same error) parse to negated steps.
   */
  lemma NegatedClauses(cl: Clauses, cl': Clauses)
    requires cl.ending == cl'.ending && cl.rest == cl'.rest
    requires !IsRest(cl.control) && !IsRest(cl'.control)
    requires ParseControl(cl'.control) == NegatedControl(ParseControl(cl.control))
    ensures ParseClauses(cl') == Negated(ParseClauses(cl))
  {
    ClausesCompleted(cl);
    ClausesCompleted(cl');
    CompletedNegated(ParseControl(cl.control), cl.ending, cl.rest);
  }

  /**
   * The sign convention for Charge, for every instruction whatever follows
   * the action word: the Discharge result with the magnitude of the
   * operating condition negated (the event untouched), or the same error.
   */
  lemma ChargeNegates(ws: seq<string>)
    ensures ParseWords(["Charge"] + ws) == Negated(ParseWords(["Discharge"] + ws))
  {
    SplitClausesCons("Discharge", ws);
    SplitClausesCons("Charge", ws);
    if SplitClauses(ws).Some? {
      var cl := SplitClauses(ws).value;
      ChargeControlNegates(cl.control);
      NegatedClauses(Clauses(["Discharge"] + cl.control, cl.ending, cl.rest), Clauses(["Charge"] + cl.control, cl.ending, cl.rest));
    }
  }

  /** Hold gives exactly what Discharge gives, for every instruction whatever follows the action word. */
  lemma HoldKeeps(ws: seq<string>)
    ensures ParseWords(["Hold"] + ws) == ParseWords(["Discharge"] + ws)
  {
    SplitClausesCons("Discharge", ws);
    SplitClausesCons("Hold", ws);
    if SplitClauses(ws).Some? {
      HoldControlKeeps(SplitClauses(ws).value.control);
    }
  }

  /** Whatever else a "Rest" instruction says, it parses to zero amperes. */
  lemma RestIsZeroAmperes(s: string)
    requires |Words(s)| > 0 && Words(s)[0] == "Rest"
    requires ParseStep(s).Success?
    ensures ParseStep(s).value.condition.magnitude == 0.0
    ensures ParseStep(s).value.condition.unit == A
  {
    var ws := Words(s);
    var cl := SplitClauses(ws).value;
    assert ws == cl.control + [Keyword(cl.ending)] + cl.rest;
    if cl.control != [] {
      assert cl.control[0] == ws[0];
    }
  }

  /** "Rest until ..." with no later "for" matches no shape: the bare Rest form only takes "for". */
  lemma RestUntilUnparsable(rest: seq<string>)
    requires AllWords(rest) && "for" !in rest
    ensures ParseStep(Unwords(["Rest", "until"] + rest)) == Failure(UnparsableInstruction)
  {
    var ws := ["Rest", "until"] + rest;
    assert ws == ["Rest"] + [Keyword(Until)] + rest;
    StepOfWords(ws);
    SplitJoined(["Rest"], Until, rest);
  }

  /** Rest cut at "until" in the event shape: 0 A, with the threshold's result. */
  lemma RestAtClauses(cl: Clauses)
    requires IsRestAt(cl.control) && cl.ending == Until
    ensures match ParseEvent(cl.rest)
            case Failure(e) => ParseClauses(cl) == Failure(e)
            case Success(t) => ParseClauses(cl) == Success(Step(OperatingCondition(0.0, A, None), Some(t)))
  {
  }

  /** The words of a "Rest at ... until" instruction, parsed. */
  lemma RestAtUntilWords(n: string, u: string, m: string, u': string)
    requires n != "for" && n != "until" && u != "for" && u != "until"
    requires Decimal.IsLiteral(m) && IsUnitToken(u')
    ensures ParseWords(["Rest", "at", n, u] + ["until"] + [m, u'])
              == Success(Step(OperatingCondition(0.0, A, None), Some(ParseQuantity(m, u').value)))
  {
    var control, rest := ["Rest", "at", n, u], [m, u'];
    Decimal.LiteralIsNotKeyword(m);
    UnitTokenIsWord(u');
    SplitJoined(control, Until, rest);
    RestAtClauses(Clauses(control, Until, rest));
  }

  /**
   * `"Rest at <n> <unit> until <m> <unit'>"`: the event shape with Rest,
   * which gives 0 A whatever `<n> <unit>` say, no duration, and the event
   * `m` rescaled to its base unit.
   */
  lemma RestAtUntilShape(n: string, u: string, m: string, u': string)
    requires IsWord(n) && n != "for" && n != "until"
    requires IsWord(u) && u != "for" && u != "until"
    requires Decimal.IsLiteral(m) && IsUnitToken(u')
    ensures ParseStep(Unwords(["Rest", "at", n, u, "until", m, u']))
              == Success(Step(OperatingCondition(0.0, A, None), Some(ParseQuantity(m, u').value)))
  {
    var ws := ["Rest", "at", n, u, "until", m, u'];
    assert ws == ["Rest", "at", n, u] + ["until"] + [m, u'];
    Decimal.LiteralIsNotKeyword(m);
    UnitTokenIsWord(u');
    StepOfWords(ws);
    RestAtUntilWords(n, u, m, u');
  }

  /** Parsing the joined words is parsing the words. */
  lemma StepOfWords(ws: seq<string>)
    requires AllWords(ws)
    ensures ParseStep(Unwords(ws)) == ParseWords(ws)
  {
    WordsUnwords(ws);
  }

  lemma UnitTokenIsWord(u: string)
    requires IsUnitToken(u)
    ensures IsWord(u) && u != "for" && u != "until" && u != "at"
  {
  }

  lemma TimeTokenIsWord(t: string)
    requires Durations.IsTimeToken(t)
    ensures IsWord(t) && t != "for" && t != "until"
  {
  }

  /**
   * Cutting at the keyword undoes joining at it, provided the keyword is
   * the first one that counts: no "for" before it (nor after an "until"),
   * and no earlier copy of the keyword itself.
   */
  lemma SplitJoined(control: seq<string>, e: Ending, rest: seq<string>)
    requires "for" !in control && "until" !in control
    requires e == Until ==> "for" !in rest
    ensures SplitClauses(control + [Keyword(e)] + rest) == Some(Clauses(control, e, rest))
  {
    var ws := control + [Keyword(e)] + rest;
    var k := |control|;
    assert ws[..k] == control && ws[k + 1..] == rest && ws[k] == Keyword(e);
    assert forall i :: 0 <= i < k ==> ws[i] == control[i];
    if e == For {
      IndexOfIs(ws, "for", k);
    } else {
      assert forall i :: k < i < |ws| ==> ws[i] == rest[i - k - 1];
      IndexOfIs(ws, "for", |ws|);
      IndexOfIs(ws, "until", k);
    }
  }

  /** `<Action> at <n> <unit>`: `n` in its base unit, signed by the action. */
  lemma ControlOfAction(a: Action, n: string, u: string)
    requires Decimal.IsLiteral(n) && IsUnitToken(u)
    ensures var q := ParseQuantity(n, u).value;
            ParseControl([ActionWord(a), "at", n, u]) == Success(Quantity(Signed(a, q.magnitude), q.unit))
  {
    assert ParseAction(ActionWord(a)) == Some(a);
  }

  /** The words of a "for" instruction, parsed. */
  lemma ForShapeWords(a: Action, n: string, u: string, d: string, t: string)
    requires Decimal.IsLiteral(n) && IsUnitToken(u) && Decimal.IsLiteral(d) && Durations.IsTimeToken(t)
    ensures var q := ParseQuantity(n, u).value;
            ParseWords([ActionWord(a), "at", n, u] + ["for"] + [d, t])
              == Success(Step(OperatingCondition(Signed(a, q.magnitude), q.unit, Some(Durations.ParseDuration([d, t]).value)), None))
  {
    var control, rest := [ActionWord(a), "at", n, u], [d, t];
    Decimal.LiteralIsNotKeyword(n);
    UnitTokenIsWord(u);
    SplitJoined(control, For, rest);
    ControlOfAction(a, n, u);
    assert !IsRest(control) by { assert control[0] == ActionWord(a); }
    assert ParseClauses(Clauses(control, For, rest)) == ParseEnding(ParseControl(control).value, For, rest);
  }

  /**
   * `"<Action> at <n> <unit> for <d> <time unit>"`: the magnitude is `n`
   * rescaled to its base unit and signed by the action, the duration is
   * `d` in seconds, and there is no event.
   */
  lemma ForShape(a: Action, n: string, u: string, d: string, t: string)
    requires Decimal.IsLiteral(n) && IsUnitToken(u) && Decimal.IsLiteral(d) && Durations.IsTimeToken(t)
    ensures var q := ParseQuantity(n, u).value;
            var secs := Durations.ParseDuration([d, t]).value;
            ParseStep(Unwords([ActionWord(a), "at", n, u, "for", d, t]))
              == Success(Step(OperatingCondition(Signed(a, q.magnitude), q.unit, Some(secs)), None))
  {
    var ws := [ActionWord(a), "at", n, u, "for", d, t];
    assert ws == [ActionWord(a), "at", n, u] + ["for"] + [d, t];
    Decimal.LiteralIsNotKeyword(n);
    Decimal.LiteralIsNotKeyword(d);
    UnitTokenIsWord(u);
    TimeTokenIsWord(t);
    StepOfWords(ws);
    ForShapeWords(a, n, u, d, t);
  }

  /**
   * A "for" instruction with a valid action clause succeeds exactly when
   * its duration does, and otherwise fails with the duration's error.
   */
  lemma ForDurationDecides(a: Action, n: string, u: string, rest: seq<string>)
    requires Decimal.IsLiteral(n) && IsUnitToken(u)
    ensures var r := ParseWords([ActionWord(a), "at", n, u] + ["for"] + rest);
            && (r.Success? <==> Durations.ParseDuration(rest).Success?)
            && (r.Failure? ==> r.error == Durations.ParseDuration(rest).error)
  {
    var control := [ActionWord(a), "at", n, u];
    Decimal.LiteralIsNotKeyword(n);
    UnitTokenIsWord(u);
    SplitJoined(control, For, rest);
    ControlOfAction(a, n, u);
    assert !IsRest(control) by { assert control[0] == ActionWord(a); }
  }

  /**
   * An "until" instruction with a valid action clause succeeds exactly when
   * its threshold does, and otherwise fails with the threshold's error.
   */
  lemma UntilEventDecides(a: Action, n: string, u: string, rest: seq<string>)
    requires Decimal.IsLiteral(n) && IsUnitToken(u) && "for" !in rest
    ensures var r := ParseWords([ActionWord(a), "at", n, u] + ["until"] + rest);
            && (r.Success? <==> ParseEvent(rest).Success?)
            && (r.Failure? ==> r.error == ParseEvent(rest).error)
  {
    var control := [ActionWord(a), "at", n, u];
    Decimal.LiteralIsNotKeyword(n);
    UnitTokenIsWord(u);
    SplitJoined(control, Until, rest);
    ControlOfAction(a, n, u);
    assert !IsRest(control) by { assert control[0] == ActionWord(a); }
  }

  /** Words between the action and "at" make the action unrecognised: the words before "at" must be exactly one action. */
  lemma ExtraWordBeforeAt(a: Action, w: string, c: seq<string>)
    requires w != "at" && "at" in c
    ensures ParseControl([ActionWord(a), w] + c) == Failure(UnrecognizedAction)
  {
    ControlOfActionWord(a, [w] + c);
    assert [ActionWord(a), w] + c == [ActionWord(a)] + ([w] + c);
  }

  /** The words of an "until" instruction, parsed. */
  lemma UntilShapeWords(a: Action, n: string, u: string, m: string, u': string)
    requires Decimal.IsLiteral(n) && IsUnitToken(u) && Decimal.IsLiteral(m) && IsUnitToken(u')
    ensures var q := ParseQuantity(n, u).value;
            ParseWords([ActionWord(a), "at", n, u] + ["until"] + [m, u'])
              == Success(Step(OperatingCondition(Signed(a, q.magnitude), q.unit, None), Some(ParseQuantity(m, u').value)))
  {
    var control, rest := [ActionWord(a), "at", n, u], [m, u'];
    Decimal.LiteralIsNotKeyword(n);
    Decimal.LiteralIsNotKeyword(m);
    UnitTokenIsWord(u);
    UnitTokenIsWord(u');
    SplitJoined(control, Until, rest);
    ControlOfAction(a, n, u);
    assert !IsRest(control) by { assert control[0] == ActionWord(a); }
    assert ParseClauses(Clauses(control, Until, rest)) == ParseEnding(ParseControl(control).value, Until, rest);
  }

  /**
   * `"<Action> at <n> <unit> until <m> <unit'>"`: the magnitude is signed
   * by the action, there is no duration, and the event is `m` rescaled to
   * its base unit with no sign applied.
   */
  lemma UntilShape(a: Action, n: string, u: string, m: string, u': string)
    requires Decimal.IsLiteral(n) && IsUnitToken(u) && Decimal.IsLiteral(m) && IsUnitToken(u')
    ensures var q := ParseQuantity(n, u).value;
            ParseStep(Unwords([ActionWord(a), "at", n, u, "until", m, u']))
              == Success(Step(OperatingCondition(Signed(a, q.magnitude), q.unit, None), Some(ParseQuantity(m, u').value)))
  {
    var ws := [ActionWord(a), "at", n, u, "until", m, u'];
    assert ws == [ActionWord(a), "at", n, u] + ["until"] + [m, u'];
    Decimal.LiteralIsNotKeyword(n);
    Decimal.LiteralIsNotKeyword(m);
    UnitTokenIsWord(u);
    UnitTokenIsWord(u');
    StepOfWords(ws);
    UntilShapeWords(a, n, u, m, u');
  }

  /** The words of a "Rest" instruction, parsed. */
  lemma RestShapeWords(d: string, t: string)
    requires Decimal.IsLiteral(d) && Durations.IsTimeToken(t)
    ensures ParseWords(["Rest"] + ["for"] + [d, t])
              == Success(Step(OperatingCondition(0.0, A, Some(Durations.ParseDuration([d, t]).value)), None))
  {
    Decimal.LiteralIsNotKeyword(d);
    TimeTokenIsWord(t);
    SplitJoined(["Rest"], For, [d, t]);
    assert ParseControl(["Rest"]) == Success(Quantity(0.0, A));
  }

  /** `"Rest for <d> <time unit>"`: zero amperes for `d` in seconds, no event. */
  lemma RestShape(d: string, t: string)
    requires Decimal.IsLiteral(d) && Durations.IsTimeToken(t)
    ensures ParseStep(Unwords(["Rest", "for", d, t]))
              == Success(Step(OperatingCondition(0.0, A, Some(Durations.ParseDuration([d, t]).value)), None))
  {
    var ws := ["Rest", "for", d, t];
    assert ws == ["Rest"] + ["for"] + [d, t];
    Decimal.LiteralIsNotKeyword(d);
    TimeTokenIsWord(t);
    StepOfWords(ws);
    RestShapeWords(d, t);
  }
}
