/**
 * The experiment aggregate: built once from a list of instruction strings,
 * a parameter dictionary and an optional frequency, and read-only after.
 */
module Experiments {
  import opened Wrappers
  import opened Errors
  import opened Tokens
  import opened Units
  import opened Steps
  import opened Printing
  import Durations
  import Decimal

  /** An element of the instruction list: a string, or a value of any other Python type. */
  datatype Input = Str(text: string) | NonStr

  /** The parameters argument: a dictionary, passed through unread, or a value of another type. */
  datatype ParamArg = Dict(entries: map<string, string>) | NotDict

  /**
   * The parsed experiment. `operatingConditions` and `events` are
   * index-aligned with `instructions`, the list as it was given.
   */
  datatype Experiment = Experiment(
    instructions: seq<string>,
    operatingConditions: seq<OperatingCondition>,
    events: seq<Option<Quantity>>,
    parameters: map<string, string>,
    frequency: real)

  /** The texts of the inputs when every one of them is a string. */
  function Texts(inputs: seq<Input>): (r: Option<seq<string>>)
    ensures r.Some? <==> forall i :: 0 <= i < |inputs| ==> inputs[i].Str?
    ensures r.Some? ==> |r.value| == |inputs| && forall i :: 0 <= i < |inputs| ==> inputs[i] == Str(r.value[i])
  {
    if inputs == [] then Some([])
    else
      match inputs[0]
      case NonStr => None
      case Str(t) =>
        match Texts(inputs[1..])
        case None => None
        case Some(ts) => Some([t] + ts)
  }

  /**
   * Parses every instruction, in order; the first one that fails decides
   * the error. On success there is one step per instruction, at its index.
   */
  function ParseAll(ss: seq<string>): (r: Result<seq<Step>, Err>)
    ensures r.Success? <==> forall i :: 0 <= i < |ss| ==> ParseStep(ss[i]).Success?
    ensures r.Success? ==> |r.value| == |ss| && forall i :: 0 <= i < |ss| ==> ParseStep(ss[i]) == Success(r.value[i])
    ensures r.Failure? ==> FailsFirstAt(ss, r.error)
  {
    if ss == [] then Success([])
    else
      match ParseStep(ss[0])
      case Failure(e) =>
        assert FailsAt(ss, 0, e);
        Failure(e)
      case Success(st) =>
        var tail := ParseAll(ss[1..]);
        ShiftedSteps(ss);
        match tail
        case Failure(e) =>
          FailsFirstAtShifted(ss, e);
          Failure(e)
        case Success(rest) => Success([st] + rest)
  }

  /** Instruction `i` fails with `e` and every instruction before it parses. */
  predicate FailsAt(ss: seq<string>, i: int, e: Err) {
    0 <= i < |ss| && ParseStep(ss[i]) == Failure(e) && forall j :: 0 <= j < i ==> ParseStep(ss[j]).Success?
  }

  /** Some instruction is the first to fail, and it fails with `e`. */
  ghost predicate FailsFirstAt(ss: seq<string>, e: Err) {
    exists i :: FailsAt(ss, i, e)
  }

  lemma ShiftedSteps(ss: seq<string>)
    requires ss != []
    ensures forall i :: 1 <= i < |ss| ==> ss[i] == ss[1..][i - 1]
  {
  }

  lemma FailsFirstAtShifted(ss: seq<string>, e: Err)
    requires ss != [] && ParseStep(ss[0]).Success? && FailsFirstAt(ss[1..], e)
    ensures FailsFirstAt(ss, e)
  {
    var k :| FailsAt(ss[1..], k, e);
    assert FailsAt(ss, k + 1, e);
  }

  /** The frequency in seconds: 1 when none is given, otherwise the duration it spells. */
  function Frequency(f: Option<string>): (r: Result<real, Err>)
    ensures f.None? ==> r == Success(1.0)
    ensures f.Some? ==>
      var ws := Words(f.value);
      && (r.Success? <==> |ws| == 2 && Durations.IsTimeToken(ws[1]) && Decimal.IsLiteral(ws[0]))
      && (r.Success? ==>
            var x := Decimal.Parse(ws[0]).value;
            r.value == x * if ws[1] in {"second", "seconds"} then 1.0 else if ws[1] in {"minute", "minutes"} then 60.0 else 3600.0)
    ensures r.Success? ==> r.value >= 0.0
    ensures f.Some? && |Words(f.value)| != 2 ==> r == Failure(UnparsableInstruction)
    ensures f.Some? && |Words(f.value)| == 2 && !Durations.IsTimeToken(Words(f.value)[1]) ==> r == Failure(UnknownTimeUnit)
    ensures f.Some? && |Words(f.value)| == 2 && Durations.IsTimeToken(Words(f.value)[1]) && !Decimal.IsLiteral(Words(f.value)[0]) ==>
      r == Failure(InvalidNumber)
  {
    match f
    case None => Success(1.0)
    case Some(s) => Durations.ParseDuration(Words(s))
  }

  function Conditions(steps: seq<Step>): (r: seq<OperatingCondition>)
    ensures |r| == |steps| && forall i :: 0 <= i < |steps| ==> r[i] == steps[i].condition
  {
    seq(|steps|, i requires 0 <= i < |steps| => steps[i].condition)
  }

  function Events(steps: seq<Step>): (r: seq<Option<Quantity>>)
    ensures |r| == |steps| && forall i :: 0 <= i < |steps| ==> r[i] == steps[i].event
  {
    seq(|steps|, i requires 0 <= i < |steps| => steps[i].event)
  }

  /** Every input is a string and every string parses. */
  predicate AllParse(inputs: seq<Input>) {
    forall i :: 0 <= i < |inputs| ==> inputs[i].Str? && ParseStep(inputs[i].text).Success?
  }

  /**
   * Builds an experiment. The checks run in this order: every input is a
   * string, every instruction parses (first failure wins), the parameters
   * are a dictionary, the frequency parses.
   */
  function Construct(inputs: seq<Input>, parameters: ParamArg, frequency: Option<string>): (r: Result<Experiment, Err>)
    ensures r.Success? <==>
      AllParse(inputs) && parameters.Dict? && Frequency(frequency).Success?
    ensures r.Success? ==>
      && r.value.instructions == Texts(inputs).value
      && |r.value.operatingConditions| == |inputs| && |r.value.events| == |inputs|
      && forall i :: 0 <= i < |inputs| ==>
           inputs[i] == Str(r.value.instructions[i]) &&
           ParseStep(r.value.instructions[i]) == Success(Step(r.value.operatingConditions[i], r.value.events[i]))
    ensures r.Success? ==> Dict(r.value.parameters) == parameters
    ensures r.Success? && frequency.None? ==> r.value.frequency == 1.0
    ensures r.Success? && frequency.Some? ==> Durations.ParseDuration(Words(frequency.value)) == Success(r.value.frequency)
    ensures (exists i :: 0 <= i < |inputs| && inputs[i].NonStr?) <==> r == Failure(InvalidInputType)
    ensures r == Failure(InvalidParameterType) <==> AllParse(inputs) && parameters.NotDict?
    ensures Texts(inputs).Some? && !AllParse(inputs) ==> r.Failure? && FailsFirstAt(Texts(inputs).value, r.error)
    ensures AllParse(inputs) && parameters.Dict? && Frequency(frequency).Failure? ==> r == Failure(Frequency(frequency).error)
  {
    match Texts(inputs)
    case None => Failure(InvalidInputType)
    case Some(texts) =>
      assert forall i :: 0 <= i < |inputs| ==> inputs[i].text == texts[i];
      var steps :- ParseAll(texts);
      if parameters.NotDict? then Failure(InvalidParameterType)
      else
        var freq :- Frequency(frequency);
        Success(Experiment(texts, Conditions(steps), Events(steps), parameters.entries, freq))
  }

  /** `str(experiment)`: the printed list of instructions as given, not the parsed form. */
  function StrOf(e: Experiment): (r: string)
    ensures AllQuoteFree(e.instructions) ==> ReadList(r) == Some(e.instructions)
  {
    // Both branches print the same list; the first only brings in the
    // read-back lemma, whose precondition needs quote-free instructions.
    if AllQuoteFree(e.instructions) then
      ReadShowList(e.instructions);
      ShowList(e.instructions)
    else
      ShowList(e.instructions)
  }

  const ReprPrefix := "pybamm.Experiment("

  /** Reads a printed list back out of `pybamm.Experiment(...)`. */
  function ReadRepr(s: string): Option<seq<string>> {
    var n := |ReprPrefix|;
    if |s| > n && s[..n] == ReprPrefix && s[|s| - 1] == ')' then ReadList(s[n..|s| - 1]) else None
  }

  /** `repr(experiment)`: the printed list inside `pybamm.Experiment(...)`. */
  function ReprOf(e: Experiment): (r: string)
    ensures AllQuoteFree(e.instructions) ==> ReadRepr(r) == Some(e.instructions)
  {
    var r := ReprPrefix + StrOf(e) + ")";
    assert r[..|ReprPrefix|] == ReprPrefix && r[|ReprPrefix|..|r| - 1] == StrOf(e);
    r
  }
}
