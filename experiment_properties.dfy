/**
 * Properties of the experiment aggregate that relate several
 * constructions: order and repetition of instructions, and rebuilding an
 * experiment from its printed form.
 */
module ExperimentProperties {
  import opened Wrappers
  import opened Units
  import opened Steps
  import opened Printing
  import opened Experiments

  /**
   * Parsing a concatenation parses each part in turn: the steps of `a`
   * come first, in order, then those of `b`; the first failure wins.
   */
  lemma {:induction false} ParseAllAppend(a: seq<string>, b: seq<string>)
    ensures ParseAll(a + b) ==
      match ParseAll(a)
      case Failure(e) => Failure(e)
      case Success(x) =>
        match ParseAll(b)
        case Failure(e) => Failure(e)
        case Success(y) => Success(x + y)
  {
    if a == [] {
      assert a + b == b;
      if ParseAll(b).Success? {
        assert [] + ParseAll(b).value == ParseAll(b).value;
      }
    } else {
      var ab := a + b;
      assert ab[0] == a[0];
      assert ab[1..] == a[1..] + b;
      var s0 := ParseStep(a[0]);
      if s0.Success? {
        ParseAllAppend(a[1..], b);
        var ra, rb := ParseAll(a[1..]), ParseAll(b);
        if ra.Success? && rb.Success? {
          assert ParseAll(a) == Success([s0.value] + ra.value);
          assert ParseAll(ab) == Success([s0.value] + (ra.value + rb.value));
          ConsAppend(s0.value, ra.value, rb.value);
        } else if ra.Success? {
          assert ParseAll(a) == Success([s0.value] + ra.value);
          assert ParseAll(ab) == Failure(rb.error);
        } else {
          assert ParseAll(a) == Failure(ra.error);
          assert ParseAll(ab) == Failure(ra.error);
        }
      } else {
        assert ParseAll(a) == Failure(s0.error);
        assert ParseAll(ab) == Failure(s0.error);
      }
    }
  }

  lemma ConsAppend<T>(x: T, p: seq<T>, q: seq<T>)
    ensures [x] + (p + q) == ([x] + p) + q
  {
  }

  /** A list written twice parses to its steps written twice: duplicates are neither merged nor reordered. */
  lemma ParseAllTwice(xs: seq<string>)
    requires ParseAll(xs).Success?
    ensures ParseAll(xs + xs) == Success(ParseAll(xs).value + ParseAll(xs).value)
  {
    ParseAllAppend(xs, xs);
  }

  function AsInputs(ss: seq<string>): (r: seq<Input>)
    ensures |r| == |ss| && forall i :: 0 <= i < |ss| ==> r[i] == Str(ss[i])
  {
    seq(|ss|, i requires 0 <= i < |ss| => Str(ss[i]))
  }

  /** `str()` and `repr()` print the instructions as given, whatever they parsed to. */
  lemma StrReprOfConstruct(inputs: seq<Input>, parameters: ParamArg, frequency: Option<string>)
    requires Construct(inputs, parameters, frequency).Success?
    ensures var e := Construct(inputs, parameters, frequency).value;
            && StrOf(e) == ShowList(Texts(inputs).value)
            && ReprOf(e) == "pybamm.Experiment(" + ShowList(Texts(inputs).value) + ")"
  {
  }

  /**
   * Rebuilding an experiment from the list its `str()` prints, with the
   * same parameters and frequency, gives the same experiment.
   */
  lemma Reconstruct(inputs: seq<Input>, parameters: ParamArg, frequency: Option<string>)
    requires Construct(inputs, parameters, frequency).Success?
    requires var e := Construct(inputs, parameters, frequency).value;
             AllQuoteFree(e.instructions)
    ensures var e := Construct(inputs, parameters, frequency).value;
            && ReadList(StrOf(e)) == Some(e.instructions)
            && Construct(AsInputs(e.instructions), Dict(e.parameters), frequency) == Success(e)
  {
    var e := Construct(inputs, parameters, frequency).value;
    ReadShowList(e.instructions);
    assert AsInputs(e.instructions) == inputs;
  }

  /**
   * Construct is determined by the steps: when every input is a string
   * that parses, the parameters are a dictionary and the frequency parses,
   * the experiment holds exactly those steps, at their indices.
   */
  lemma ConstructOf(inputs: seq<Input>, parameters: ParamArg, frequency: Option<string>,
                    conditions: seq<OperatingCondition>, events: seq<Option<Quantity>>, freq: real)
    requires |conditions| == |inputs| && |events| == |inputs|
    requires forall i :: 0 <= i < |inputs| ==>
      inputs[i].Str? && ParseStep(inputs[i].text) == Success(Step(conditions[i], events[i]))
    requires parameters.Dict?
    requires Frequency(frequency) == Success(freq)
    ensures Construct(inputs, parameters, frequency)
      == Success(Experiment(Texts(inputs).value, conditions, events, parameters.entries, freq))
  {
    assert AllParse(inputs);
    var e := Construct(inputs, parameters, frequency).value;
    forall i | 0 <= i < |inputs|
      ensures e.operatingConditions[i] == conditions[i] && e.events[i] == events[i]
    {
      assert inputs[i] == Str(e.instructions[i]);
    }
    assert e.operatingConditions == conditions;
    assert e.events == events;
  }
}
