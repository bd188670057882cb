/**
 * The concrete experiments of the unit tests, proved about the model:
 * the parsed operating conditions and events, the default and parsed
 * frequency, the printed forms, and the error each bad input raises.
 *
 * Every concrete fact is built from small lemmas (a number literal, a
 * quantity, a duration, the words of one instruction) so that no proof
 * has to evaluate the parser on a long string in one go.
 */
module TestCases {
  import opened Wrappers
  import opened Errors
  import opened Tokens
  import opened Units
  import opened Steps
  import opened StepProperties
  import opened Printing
  import opened Experiments
  import opened ExperimentProperties
  import Decimal
  import Durations

  // ---------------------------------------------------------------------
  // Number literals

  lemma NumOne()
    ensures Decimal.Parse("1") == Some(1.0)
  {
    Decimal.ParseWhole("1");
  }

  lemma NumTen()
    ensures Decimal.Parse("10") == Some(10.0)
  {
    Decimal.ParseWhole("10");
  }

  lemma NumTwenty()
    ensures Decimal.Parse("20") == Some(20.0)
  {
    Decimal.ParseWhole("20");
  }

  lemma NumFortyFive()
    ensures Decimal.Parse("45") == Some(45.0)
  {
    Decimal.ParseWhole("45");
  }

  lemma NumFifty()
    ensures Decimal.Parse("50") == Some(50.0)
  {
    Decimal.ParseWhole("50");
  }

  lemma NumTwoHundred()
    ensures Decimal.Parse("200") == Some(200.0)
  {
    Decimal.ParseWhole("200");
  }

  lemma HalfValue()
    ensures Decimal.PointValue("0", "5") == 0.5
  {
    assert Decimal.DigitsValue("0") == 0 && Decimal.DigitsValue("5") == 5 && Decimal.Pow10(1) == 10;
  }

  lemma NumHalf()
    ensures Decimal.Parse("0.5") == Some(0.5)
  {
    Decimal.ParsePointed("0", "5");
    HalfValue();
    assert "0" + "." + "5" == "0.5";
  }

  lemma FourPointOneValue()
    ensures Decimal.PointValue("4", "1") == 4.1
  {
    assert Decimal.DigitsValue("4") == 4 && Decimal.DigitsValue("1") == 1 && Decimal.Pow10(1) == 10;
  }

  lemma NumFourPointOne()
    ensures Decimal.Parse("4.1") == Some(4.1)
  {
    Decimal.ParsePointed("4", "1");
    FourPointOneValue();
    assert "4" + "." + "1" == "4.1";
  }

  // ---------------------------------------------------------------------
  // Quantities, rescaled to their base unit

  lemma QuantityOneC()
    ensures ParseQuantity("1", "C") == Success(Quantity(1.0, C))
  {
    NumOne();
  }

  lemma QuantityHalfC()
    ensures ParseQuantity("0.5", "C") == Success(Quantity(0.5, C))
  {
    NumHalf();
  }

  lemma QuantityOneA()
    ensures ParseQuantity("1", "A") == Success(Quantity(1.0, A))
  {
    NumOne();
  }

  lemma QuantityTwoHundredMilliamps()
    ensures ParseQuantity("200", "mA") == Success(Quantity(0.2, A))
  {
    NumTwoHundred();
  }

  lemma QuantityTenMilliamps()
    ensures ParseQuantity("10", "mA") == Success(Quantity(0.01, A))
  {
    NumTen();
  }

  lemma QuantityFiftyMilliamps()
    ensures ParseQuantity("50", "mA") == Success(Quantity(0.05, A))
  {
    NumFifty();
  }

  lemma QuantityOneW()
    ensures ParseQuantity("1", "W") == Success(Quantity(1.0, W))
  {
    NumOne();
  }

  lemma QuantityHalfW()
    ensures ParseQuantity("0.5", "W") == Success(Quantity(0.5, W))
  {
    NumHalf();
  }

  lemma QuantityTwoHundredMilliwatts()
    ensures ParseQuantity("200", "mW") == Success(Quantity(0.2, W))
  {
    NumTwoHundred();
  }

  lemma QuantityOneV()
    ensures ParseQuantity("1", "V") == Success(Quantity(1.0, V))
  {
    NumOne();
  }

  lemma QuantityFourPointOneV()
    ensures ParseQuantity("4.1", "V") == Success(Quantity(4.1, V))
  {
    NumFourPointOne();
  }

  // ---------------------------------------------------------------------
  // Durations, in seconds

  lemma HalfHour()
    ensures Durations.ParseDuration(["0.5", "hours"]) == Success(1800.0)
  {
    NumHalf();
  }

  lemma FortyFiveMinutes()
    ensures Durations.ParseDuration(["45", "minutes"]) == Success(2700.0)
  {
    NumFortyFive();
  }

  lemma TenMinutes()
    ensures Durations.ParseDuration(["10", "minutes"]) == Success(600.0)
  {
    NumTen();
  }

  lemma TwentySeconds()
    ensures Durations.ParseDuration(["20", "seconds"]) == Success(20.0)
  {
    NumTwenty();
  }

  // ---------------------------------------------------------------------
  // Instructions written out as words joined by single spaces

  lemma UnwordsCons(w: string, ws: seq<string>)
    requires ws != []
    ensures Unwords([w] + ws) == w + " " + Unwords(ws)
  {
    assert ([w] + ws)[1..] == ws;
  }

  lemma UnwordsFour(w0: string, w1: string, w2: string, w3: string)
    ensures Unwords([w0, w1, w2, w3]) == w0 + " " + (w1 + " " + (w2 + " " + w3))
  {
    UnwordsCons(w2, [w3]);
    assert [w2] + [w3] == [w2, w3];
    UnwordsCons(w1, [w2, w3]);
    assert [w1] + [w2, w3] == [w1, w2, w3];
    UnwordsCons(w0, [w1, w2, w3]);
    assert [w0] + [w1, w2, w3] == [w0, w1, w2, w3];
  }

  lemma UnwordsSix(w0: string, w1: string, w2: string, w3: string, w4: string, w5: string)
    ensures Unwords([w0, w1, w2, w3, w4, w5])
      == w0 + " " + (w1 + " " + (w2 + " " + (w3 + " " + (w4 + " " + w5))))
  {
    UnwordsFour(w2, w3, w4, w5);
    UnwordsCons(w1, [w2, w3, w4, w5]);
    assert [w1] + [w2, w3, w4, w5] == [w1, w2, w3, w4, w5];
    UnwordsCons(w0, [w1, w2, w3, w4, w5]);
    assert [w0] + [w1, w2, w3, w4, w5] == [w0, w1, w2, w3, w4, w5];
  }

  lemma UnwordsSeven(w0: string, w1: string, w2: string, w3: string, w4: string, w5: string, w6: string)
    ensures Unwords([w0, w1, w2, w3, w4, w5, w6])
      == w0 + " " + (w1 + " " + (w2 + " " + (w3 + " " + (w4 + " " + (w5 + " " + w6)))))
  {
    UnwordsSix(w1, w2, w3, w4, w5, w6);
    UnwordsCons(w0, [w1, w2, w3, w4, w5, w6]);
    assert [w0] + [w1, w2, w3, w4, w5, w6] == [w0, w1, w2, w3, w4, w5, w6];
  }

  // ---------------------------------------------------------------------
  // The three instruction shapes with concrete results

  lemma ForStep(s: string, a: Action, n: string, u: string, d: string, t: string, x: real, unit: Unit, secs: real)
    requires s == ActionWord(a) + " " + ("at" + " " + (n + " " + (u + " " + ("for" + " " + (d + " " + t)))))
    requires ParseQuantity(n, u) == Success(Quantity(x, unit))
    requires Durations.ParseDuration([d, t]) == Success(secs)
    ensures ParseStep(s) == Success(Step(OperatingCondition(Signed(a, x), unit, Some(secs)), None))
  {
    UnwordsSeven(ActionWord(a), "at", n, u, "for", d, t);
    ForShape(a, n, u, d, t);
  }

  lemma UntilStep(s: string, a: Action, n: string, u: string, m: string, u': string, x: real, unit: Unit, event: Quantity)
    requires s == ActionWord(a) + " " + ("at" + " " + (n + " " + (u + " " + ("until" + " " + (m + " " + u')))))
    requires ParseQuantity(n, u) == Success(Quantity(x, unit))
    requires ParseQuantity(m, u') == Success(event)
    ensures ParseStep(s) == Success(Step(OperatingCondition(Signed(a, x), unit, None), Some(event)))
  {
    UnwordsSeven(ActionWord(a), "at", n, u, "until", m, u');
    UntilShape(a, n, u, m, u');
  }

  lemma RestStep(s: string, d: string, t: string, secs: real)
    requires s == "Rest" + " " + ("for" + " " + (d + " " + t))
    requires Durations.ParseDuration([d, t]) == Success(secs)
    ensures ParseStep(s) == Success(Step(OperatingCondition(0.0, A, Some(secs)), None))
  {
    UnwordsFour("Rest", "for", d, t);
    RestShape(d, t);
  }

  // ---------------------------------------------------------------------
  // The instructions of the tests: each is first spelled out as its words
  // joined by single spaces, then parsed through its shape

  lemma DischargeOneCHalfHourSpelled()
    ensures "Discharge at 1 C for 0.5 hours"
      == ActionWord(Discharge) + " " + ("at" + " " + ("1" + " " + ("C" + " " + ("for" + " " + ("0.5" + " " + "hours")))))
  {
  }

  lemma DischargeOneCHalfHour()
    ensures ParseStep("Discharge at 1 C for 0.5 hours") == Success(Step(OperatingCondition(1.0, C, Some(1800.0)), None))
  {
    DischargeOneCHalfHourSpelled();
    QuantityOneC();
    HalfHour();
    ForStep("Discharge at 1 C for 0.5 hours", Discharge, "1", "C", "0.5", "hours", 1.0, C, 1800.0);
  }

  lemma ChargeHalfCFortyFiveMinutesSpelled()
    ensures "Charge at 0.5 C for 45 minutes"
      == ActionWord(Charge) + " " + ("at" + " " + ("0.5" + " " + ("C" + " " + ("for" + " " + ("45" + " " + "minutes")))))
  {
  }

  lemma ChargeHalfCFortyFiveMinutes()
    ensures ParseStep("Charge at 0.5 C for 45 minutes") == Success(Step(OperatingCondition(-0.5, C, Some(2700.0)), None))
  {
    ChargeHalfCFortyFiveMinutesSpelled();
    QuantityHalfC();
    FortyFiveMinutes();
    ForStep("Charge at 0.5 C for 45 minutes", Charge, "0.5", "C", "45", "minutes", 0.5, C, 2700.0);
  }

  lemma DischargeOneAHalfHourSpelled()
    ensures "Discharge at 1 A for 0.5 hours"
      == ActionWord(Discharge) + " " + ("at" + " " + ("1" + " " + ("A" + " " + ("for" + " " + ("0.5" + " " + "hours")))))
  {
  }

  lemma DischargeOneAHalfHour()
    ensures ParseStep("Discharge at 1 A for 0.5 hours") == Success(Step(OperatingCondition(1.0, A, Some(1800.0)), None))
  {
    DischargeOneAHalfHourSpelled();
    QuantityOneA();
    HalfHour();
    ForStep("Discharge at 1 A for 0.5 hours", Discharge, "1", "A", "0.5", "hours", 1.0, A, 1800.0);
  }

  lemma ChargeTwoHundredMilliampsFortyFiveMinutesSpelled()
    ensures "Charge at 200 mA for 45 minutes"
      == ActionWord(Charge) + " " + ("at" + " " + ("200" + " " + ("mA" + " " + ("for" + " " + ("45" + " " + "minutes")))))
  {
  }

  lemma ChargeTwoHundredMilliampsFortyFiveMinutes()
    ensures ParseStep("Charge at 200 mA for 45 minutes") == Success(Step(OperatingCondition(-0.2, A, Some(2700.0)), None))
  {
    ChargeTwoHundredMilliampsFortyFiveMinutesSpelled();
    QuantityTwoHundredMilliamps();
    FortyFiveMinutes();
    ForStep("Charge at 200 mA for 45 minutes", Charge, "200", "mA", "45", "minutes", 0.2, A, 2700.0);
  }

  lemma DischargeOneWHalfHourSpelled()
    ensures "Discharge at 1 W for 0.5 hours"
      == ActionWord(Discharge) + " " + ("at" + " " + ("1" + " " + ("W" + " " + ("for" + " " + ("0.5" + " " + "hours")))))
  {
  }

  lemma DischargeOneWHalfHour()
    ensures ParseStep("Discharge at 1 W for 0.5 hours") == Success(Step(OperatingCondition(1.0, W, Some(1800.0)), None))
  {
    DischargeOneWHalfHourSpelled();
    QuantityOneW();
    HalfHour();
    ForStep("Discharge at 1 W for 0.5 hours", Discharge, "1", "W", "0.5", "hours", 1.0, W, 1800.0);
  }

  lemma ChargeTwoHundredMilliwattsFortyFiveMinutesSpelled()
    ensures "Charge at 200 mW for 45 minutes"
      == ActionWord(Charge) + " " + ("at" + " " + ("200" + " " + ("mW" + " " + ("for" + " " + ("45" + " " + "minutes")))))
  {
  }

  lemma ChargeTwoHundredMilliwattsFortyFiveMinutes()
    ensures ParseStep("Charge at 200 mW for 45 minutes") == Success(Step(OperatingCondition(-0.2, W, Some(2700.0)), None))
  {
    ChargeTwoHundredMilliwattsFortyFiveMinutesSpelled();
    QuantityTwoHundredMilliwatts();
    FortyFiveMinutes();
    ForStep("Charge at 200 mW for 45 minutes", Charge, "200", "mW", "45", "minutes", 0.2, W, 2700.0);
  }

  lemma HoldOneVTwentySecondsSpelled()
    ensures "Hold at 1 V for 20 seconds"
      == ActionWord(Hold) + " " + ("at" + " " + ("1" + " " + ("V" + " " + ("for" + " " + ("20" + " " + "seconds")))))
  {
  }

  lemma HoldOneVTwentySeconds()
    ensures ParseStep("Hold at 1 V for 20 seconds") == Success(Step(OperatingCondition(1.0, V, Some(20.0)), None))
  {
    HoldOneVTwentySecondsSpelled();
    QuantityOneV();
    TwentySeconds();
    ForStep("Hold at 1 V for 20 seconds", Hold, "1", "V", "20", "seconds", 1.0, V, 20.0);
  }

  lemma DischargeTenMilliampsHalfHourSpelled()
    ensures "Discharge at 10 mA for 0.5 hours"
      == ActionWord(Discharge) + " " + ("at" + " " + ("10" + " " + ("mA" + " " + ("for" + " " + ("0.5" + " " + "hours")))))
  {
  }

  lemma DischargeTenMilliampsHalfHour()
    ensures ParseStep("Discharge at 10 mA for 0.5 hours") == Success(Step(OperatingCondition(0.01, A, Some(1800.0)), None))
  {
    DischargeTenMilliampsHalfHourSpelled();
    QuantityTenMilliamps();
    HalfHour();
    ForStep("Discharge at 10 mA for 0.5 hours", Discharge, "10", "mA", "0.5", "hours", 0.01, A, 1800.0);
  }

  lemma DischargeOneCTwentySecondsSpelled()
    ensures "Discharge at 1 C for 20 seconds"
      == ActionWord(Discharge) + " " + ("at" + " " + ("1" + " " + ("C" + " " + ("for" + " " + ("20" + " " + "seconds")))))
  {
  }

  lemma DischargeOneCTwentySeconds()
    ensures ParseStep("Discharge at 1 C for 20 seconds") == Success(Step(OperatingCondition(1.0, C, Some(20.0)), None))
  {
    DischargeOneCTwentySecondsSpelled();
    QuantityOneC();
    TwentySeconds();
    ForStep("Discharge at 1 C for 20 seconds", Discharge, "1", "C", "20", "seconds", 1.0, C, 20.0);
  }

  lemma ChargeHalfWTenMinutesSpelled()
    ensures "Charge at 0.5 W for 10 minutes"
      == ActionWord(Charge) + " " + ("at" + " " + ("0.5" + " " + ("W" + " " + ("for" + " " + ("10" + " " + "minutes")))))
  {
  }

  lemma ChargeHalfWTenMinutes()
    ensures ParseStep("Charge at 0.5 W for 10 minutes") == Success(Step(OperatingCondition(-0.5, W, Some(600.0)), None))
  {
    ChargeHalfWTenMinutesSpelled();
    QuantityHalfW();
    TenMinutes();
    ForStep("Charge at 0.5 W for 10 minutes", Charge, "0.5", "W", "10", "minutes", 0.5, W, 600.0);
  }

  lemma ChargeOneCUntilFourPointOneVSpelled()
    ensures "Charge at 1 C until 4.1 V"
      == ActionWord(Charge) + " " + ("at" + " " + ("1" + " " + ("C" + " " + ("until" + " " + ("4.1" + " " + "V")))))
  {
  }

  lemma ChargeOneCUntilFourPointOneV()
    ensures ParseStep("Charge at 1 C until 4.1 V") == Success(Step(OperatingCondition(-1.0, C, None), Some(Quantity(4.1, V))))
  {
    ChargeOneCUntilFourPointOneVSpelled();
    QuantityOneC();
    QuantityFourPointOneV();
    UntilStep("Charge at 1 C until 4.1 V", Charge, "1", "C", "4.1", "V", 1.0, C, Quantity(4.1, V));
  }

  lemma HoldFourPointOneVUntilFiftyMilliampsSpelled()
    ensures "Hold at 4.1 V until 50 mA"
      == ActionWord(Hold) + " " + ("at" + " " + ("4.1" + " " + ("V" + " " + ("until" + " " + ("50" + " " + "mA")))))
  {
  }

  lemma HoldFourPointOneVUntilFiftyMilliamps()
    ensures ParseStep("Hold at 4.1 V until 50 mA") == Success(Step(OperatingCondition(4.1, V, None), Some(Quantity(0.05, A))))
  {
    HoldFourPointOneVUntilFiftyMilliampsSpelled();
    QuantityFourPointOneV();
    QuantityFiftyMilliamps();
    UntilStep("Hold at 4.1 V until 50 mA", Hold, "4.1", "V", "50", "mA", 4.1, V, Quantity(0.05, A));
  }

  lemma RestTenMinutesSpelled()
    ensures "Rest for 10 minutes" == "Rest" + " " + ("for" + " " + ("10" + " " + "minutes"))
  {
  }

  lemma RestTenMinutes()
    ensures ParseStep("Rest for 10 minutes") == Success(Step(OperatingCondition(0.0, A, Some(600.0)), None))
  {
    RestTenMinutesSpelled();
    TenMinutes();
    RestStep("Rest for 10 minutes", "10", "minutes", 600.0);
  }

  // ---------------------------------------------------------------------
  // Reading a list of instructions

  /** The instruction texts of an input list built from strings. */
  lemma TextsOfStrings(ss: seq<string>)
    ensures Texts(AsInputs(ss)) == Some(ss)
  {
    assert Texts(AsInputs(ss)).value == ss;
  }

  const ReadStringsTexts: seq<string> := [
    "Discharge at 1 C for 0.5 hours",
    "Charge at 0.5 C for 45 minutes",
    "Discharge at 1 A for 0.5 hours",
    "Charge at 200 mA for 45 minutes",
    "Discharge at 1 W for 0.5 hours",
    "Charge at 200 mW for 45 minutes",
    "Rest for 10 minutes",
    "Hold at 1 V for 20 seconds",
    "Charge at 1 C until 4.1 V",
    "Hold at 4.1 V until 50 mA"]

  const ReadStringsConditions: seq<OperatingCondition> := [
    OperatingCondition(1.0, C, Some(1800.0)),
    OperatingCondition(-0.5, C, Some(2700.0)),
    OperatingCondition(1.0, A, Some(1800.0)),
    OperatingCondition(-0.2, A, Some(2700.0)),
    OperatingCondition(1.0, W, Some(1800.0)),
    OperatingCondition(-0.2, W, Some(2700.0)),
    OperatingCondition(0.0, A, Some(600.0)),
    OperatingCondition(1.0, V, Some(20.0)),
    OperatingCondition(-1.0, C, None),
    OperatingCondition(4.1, V, None)]

  const ReadStringsEvents: seq<Option<Quantity>> :=
    [None, None, None, None, None, None, None, None, Some(Quantity(4.1, V)), Some(Quantity(0.05, A))]

  lemma ReadStringsStep(i: nat)
    requires i < |ReadStringsTexts|
    ensures ParseStep(ReadStringsTexts[i]) == Success(Step(ReadStringsConditions[i], ReadStringsEvents[i]))
  {
    var s, c, e := ReadStringsTexts[i], ReadStringsConditions[i], ReadStringsEvents[i];
    if i == 0 {
      assert s == "Discharge at 1 C for 0.5 hours" && c == OperatingCondition(1.0, C, Some(1800.0)) && e == None;
      DischargeOneCHalfHour();
    } else if i == 1 {
      assert s == "Charge at 0.5 C for 45 minutes" && c == OperatingCondition(-0.5, C, Some(2700.0)) && e == None;
      ChargeHalfCFortyFiveMinutes();
    } else if i == 2 {
      assert s == "Discharge at 1 A for 0.5 hours" && c == OperatingCondition(1.0, A, Some(1800.0)) && e == None;
      DischargeOneAHalfHour();
    } else if i == 3 {
      assert s == "Charge at 200 mA for 45 minutes" && c == OperatingCondition(-0.2, A, Some(2700.0)) && e == None;
      ChargeTwoHundredMilliampsFortyFiveMinutes();
    } else if i == 4 {
      assert s == "Discharge at 1 W for 0.5 hours" && c == OperatingCondition(1.0, W, Some(1800.0)) && e == None;
      DischargeOneWHalfHour();
    } else if i == 5 {
      assert s == "Charge at 200 mW for 45 minutes" && c == OperatingCondition(-0.2, W, Some(2700.0)) && e == None;
      ChargeTwoHundredMilliwattsFortyFiveMinutes();
    } else if i == 6 {
      assert s == "Rest for 10 minutes" && c == OperatingCondition(0.0, A, Some(600.0)) && e == None;
      RestTenMinutes();
    } else if i == 7 {
      assert s == "Hold at 1 V for 20 seconds" && c == OperatingCondition(1.0, V, Some(20.0)) && e == None;
      HoldOneVTwentySeconds();
    } else if i == 8 {
      assert s == "Charge at 1 C until 4.1 V" && c == OperatingCondition(-1.0, C, None) && e == Some(Quantity(4.1, V));
      ChargeOneCUntilFourPointOneV();
    } else {
      assert s == "Hold at 4.1 V until 50 mA" && c == OperatingCondition(4.1, V, None) && e == Some(Quantity(0.05, A));
      HoldFourPointOneVUntilFiftyMilliamps();
    }
  }

  lemma OneMinuteWords()
    ensures Words("1 minute") == ["1", "minute"]
  {
    assert Unwords(["1", "minute"]) == "1 minute";
    WordsUnwords(["1", "minute"]);
  }

  lemma OneMinute()
    ensures Frequency(Some("1 minute")) == Success(60.0)
  {
    OneMinuteWords();
    NumOne();
  }

  lemma OneYearWords()
    ensures Words("1 year") == ["1", "year"]
  {
    assert Unwords(["1", "year"]) == "1 year";
    WordsUnwords(["1", "year"]);
  }

  /** A frequency in an unknown time unit is refused with the time-unit error. */
  lemma OneYear()
    ensures Frequency(Some("1 year")) == Failure(UnknownTimeUnit)
  {
    OneYearWords();
  }

  /**
   * Ten instructions with a parameter dictionary and a frequency of one
   * minute: the signed, rescaled conditions and the events, in order, the
   * parameters unchanged and a frequency of 60 seconds.
   */
  lemma ReadStrings()
    ensures var r := Construct(AsInputs(ReadStringsTexts), Dict(map["test" := "test"]), Some("1 minute"));
            && r.Success?
            && r.value.operatingConditions == ReadStringsConditions
            && r.value.events == ReadStringsEvents
            && r.value.parameters == map["test" := "test"]
            && r.value.frequency == 60.0
  {
    var inputs := AsInputs(ReadStringsTexts);
    forall i | 0 <= i < |inputs|
      ensures inputs[i].Str? && ParseStep(inputs[i].text) == Success(Step(ReadStringsConditions[i], ReadStringsEvents[i]))
    {
      ReadStringsStep(i);
    }
    OneMinute();
    ConstructOf(inputs, Dict(map["test" := "test"]), Some("1 minute"), ReadStringsConditions, ReadStringsEvents, 60.0);
  }

  const RepeatedPair: seq<string> := ["Charge at 0.5 C for 45 minutes", "Hold at 1 V for 20 seconds"]

  /** The list of the test written as it is built there: one instruction, then a pair twice. */
  const RepeatTexts: seq<string> := ["Discharge at 10 mA for 0.5 hours"] + RepeatedPair + RepeatedPair

  const RepeatConditions: seq<OperatingCondition> := [
    OperatingCondition(0.01, A, Some(1800.0)),
    OperatingCondition(-0.5, C, Some(2700.0)),
    OperatingCondition(1.0, V, Some(20.0)),
    OperatingCondition(-0.5, C, Some(2700.0)),
    OperatingCondition(1.0, V, Some(20.0))]

  lemma RepeatTextsSpelled()
    ensures RepeatTexts == [
      "Discharge at 10 mA for 0.5 hours",
      "Charge at 0.5 C for 45 minutes", "Hold at 1 V for 20 seconds",
      "Charge at 0.5 C for 45 minutes", "Hold at 1 V for 20 seconds"]
  {
  }

  lemma RepeatStep(i: nat)
    requires i < |RepeatTexts|
    ensures ParseStep(RepeatTexts[i]) == Success(Step(RepeatConditions[i], None))
  {
    RepeatTextsSpelled();
    var s, c := RepeatTexts[i], RepeatConditions[i];
    if i == 0 {
      assert s == "Discharge at 10 mA for 0.5 hours" && c == OperatingCondition(0.01, A, Some(1800.0));
      DischargeTenMilliampsHalfHour();
    } else if i == 1 {
      assert s == "Charge at 0.5 C for 45 minutes" && c == OperatingCondition(-0.5, C, Some(2700.0));
      ChargeHalfCFortyFiveMinutes();
    } else if i == 2 {
      assert s == "Hold at 1 V for 20 seconds" && c == OperatingCondition(1.0, V, Some(20.0));
      HoldOneVTwentySeconds();
    } else if i == 3 {
      assert s == "Charge at 0.5 C for 45 minutes" && c == OperatingCondition(-0.5, C, Some(2700.0));
      ChargeHalfCFortyFiveMinutes();
    } else {
      assert s == "Hold at 1 V for 20 seconds" && c == OperatingCondition(1.0, V, Some(20.0));
      HoldOneVTwentySeconds();
    }
  }

  lemma RepeatSteps()
    ensures |RepeatTexts| == |RepeatConditions|
    ensures forall i :: 0 <= i < |RepeatTexts| ==>
      ParseStep(RepeatTexts[i]) == Success(Step(RepeatConditions[i], None))
  {
    assert |RepeatTexts| == 5;
    forall i | 0 <= i < |RepeatTexts|
      ensures ParseStep(RepeatTexts[i]) == Success(Step(RepeatConditions[i], None))
    {
      RepeatStep(i);
    }
  }

  /**
   * A repeated list of instructions parses to the repeated conditions,
   * and with no frequency given the frequency is one second.
   */
  lemma ReadStringsRepeat()
    ensures var r := Construct(AsInputs(RepeatTexts), Dict(map[]), None);
            && r.Success?
            && r.value.operatingConditions == RepeatConditions
            && r.value.frequency == 1.0
  {
    RepeatSteps();
    var inputs := AsInputs(RepeatTexts);
    var events: seq<Option<Quantity>> := seq(|inputs|, i => None);
    ConstructOf(inputs, Dict(map[]), None, RepeatConditions, events, 1.0);
  }

  // ---------------------------------------------------------------------
  // Printed forms

  const StrReprTexts: seq<string> := ["Discharge at 1 C for 20 seconds", "Charge at 0.5 W for 10 minutes"]

  const StrReprConditions: seq<OperatingCondition> :=
    [OperatingCondition(1.0, C, Some(20.0)), OperatingCondition(-0.5, W, Some(600.0))]

  lemma StrReprStep(i: nat)
    requires i < |StrReprTexts|
    ensures ParseStep(StrReprTexts[i]) == Success(Step(StrReprConditions[i], None))
  {
    var s, c := StrReprTexts[i], StrReprConditions[i];
    if i == 0 {
      assert s == "Discharge at 1 C for 20 seconds" && c == OperatingCondition(1.0, C, Some(20.0));
      DischargeOneCTwentySeconds();
    } else {
      assert s == "Charge at 0.5 W for 10 minutes" && c == OperatingCondition(-0.5, W, Some(600.0));
      ChargeHalfWTenMinutes();
    }
  }

  lemma ShowTwo(a: string, b: string)
    ensures ShowList([a, b]) == "[" + (Quoted(a) + (", " + Quoted(b))) + "]"
  {
    assert [a, b][1..] == [b];
    assert ShowItems([b]) == Quoted(b);
    assert ShowItems([a, b]) == Quoted(a) + (", " + Quoted(b));
  }

  /** The printed form of a two-instruction experiment, cut after the first item. */
  lemma ReprTwo(a: string, b: string)
    ensures "pybamm.Experiment(" + ShowList([a, b]) + ")"
      == ("pybamm.Experiment([" + Quoted(a)) + (", " + Quoted(b) + "])")
  {
    ShowTwo(a, b);
    assert "pybamm.Experiment(" + "[" == "pybamm.Experiment([";
    assert "]" + ")" == "])";
  }

  lemma QuotedFirst()
    ensures Quoted("Discharge at 1 C for 20 seconds") == "'Discharge at 1 C for 20 seconds'"
  {
  }

  lemma ReprFirstHalf()
    ensures "pybamm.Experiment([" + Quoted("Discharge at 1 C for 20 seconds")
      == "pybamm.Experiment(['Discharge at 1 C for 20 seconds'"
  {
    QuotedFirst();
    assert "pybamm.Experiment([" + "'Discharge at 1 C for 20 seconds'"
      == "pybamm.Experiment(['Discharge at 1 C for 20 seconds'";
  }

  lemma QuotedSecond()
    ensures Quoted("Charge at 0.5 W for 10 minutes") == "'Charge at 0.5 W for 10 minutes'"
  {
  }

  lemma ReprSecondHalf()
    ensures ", " + Quoted("Charge at 0.5 W for 10 minutes") + "])" == ", 'Charge at 0.5 W for 10 minutes'])"
  {
    QuotedSecond();
    assert ", " + "'Charge at 0.5 W for 10 minutes'" + "])" == ", 'Charge at 0.5 W for 10 minutes'])";
  }

  lemma StrReprPrinted()
    ensures "pybamm.Experiment(" + ShowList(StrReprTexts) + ")"
      == "pybamm.Experiment(['Discharge at 1 C for 20 seconds'" + ", 'Charge at 0.5 W for 10 minutes'])"
  {
    assert StrReprTexts == ["Discharge at 1 C for 20 seconds", "Charge at 0.5 W for 10 minutes"];
    ReprTwo("Discharge at 1 C for 20 seconds", "Charge at 0.5 W for 10 minutes");
    ReprFirstHalf();
    ReprSecondHalf();
  }

  /**
   * `str()` of an experiment is `str()` of its instruction list, and
   * `repr()` wraps that in `pybamm.Experiment(...)`.
   */
  lemma StrRepr()
    ensures var r := Construct(AsInputs(StrReprTexts), Dict(map[]), None);
            && r.Success?
            && StrOf(r.value) == ShowList(StrReprTexts)
            && ReprOf(r.value)
                 == "pybamm.Experiment(['Discharge at 1 C for 20 seconds'" + ", 'Charge at 0.5 W for 10 minutes'])"
  {
    var inputs := AsInputs(StrReprTexts);
    var events: seq<Option<Quantity>> := [None, None];
    forall i | 0 <= i < |inputs|
      ensures inputs[i].Str? && ParseStep(inputs[i].text) == Success(Step(StrReprConditions[i], events[i]))
    {
      StrReprStep(i);
    }
    ConstructOf(inputs, Dict(map[]), None, StrReprConditions, events, 1.0);
    StrReprOfConstruct(inputs, Dict(map[]), None);
    TextsOfStrings(StrReprTexts);
    StrReprPrinted();
  }

  // ---------------------------------------------------------------------
  // Bad inputs

  /** A list whose elements are not strings is refused as such. */
  lemma BadNonStrings()
    ensures Construct([NonStr, NonStr, NonStr], Dict(map[]), None) == Failure(InvalidInputType)
  {
    assert [NonStr, NonStr, NonStr][0].NonStr?;
  }

  /** Parameters that are not a dictionary are refused, even with no instructions. */
  lemma BadParameters()
    ensures Construct([], NotDict, None) == Failure(InvalidParameterType)
  {
    assert AllParse([]);
  }

  /** A single bad instruction: its error is the experiment's error. */
  lemma SingleFails(s: string, e: Err)
    requires ParseStep(s) == Failure(e)
    ensures Construct([Str(s)], Dict(map[]), None) == Failure(e)
  {
    assert [Str(s)][0].text == s;
  }

  lemma NoKeywordSpelled()
    ensures "Discharge at 1 A at 2 hours"
      == "Discharge" + " " + ("at" + " " + ("1" + " " + ("A" + " " + ("at" + " " + ("2" + " " + "hours")))))
  {
  }

  lemma NoKeywordWords()
    ensures Words("Discharge at 1 A at 2 hours") == ["Discharge", "at", "1", "A", "at", "2", "hours"]
  {
    NoKeywordSpelled();
    UnwordsSeven("Discharge", "at", "1", "A", "at", "2", "hours");
    WordsUnwords(["Discharge", "at", "1", "A", "at", "2", "hours"]);
  }

  lemma NoKeywordIn()
    ensures var ws := ["Discharge", "at", "1", "A", "at", "2", "hours"];
            "for" !in ws && "until" !in ws
  {
  }

  /** A single instruction whose words hold neither keyword is malformed. */
  lemma NoKeywordFails(s: string, ws: seq<string>)
    requires Words(s) == ws && "for" !in ws && "until" !in ws
    ensures Construct([Str(s)], Dict(map[]), None) == Failure(MalformedInstruction)
  {
    SingleFails(s, MalformedInstruction);
  }

  /** An instruction with neither "for" nor "until" is malformed. */
  lemma BadNoKeyword()
    ensures Construct([Str("Discharge at 1 A at 2 hours")], Dict(map[]), None) == Failure(MalformedInstruction)
  {
    NoKeywordWords();
    NoKeywordIn();
    NoKeywordFails("Discharge at 1 A at 2 hours", ["Discharge", "at", "1", "A", "at", "2", "hours"]);
  }

  /**
   * A single instruction `s` whose words are `control + ["for"] + rest`
   * fails with the error of its cut clauses.
   */
  lemma ForFails(s: string, control: seq<string>, rest: seq<string>, e: Err)
    requires AllWords(control + ["for"] + rest) && Unwords(control + ["for"] + rest) == s
    requires "for" !in control && "until" !in control
    requires ParseClauses(Clauses(control, For, rest)) == Failure(e)
    ensures Construct([Str(s)], Dict(map[]), None) == Failure(e)
  {
    WordsUnwords(control + ["for"] + rest);
    SplitJoined(control, For, rest);
    SingleFails(s, e);
  }

  lemma RunAtSpelled()
    ensures Unwords(["Run", "at", "1", "A"] + ["for"] + ["2", "hours"]) == "Run at 1 A for 2 hours"
  {
    UnwordsSeven("Run", "at", "1", "A", "for", "2", "hours");
    assert ["Run", "at", "1", "A"] + ["for"] + ["2", "hours"] == ["Run", "at", "1", "A", "for", "2", "hours"];
  }

  lemma RunAtShape()
    ensures AllWords(["Run", "at", "1", "A"] + ["for"] + ["2", "hours"])
    ensures "for" !in ["Run", "at", "1", "A"] && "until" !in ["Run", "at", "1", "A"]
  {
  }

  lemma RunAtClauses()
    ensures ParseClauses(Clauses(["Run", "at", "1", "A"], For, ["2", "hours"])) == Failure(UnrecognizedAction)
  {
    assert ParseControl(["Run", "at", "1", "A"]) == Failure(UnrecognizedAction);
  }

  /** An action word other than Discharge, Charge, Hold or Rest is not recognised. */
  lemma BadAction()
    ensures Construct([Str("Run at 1 A for 2 hours")], Dict(map[]), None) == Failure(UnrecognizedAction)
  {
    RunAtSpelled();
    RunAtShape();
    RunAtClauses();
    ForFails("Run at 1 A for 2 hours", ["Run", "at", "1", "A"], ["2", "hours"], UnrecognizedAction);
  }

  lemma RunSpelled()
    ensures Unwords(["Run", "1", "A"] + ["for"] + ["2", "hours"]) == "Run 1 A for 2 hours"
  {
    UnwordsSix("Run", "1", "A", "for", "2", "hours");
    assert ["Run", "1", "A"] + ["for"] + ["2", "hours"] == ["Run", "1", "A", "for", "2", "hours"];
  }

  lemma RunShape()
    ensures AllWords(["Run", "1", "A"] + ["for"] + ["2", "hours"])
    ensures "for" !in ["Run", "1", "A"] && "until" !in ["Run", "1", "A"]
  {
  }

  lemma RunClauses()
    ensures ParseClauses(Clauses(["Run", "1", "A"], For, ["2", "hours"])) == Failure(UnparsableInstruction)
  {
    assert ParseControl(["Run", "1", "A"]) == Failure(UnparsableInstruction);
  }

  /** An action clause without "at" cannot be parsed. */
  lemma BadShape()
    ensures Construct([Str("Run 1 A for 2 hours")], Dict(map[]), None) == Failure(UnparsableInstruction)
  {
    RunSpelled();
    RunShape();
    RunClauses();
    ForFails("Run 1 A for 2 hours", ["Run", "1", "A"], ["2", "hours"], UnparsableInstruction);
  }

  lemma UnitBSpelled()
    ensures Unwords(["Discharge", "at", "1", "B"] + ["for"] + ["2", "hours"]) == "Discharge at 1 B for 2 hours"
  {
    UnwordsSeven("Discharge", "at", "1", "B", "for", "2", "hours");
    assert ["Discharge", "at", "1", "B"] + ["for"] + ["2", "hours"] == ["Discharge", "at", "1", "B", "for", "2", "hours"];
  }

  lemma UnitBShape()
    ensures AllWords(["Discharge", "at", "1", "B"] + ["for"] + ["2", "hours"])
    ensures "for" !in ["Discharge", "at", "1", "B"] && "until" !in ["Discharge", "at", "1", "B"]
  {
  }

  lemma UnitBClauses()
    ensures ParseClauses(Clauses(["Discharge", "at", "1", "B"], For, ["2", "hours"])) == Failure(UnknownUnit)
  {
    assert ParseQuantity("1", "B") == Failure(UnknownUnit);
  }

  /** A unit outside A, mA, C, V, W, mW is refused. */
  lemma BadUnit()
    ensures Construct([Str("Discharge at 1 B for 2 hours")], Dict(map[]), None) == Failure(UnknownUnit)
  {
    UnitBSpelled();
    UnitBShape();
    UnitBClauses();
    ForFails("Discharge at 1 B for 2 hours", ["Discharge", "at", "1", "B"], ["2", "hours"], UnknownUnit);
  }

  lemma YearsSpelled()
    ensures Unwords(["Discharge", "at", "1", "A"] + ["for"] + ["2", "years"]) == "Discharge at 1 A for 2 years"
  {
    UnwordsSeven("Discharge", "at", "1", "A", "for", "2", "years");
    assert ["Discharge", "at", "1", "A"] + ["for"] + ["2", "years"] == ["Discharge", "at", "1", "A", "for", "2", "years"];
  }

  lemma YearsShape()
    ensures AllWords(["Discharge", "at", "1", "A"] + ["for"] + ["2", "years"])
    ensures "for" !in ["Discharge", "at", "1", "A"] && "until" !in ["Discharge", "at", "1", "A"]
  {
  }

  lemma YearsClauses()
    ensures ParseClauses(Clauses(["Discharge", "at", "1", "A"], For, ["2", "years"])) == Failure(UnknownTimeUnit)
  {
    QuantityOneA();
    assert ParseControl(["Discharge", "at", "1", "A"]) == Success(Quantity(1.0, A));
    assert Durations.ParseDuration(["2", "years"]) == Failure(UnknownTimeUnit);
  }

  /** A time unit outside seconds, minutes, hours is refused. */
  lemma BadTimeUnit()
    ensures Construct([Str("Discharge at 1 A for 2 years")], Dict(map[]), None) == Failure(UnknownTimeUnit)
  {
    YearsSpelled();
    YearsShape();
    YearsClauses();
    ForFails("Discharge at 1 A for 2 years", ["Discharge", "at", "1", "A"], ["2", "years"], UnknownTimeUnit);
  }
}
