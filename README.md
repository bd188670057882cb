# PyBaMM experiment strings, modelled in Dafny

PyBaMM describes a battery cycling protocol as a `pybamm.Experiment` built
from a list of plain-English instructions, for example
"Discharge at 1 C for 0.5 hours", "Rest for 10 minutes" or
"Hold at 4.1 V until 50 mA". The constructor does four things:

- It turns each instruction into an operating condition: a magnitude, a
  base unit (`A`, `C`, `V` or `W`) and a duration in seconds.
- An "until" instruction gets no duration. Instead it gets a termination
  event: a threshold magnitude and a unit.
- It checks that the parameters argument is a dictionary.
- It reads the optional `frequency` as a duration in seconds. The default
  is 1.

`str()` of an experiment prints the instruction list as given, and `repr()`
wraps that list in `pybamm.Experiment(...)`.

This project is a pure functional model of that behaviour. The behaviour is
pinned down by the unit tests in
`tests/unit/test_experiments/test_experiment.py`. The `Experiment` class
itself is not part of this model.

The modules follow the parser's layers:

| module | file | role |
|---|---|---|
| `Wrappers` | wrappers.dfy | `Option` and `Result` (with `:-` propagation) |
| `Errors` | errors.dfy | one `Err` variant per failure kind the constructor raises |
| `Tokens` | tokens.dfy | `Words`, which splits on whitespace like `str.split()` (a word is taken up to the next blank, and blanks give no empty words), and `Unwords`, which joins with single spaces |
| `Decimal` | decimal.dfy | unsigned decimal literals such as `200`, `0.5` and `4.1`, read as exact reals |
| `Units` | units.dfy | the unit tokens `A`, `mA`, `C`, `V`, `W` and `mW`; the milli forms are divided by 1000 |
| `Durations` | durations.dfy | `second(s)`, `minute(s)` and `hour(s)`, converted to seconds |
| `Steps` | steps.dfy | one instruction → `Step(condition, event)`, including the sign convention |
| `StepProperties` | step_properties.dfy | properties of the step parser for whole families of instructions |
| `Printing` | printing.dfy | Python's `str()` of a list of strings, and a reader that takes the printed list back apart |
| `Experiments` | experiment.dfy | `Construct`, `str` and `repr` |
| `ExperimentProperties` | experiment_properties.dfy | order, repetition, and rebuilding an experiment from `str()` |
| `TestCases` | test_cases.dfy | every assertion of the test module, proved about the model |

The grammar of one instruction:

- The instruction is split into words. It is cut at the first `for`. If
  there is no `for`, it is cut at the first `until`. If there is neither,
  the result is `MalformedInstruction` ("must contain").
- The words before the keyword are one of two forms:
  - `Rest`, which gives 0 A;
  - `<Action> at <number> <unit>`.
  
  When an `at` follows the first word, the words before it must be exactly
  one action; otherwise the result is `UnrecognizedAction` ("instruction
  must be"), so "Run at 1 A" and "Discharge quickly at 1 A" are both
  unrecognised. With no `at` (and no `Rest`) the result is
  `UnparsableInstruction` ("not recognized"). The bare `Rest` form takes only `for`, so
  "Rest until 4.1 V" is `UnparsableInstruction` as well. Rest written in
  the event shape, "Rest at 1 A until 4.1 V", gives 0 A with the event.
- The sign convention: Charge negates the magnitude; Discharge and Hold
  keep it.
- After `for` come `<number> <time unit>`, converted to seconds. After
  `until` come `<number> <unit>`, the event threshold. The threshold is
  unit-scaled but never sign-flipped.
- An unknown unit gives `UnknownUnit` ("units must be"). An unknown time
  unit gives `UnknownTimeUnit` ("time units must be").

`Construct` checks its arguments in this order:

1. every element is a string (`InvalidInputType`);
2. every instruction parses, and the first failure decides the error;
3. the parameters are a dictionary (`InvalidParameterType`);
4. the frequency parses; a bad frequency gives the duration converter's
   error, such as `UnknownTimeUnit` for "1 year".

## Model

| member | source | states |
|---|---|---|
| Tokens.Words | tests/unit/test_experiments/test_experiment.py:12-21 | every element of the split is a non-empty word without whitespace; the empty text has no words |
| Tokens.WordsSkipsSpace | tests/unit/test_experiments/test_experiment.py:12-21 | a whitespace character in front of any text adds no word: leading and repeated blanks give no empty words, as in `str.split()` |
| Tokens.WordsTakesWord | tests/unit/test_experiments/test_experiment.py:12-21 | a word followed by a whitespace character is the first word of the split, and the split of what follows the blank comes after it |
| Tokens.WordsUnwords | tests/unit/test_experiments/test_experiment.py:12-21 | splitting undoes joining with single spaces: `Words(Unwords(ws)) == ws` for every list of words |
| Decimal.Parse | tests/unit/test_experiments/test_experiment.py:12-21 | a number is read exactly when it is an unsigned decimal literal, and its value is never negative |
| Decimal.ParseWhole | tests/unit/test_experiments/test_experiment.py:12-21 | a run of digits reads as the natural number it spells |
| Decimal.ParsePointed | tests/unit/test_experiments/test_experiment.py:12-13 | `w.f` reads as the whole part plus the fraction digits over a power of ten |
| Decimal.ParseShowNat | tests/unit/test_experiments/test_experiment.py:29-38 | every natural number written in decimal reads back as itself |
| Decimal.LiteralIsNotKeyword | tests/unit/test_experiments/test_experiment.py:12-21 | a literal is one non-empty word and is never one of the keywords `for`, `until` or `at` |
| Units.ParseUnit | tests/unit/test_experiments/test_experiment.py:87-88 | exactly the six unit tokens are recognised, each as the unit and prefix that its symbol spells; anything else is `UnknownUnit` |
| Units.ParseSymbol | tests/unit/test_experiments/test_experiment.py:29-34 | reading a unit's own symbol gives back that unit and prefix |
| Units.ParseQuantity | tests/unit/test_experiments/test_experiment.py:29-38 | success iff the unit token and the literal are valid; a bad unit is `UnknownUnit` even when the number is bad too; `mA` and `mW` give x/1000 in A and W, and the other units give x unchanged; the magnitude is never negative |
| Durations.ParseTimeUnit | tests/unit/test_experiments/test_experiment.py:89-90 | exactly the singular and plural second, minute and hour tokens are recognised, each as its own time unit; anything else is `UnknownTimeUnit` |
| Durations.ParseDuration | tests/unit/test_experiments/test_experiment.py:29-36 | success iff there are two words, a literal and a time unit; seconds give x, minutes 60x and hours 3600x; each failure has its own error |
| Durations.DurationsAgree | tests/unit/test_experiments/test_experiment.py:29-36 | n hours are 60 times n minutes, which are 60 times n seconds; singular and plural spellings agree |
| Steps.ParseAction | tests/unit/test_experiments/test_experiment.py:83-84 | only the words Discharge, Charge and Hold are actions, each spelled as its own word |
| Steps.Signed | tests/unit/test_experiments/test_experiment.py:29-38 | the result is the magnitude or its negation, and for a non-zero magnitude it is negated iff the action is Charge |
| Steps.SplitClauses | tests/unit/test_experiments/test_experiment.py:81-82 | there is no shape iff neither `for` nor `until` occurs; otherwise the words are the control words, the keyword and the rest, cut at the first `for` and only when there is no `for` at the first `until` |
| Steps.ParseControl | tests/unit/test_experiments/test_experiment.py:83-86 | a `Rest` start gives 0 A; `<Action> at <n> <unit>` gives the quantity signed by the action; an `at` after the first word not preceded by exactly one action is `UnrecognizedAction`; no `at` is `UnparsableInstruction`, as is an action clause of the wrong length |
| Steps.ParseEvent | tests/unit/test_experiments/test_experiment.py:20-21 | an event is exactly `<n> <unit>` read as a quantity with no sign applied, so its magnitude is never negative |
| Steps.ParseEnding | tests/unit/test_experiments/test_experiment.py:12-21 | the step keeps the control quantity; a `for` step has a duration and no event, and an `until` step the reverse; the duration is the parsed time and the event the parsed threshold; the step succeeds iff its `for` duration (or `until` threshold) parses, and otherwise fails with that clause's own error |
| Steps.ParseClauses | tests/unit/test_experiments/test_experiment.py:12-21 | a Rest instruction cut at `until` is `UnparsableInstruction` unless written `Rest at <n> <unit>`; otherwise a bad control clause gives its own error and a good one hands its quantity to the ending; a step has an event iff it was cut at `until` and a duration iff cut at `for`; every duration is non-negative |
| Steps.ParseWords | tests/unit/test_experiments/test_experiment.py:12-21 | `MalformedInstruction` iff no keyword occurs; an event iff there is no duration iff no `for` occurs |
| Steps.ParseStep | tests/unit/test_experiments/test_experiment.py:12-21 | as `ParseWords`, stated for the instruction text: `MalformedInstruction` iff the text has no `for`/`until` word; the event and the duration exclude each other |
| StepProperties.ControlOfActionWord | tests/unit/test_experiments/test_experiment.py:83-84 | an action word followed by any words gives the same result for every action, up to the action's sign |
| StepProperties.ChargeControlNegates | tests/unit/test_experiments/test_experiment.py:29-38 | for any control words, Charge gives the Discharge quantity negated, or the same error |
| StepProperties.HoldControlKeeps | tests/unit/test_experiments/test_experiment.py:36-38 | for any control words, Hold gives the same quantity as Discharge |
| StepProperties.SplitClausesCons | tests/unit/test_experiments/test_experiment.py:12-21 | a leading non-keyword word only lengthens the control words |
| StepProperties.EndingNegated | tests/unit/test_experiments/test_experiment.py:29-38 | negating the control quantity negates the completed step and leaves its event untouched |
| StepProperties.SignedByActions | tests/unit/test_experiments/test_experiment.py:29-38 | signing by Charge negates what signing by Discharge gives, and Hold signs as Discharge does, errors passing through |
| StepProperties.ClausesCompleted | tests/unit/test_experiments/test_experiment.py:12-21 | away from Rest, a cut instruction gives its control clause's error or the control quantity completed by the ending |
| StepProperties.CompletedNegated | tests/unit/test_experiments/test_experiment.py:29-38 | completing a negated control quantity negates the completed step, and an error stays the same |
| StepProperties.NegatedClauses | tests/unit/test_experiments/test_experiment.py:29-38 | cut instructions whose control words give negated quantities parse to negated steps, or to the same error |
| StepProperties.ChargeNegates | tests/unit/test_experiments/test_experiment.py:12-17 | for every instruction, the Charge form parses to the Discharge form with the condition's magnitude negated and the event unchanged, or to the same error |
| StepProperties.HoldKeeps | tests/unit/test_experiments/test_experiment.py:19-21 | for every instruction, the Hold form parses exactly as the Discharge form |
| StepProperties.RestIsZeroAmperes | tests/unit/test_experiments/test_experiment.py:18 | any parsing instruction that starts with Rest has magnitude 0 in amperes |
| StepProperties.RestUntilUnparsable | tests/unit/test_experiments/test_experiment.py:85-86 | every "Rest until ..." instruction with no later `for` is `UnparsableInstruction`: the bare Rest shape takes only `for` |
| StepProperties.RestAtClauses | tests/unit/test_experiments/test_experiment.py:12-21 | Rest cut at `until` in the event shape `Rest at <n> <unit>` gives 0 A with the threshold as its event, or the threshold's error |
| StepProperties.RestAtUntilWords | tests/unit/test_experiments/test_experiment.py:18-21 | the words "Rest at n u until m u'" parse to 0 A, no duration, and the event m rescaled to its base unit |
| StepProperties.RestAtUntilShape | tests/unit/test_experiments/test_experiment.py:18-21 | every "Rest at n u until m u'" text parses to 0 A whatever n and u are, no duration, and the event m rescaled to its base unit |
| StepProperties.StepOfWords | tests/unit/test_experiments/test_experiment.py:12-21 | parsing the words joined with spaces is parsing the words |
| StepProperties.SplitJoined | tests/unit/test_experiments/test_experiment.py:12-21 | cutting at the first keyword undoes joining at it |
| StepProperties.ControlOfAction | tests/unit/test_experiments/test_experiment.py:12-21 | `<Action> at <n> <unit>` is `n` in its base unit, signed by the action |
| StepProperties.ForDurationDecides | tests/unit/test_experiments/test_experiment.py:89-90 | every "<Action> at n u for ..." with a valid action clause succeeds iff its duration parses, and otherwise fails with the duration's error (such as `UnknownTimeUnit`) |
| StepProperties.UntilEventDecides | tests/unit/test_experiments/test_experiment.py:87-88 | every "<Action> at n u until ..." with a valid action clause succeeds iff its threshold parses, and otherwise fails with the threshold's error (such as `UnknownUnit`) |
| StepProperties.ExtraWordBeforeAt | tests/unit/test_experiments/test_experiment.py:83-84 | a word between the action and `at` makes the action `UnrecognizedAction` |
| StepProperties.ForShape | tests/unit/test_experiments/test_experiment.py:12-17 | every "<Action> at n u for d t" parses to n rescaled and signed by the action, d in seconds, and no event |
| StepProperties.UntilShape | tests/unit/test_experiments/test_experiment.py:20-21 | every "<Action> at n u until m u'" parses to n signed by the action, no duration, and the event m rescaled and not signed |
| StepProperties.RestShape | tests/unit/test_experiments/test_experiment.py:18 | every "Rest for d t" parses to 0 A for d in seconds, with no event |
| Experiments.Texts | tests/unit/test_experiments/test_experiment.py:77-80 | the texts exist iff every input is a string, and they are the inputs' texts at the same indices |
| Experiments.ParseAll | tests/unit/test_experiments/test_experiment.py:10-25 | success iff every instruction parses, giving one step per instruction at its index; on failure the error is that of the first instruction that fails |
| Experiments.Conditions | tests/unit/test_experiments/test_experiment.py:26-40 | one operating condition per step, at the step's index |
| Experiments.Events | tests/unit/test_experiments/test_experiment.py:41-44 | one event (or none) per step, at the step's index |
| Experiments.Frequency | tests/unit/test_experiments/test_experiment.py:24 | no frequency means 1; a given one parses iff it is a literal and a time unit, and is then the literal times 1, 60 or 3600; it is never negative; not two words is `UnparsableInstruction`, an unknown time unit `UnknownTimeUnit`, a bad number `InvalidNumber` |
| Experiments.Construct | tests/unit/test_experiments/test_experiment.py:10-25 | success iff every input is a string that parses, the parameters are a dictionary and the frequency parses; on success the conditions and events are index-aligned with the inputs, the parameters are passed through, and the frequency is 1 or the given duration in seconds; each failure has its own error: a non-string input, then the first failing instruction, then non-dict parameters, then the frequency's own error |
| Experiments.StrOf | tests/unit/test_experiments/test_experiment.py:69 | `str()` prints the instructions as given: for quote-free texts the printed list reads back to exactly the instruction list |
| Experiments.ReprOf | tests/unit/test_experiments/test_experiment.py:70-74 | `repr()` is `pybamm.Experiment(` + the printed list + `)`: for quote-free texts it reads back to exactly the instruction list |
| ExperimentProperties.ParseAllAppend | tests/unit/test_experiments/test_experiment.py:49-51 | parsing a concatenation gives the steps of the first part followed by those of the second; the first failure wins |
| ExperimentProperties.ParseAllTwice | tests/unit/test_experiments/test_experiment.py:51 | a list written twice parses to its steps written twice: duplicates are neither merged nor reordered |
| Printing.Quoted | tests/unit/test_experiments/test_experiment.py:72-73 | a quoted text is two characters longer than the text and starts and ends with a single quote |
| Printing.QuotedInside | tests/unit/test_experiments/test_experiment.py:72-73 | the characters between the two quotes are the text itself |
| Printing.ShowList | tests/unit/test_experiments/test_experiment.py:69 | the printed list is bracketed, and is `[]` exactly for the empty list |
| Printing.ReadShowList | tests/unit/test_experiments/test_experiment.py:69 | the printed list reads back as the list, for texts without quotes |
| ExperimentProperties.StrReprOfConstruct | tests/unit/test_experiments/test_experiment.py:66-74 | `str()` is the printed instruction list as given, and `repr()` is that list inside `pybamm.Experiment(...)` |
| ExperimentProperties.Reconstruct | tests/unit/test_experiments/test_experiment.py:66-69 | reading `str()` back and constructing again, with the same parameters and frequency, gives the same experiment |
| ExperimentProperties.ConstructOf | tests/unit/test_experiments/test_experiment.py:10-46 | when each input parses to a given step, the experiment holds exactly those conditions and events at their indices, with the parameters and frequency as given |
| TestCases.NumFourPointOne | tests/unit/test_experiments/test_experiment.py:20-21 | "4.1" reads as 4.1 |
| TestCases.NumHalf | tests/unit/test_experiments/test_experiment.py:12-13 | "0.5" reads as 0.5 |
| TestCases.QuantityTwoHundredMilliamps | tests/unit/test_experiments/test_experiment.py:15 | "200 mA" is 0.2 A |
| TestCases.QuantityTwoHundredMilliwatts | tests/unit/test_experiments/test_experiment.py:17 | "200 mW" is 0.2 W |
| TestCases.QuantityTenMilliamps | tests/unit/test_experiments/test_experiment.py:50 | "10 mA" is 0.01 A |
| TestCases.QuantityFiftyMilliamps | tests/unit/test_experiments/test_experiment.py:21 | "50 mA" is 0.05 A |
| TestCases.HalfHour | tests/unit/test_experiments/test_experiment.py:12 | "0.5 hours" is 1800 seconds |
| TestCases.FortyFiveMinutes | tests/unit/test_experiments/test_experiment.py:13 | "45 minutes" is 2700 seconds |
| TestCases.TenMinutes | tests/unit/test_experiments/test_experiment.py:18 | "10 minutes" is 600 seconds |
| TestCases.TwentySeconds | tests/unit/test_experiments/test_experiment.py:19 | "20 seconds" is 20 seconds |
| TestCases.DischargeOneCHalfHour | tests/unit/test_experiments/test_experiment.py:12 | parses to (1, C, 1800) with no event |
| TestCases.ChargeHalfCFortyFiveMinutes | tests/unit/test_experiments/test_experiment.py:13 | parses to (-0.5, C, 2700) with no event |
| TestCases.DischargeOneAHalfHour | tests/unit/test_experiments/test_experiment.py:14 | parses to (1, A, 1800) with no event |
| TestCases.ChargeTwoHundredMilliampsFortyFiveMinutes | tests/unit/test_experiments/test_experiment.py:15 | parses to (-0.2, A, 2700) with no event |
| TestCases.DischargeOneWHalfHour | tests/unit/test_experiments/test_experiment.py:16 | parses to (1, W, 1800) with no event |
| TestCases.ChargeTwoHundredMilliwattsFortyFiveMinutes | tests/unit/test_experiments/test_experiment.py:17 | parses to (-0.2, W, 2700) with no event |
| TestCases.RestTenMinutes | tests/unit/test_experiments/test_experiment.py:18 | parses to (0, A, 600) with no event |
| TestCases.HoldOneVTwentySeconds | tests/unit/test_experiments/test_experiment.py:19 | parses to (1, V, 20) with no event |
| TestCases.ChargeOneCUntilFourPointOneV | tests/unit/test_experiments/test_experiment.py:20 | parses to (-1, C, None) with event (4.1, V) |
| TestCases.HoldFourPointOneVUntilFiftyMilliamps | tests/unit/test_experiments/test_experiment.py:21 | parses to (4.1, V, None) with event (0.05, A) |
| TestCases.DischargeTenMilliampsHalfHour | tests/unit/test_experiments/test_experiment.py:50 | parses to (0.01, A, 1800) with no event |
| TestCases.DischargeOneCTwentySeconds | tests/unit/test_experiments/test_experiment.py:67 | parses to (1, C, 20) with no event |
| TestCases.ChargeHalfWTenMinutes | tests/unit/test_experiments/test_experiment.py:67 | parses to (-0.5, W, 600) with no event |
| TestCases.OneMinute | tests/unit/test_experiments/test_experiment.py:24 | the frequency "1 minute" is 60 seconds |
| TestCases.OneYear | tests/unit/test_experiments/test_experiment.py:89-90 | the frequency reuses the duration converter that these lines test, so the frequency "1 year" is `UnknownTimeUnit` as the duration "1 year" is |
| TestCases.ReadStrings | tests/unit/test_experiments/test_experiment.py:9-46 | the ten instructions with `{"test": "test"}` and frequency "1 minute" construct an experiment with the ten asserted conditions, the asserted events, those parameters and frequency 60 |
| TestCases.RepeatSteps | tests/unit/test_experiments/test_experiment.py:49-63 | each of the five instructions, repeated pair included, parses to the asserted condition at its index |
| TestCases.ReadStringsRepeat | tests/unit/test_experiments/test_experiment.py:48-64 | the list with its pair repeated constructs the five asserted conditions in order, and the frequency defaults to 1 |
| TestCases.StrRepr | tests/unit/test_experiments/test_experiment.py:66-74 | `str()` is the printed input list and `repr()` is the asserted `pybamm.Experiment([...])` text |
| TestCases.BadNonStrings | tests/unit/test_experiments/test_experiment.py:77-80 | a list of non-strings is `InvalidInputType` |
| TestCases.BadNoKeyword | tests/unit/test_experiments/test_experiment.py:81-82 | "Discharge at 1 A at 2 hours" is `MalformedInstruction` |
| TestCases.BadAction | tests/unit/test_experiments/test_experiment.py:83-84 | "Run at 1 A for 2 hours" is `UnrecognizedAction` |
| TestCases.BadShape | tests/unit/test_experiments/test_experiment.py:85-86 | "Run 1 A for 2 hours" is `UnparsableInstruction` |
| TestCases.BadUnit | tests/unit/test_experiments/test_experiment.py:87-88 | "Discharge at 1 B for 2 hours" is `UnknownUnit` |
| TestCases.BadTimeUnit | tests/unit/test_experiments/test_experiment.py:89-90 | "Discharge at 1 A for 2 years" is `UnknownTimeUnit` |
| TestCases.BadParameters | tests/unit/test_experiments/test_experiment.py:91-94 | a parameters argument that is not a dictionary is `InvalidParameterType` |

## Left out

- The implementation of `pybamm.Experiment` is not part of this model.
  - The model follows the behaviour that its unit tests assert.
  - Where the tests leave a choice open, the model makes the smallest
    choice consistent with them and states it in a doc comment:
    - the order of the checks (`Experiments.Construct`);
    - words between "Rest" and `for` are ignored, so "Rest at 1 A for 10
      minutes" is a rest at 0 A (`Steps.ParseControl`);
    - Rest in the event shape, "Rest at <n> <unit> until ...", is a rest
      at 0 A with the event, and `<n> <unit>` are not checked, as with
      `for`; any other Rest cut at `until` is unparsable
      (`Steps.ParseClauses`);
    - when an `at` follows the first word, the words before the first such
      `at` must be exactly one action, otherwise the action is
      unrecognised; an instruction starting with `at` has no action clause
      and is unparsable (`Steps.ParseControl`).
- Floating point: magnitudes and seconds are exact reals. `200 mA` is
  exactly 0.2 A, which is the equality the tests mean. IEEE rounding is not
  modelled.
- Python exception classes and message texts. Each failure is one `Err`
  variant, named after the message it stands for.
- Printing.Quoted does not model Python's escaping inside a string's repr.
  Python escapes quotes, backslashes and control characters such as a tab
  (which separates words, so "Rest\tfor 10 minutes" parses); the model
  prints them raw. It agrees with Python only for printable text without
  quotes or backslashes. Texts holding a quote are also outside the
  str/repr round trip (`ExperimentProperties.Reconstruct` requires
  quote-free texts).
- Decimal.Parse: signed, exponent and special literals ("-1", "1e3",
  "inf") and digit groups written with `_` ("1_000") are `InvalidNumber`,
  where Python's `float()` accepts them. The tests never use them, and the grammar's signs come
  from the action word.
- Whitespace other than space, tab, newline and carriage return does not
  separate words. Python's `str.split()` also splits on other Unicode
  spaces.
- Keywords are matched as whole words. Word matching keeps "Discharge"
  from containing "charge", and the tests only use keywords as separate
  words.
- The `parameters` argument is a `map<string, string>` passed through
  unread. Its contents and any default of `None` for it are not modelled.
- What the simulation does with the parsed conditions. No test observes it.
- The test module's `__main__` block and the `debug_mode` setting
  (lines 97-104): these are process-wide settings of the test harness.
- The commented-out parameter dictionary (lines 106-118): it is dead text.
