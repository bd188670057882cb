/**
 * The duration converter: `<number> <time unit>` becomes a number of
 * seconds. Step durations and the experiment's frequency both use it.
 */
module Durations {
  import opened Wrappers
  import opened Errors
  import Decimal

  datatype TimeUnit = Second | Minute | Hour

  function SecondsPer(t: TimeUnit): (k: real)
    ensures k >= 1.0
  {
    match t
    case Second => 1.0
    case Minute => 60.0
    case Hour => 3600.0
  }

  /** Singular and plural spellings of seconds, minutes and hours. */
  predicate IsTimeToken(t: string) {
    t in {"second", "seconds", "minute", "minutes", "hour", "hours"}
  }

  function ParseTimeUnit(t: string): (r: Result<TimeUnit, Err>)
    ensures r.Success? <==> IsTimeToken(t)
    ensures r.Failure? ==> r.error == UnknownTimeUnit
    ensures r.Success? ==>
      r.value == if t in {"second", "seconds"} then Second else if t in {"minute", "minutes"} then Minute else Hour
  {
    if t == "second" || t == "seconds" then Success(Second)
    else if t == "minute" || t == "minutes" then Success(Minute)
    else if t == "hour" || t == "hours" then Success(Hour)
    else Failure(UnknownTimeUnit)
  }

  /**
   * Converts the two words `<number> <time unit>` to seconds. Any other
   * number of words fits no instruction shape; the time unit is checked
   * before the number.
   */
  function ParseDuration(words: seq<string>): (r: Result<real, Err>)
    ensures |words| != 2 ==> r == Failure(UnparsableInstruction)
    ensures r.Success? <==> |words| == 2 && IsTimeToken(words[1]) && Decimal.IsLiteral(words[0])
    ensures |words| == 2 && !IsTimeToken(words[1]) ==> r == Failure(UnknownTimeUnit)
    ensures |words| == 2 && IsTimeToken(words[1]) && !Decimal.IsLiteral(words[0]) ==> r == Failure(InvalidNumber)
    ensures |words| == 2 && Decimal.IsLiteral(words[0]) ==>
      var x := Decimal.Parse(words[0]).value;
      && (words[1] in {"second", "seconds"} ==> r == Success(x))
      && (words[1] in {"minute", "minutes"} ==> r == Success(60.0 * x))
      && (words[1] in {"hour", "hours"} ==> r == Success(3600.0 * x))
    ensures r.Success? ==> r.value >= 0.0
  {
    if |words| != 2 then Failure(UnparsableInstruction)
    else
      var t :- ParseTimeUnit(words[1]);
      match Decimal.Parse(words[0])
      case None => Failure(InvalidNumber)
      case Some(x) => Success(x * SecondsPer(t))
  }

  /**
   * The conversion is linear and the three units agree: n hours are 60
   * times n minutes, which are 60 times n seconds; singular and plural
   * spellings mean the same.
   */
  lemma DurationsAgree(n: string)
    requires Decimal.IsLiteral(n)
    ensures ParseDuration([n, "hours"]).Success? && ParseDuration([n, "minutes"]).Success?
    ensures ParseDuration([n, "hours"]).value == 60.0 * ParseDuration([n, "minutes"]).value
    ensures ParseDuration([n, "minutes"]).value == 60.0 * ParseDuration([n, "seconds"]).value
    ensures ParseDuration([n, "hour"]) == ParseDuration([n, "hours"])
    ensures ParseDuration([n, "minute"]) == ParseDuration([n, "minutes"])
    ensures ParseDuration([n, "second"]) == ParseDuration([n, "seconds"])
  {
  }
}
