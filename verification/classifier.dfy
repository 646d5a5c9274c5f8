/**
 The temperature classifier `getTemperatureString`: three labels over three
 bands. The middle band is open at both ends, so exactly 80 falls through to
 the last branch and is labelled "cold".
 */
module Classifier {
  import opened Types

  const Hot := "hot"
  const Moderate := "moderate"
  const Cold := "cold"

  /** The labels the classifier can produce. */
  const Labels: set<string> := {Hot, Moderate, Cold}

  function TemperatureString(temp: int64): (tag: string)
    ensures tag in Labels
    ensures tag == Hot <==> temp > 80
    ensures tag == Moderate <==> 60 < temp < 80
    ensures tag == Cold <==> temp <= 60 || temp == 80
  {
    if temp > 80 then Hot
    else if temp > 60 && temp < 80 then Moderate
    else Cold
  }

  /** An independent ordering of the labels, coldest first. */
  function Rank(tag: string): (n: nat)
    requires tag in Labels
    ensures n <= 2
  {
    if tag == Cold then 0 else if tag == Moderate then 1 else 2
  }

  /** Away from 80 the classifier is monotone: a warmer reading never gets a
      colder label. */
  lemma MonotoneAwayFromEighty(a: int64, b: int64)
    requires a <= b && a != 80 && b != 80
    ensures Rank(TemperatureString(a)) <= Rank(TemperatureString(b))
  {
  }

  /** At 80 monotonicity breaks: 79 is moderate, 80 cold, 81 hot. */
  lemma EightyIsColderThanSeventyNine()
    ensures TemperatureString(79) == Moderate
    ensures TemperatureString(80) == Cold
    ensures TemperatureString(81) == Hot
    ensures Rank(TemperatureString(80)) < Rank(TemperatureString(79))
  {
  }
}
