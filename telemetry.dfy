/** The blink telemetry of the video feed: confidence percentage and words per minute. */
module Telemetry {
  import opened Base
  import JsText

  /** `Math.round(x)`: the nearest integer, halves rounding up (towards +infinity). */
  function Round(x: real): (r: int)
    ensures r as real <= x + 0.5 < r as real + 1.0
  {
    (x + 0.5).Floor
  }

  /** `Math.round(c * 100)` when the event carries a confidence, otherwise `null`. */
  function ConfidencePercent(c: Option<real>): (r: Option<int>)
    ensures r.Some? <==> c.Some?
    ensures c.Some? ==> r.value as real - 0.5 <= c.value * 100.0 < r.value as real + 0.5
  {
    match c
    case Some(v) => Some(Round(v * 100.0))
    case None => None
  }

  lemma ConfidenceExample()
    ensures ConfidencePercent(Some(0.873)) == Some(87)
    ensures ConfidencePercent(None) == None
  {
  }

  /** `!startTime` in JavaScript is false only for a set, non-zero timestamp. */
  predicate StartTimeSet(startTime: Option<int>)
    ensures StartTimeSet(startTime) ==> startTime.Some?
    ensures startTime == Some(0) ==> !StartTimeSet(startTime)
    ensures startTime.Some? && startTime.value != 0 ==> StartTimeSet(startTime)
  {
    startTime.Some? && startTime.value != 0
  }

  /** The words-per-minute display: the initial 0, or the inputs of the last recomputation. */
  datatype WpmReading = Initial | Measured(words: nat, elapsedMs: int)

  /** `words / elapsedMinutes` for a positive elapsed time (before `toFixed(1)`). */
  function WordsPerMinute(words: nat, elapsedMs: int): (r: real)
    requires elapsedMs > 0
    ensures r >= 0.0
    ensures r * (elapsedMs as real) == words as real * 60000.0
  {
    words as real * 60000.0 / elapsedMs as real
  }

  /** Two words one minute after the start read as 2.0 words per minute. */
  lemma WpmExample()
    ensures WordsPerMinute(JsText.WordCount("HELLO WORLD"), 60000) == 2.0
  {
    JsText.WordCountHelloWorld();
  }

  /** The words-per-minute effect: recomputed only with a start time and non-empty text, otherwise held. */
  function RecomputeWpm(prior: WpmReading, startTime: Option<int>, text: string, now: int): (r: WpmReading)
    ensures !StartTimeSet(startTime) || |text| == 0 ==> r == prior
    ensures StartTimeSet(startTime) && |text| > 0 ==>
      r.Measured? && r.words == JsText.WordCount(text) && r.elapsedMs + startTime.value == now
  {
    if !StartTimeSet(startTime) || |text| == 0 then prior
    else Measured(JsText.WordCount(text), now - startTime.value)
  }

  /** A recomputation on text with at least one word records that many words; white space alone records one. */
  lemma RecomputedWords(prior: WpmReading, startTime: Option<int>, text: string, now: int)
    requires StartTimeSet(startTime) && |text| > 0
    ensures RecomputeWpm(prior, startTime, text, now).words >= 1
    ensures JsText.AllSpace(text) ==> RecomputeWpm(prior, startTime, text, now).words == 1
    ensures !JsText.AllSpace(text) ==> RecomputeWpm(prior, startTime, text, now).words == JsText.TokenCount(text)
  {
    JsText.WordCountIsTokenCount(text);
  }
}
