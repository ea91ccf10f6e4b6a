/** The front end's guarded metric formulas (frontend/src/lib/typingUtils.ts). */
module TypingUtils {
  import opened Basics

  /** Words per minute: five characters make a word; a zero time gives 0 instead of a division. */
  function CalculateWpm(correctChars: real, timeInMinutes: real): (r: real)
    ensures timeInMinutes == 0.0 ==> r == 0.0
    ensures timeInMinutes != 0.0 ==> r * timeInMinutes * 5.0 == correctChars
    ensures correctChars >= 0.0 && timeInMinutes > 0.0 ==> r >= 0.0
  {
    if timeInMinutes == 0.0 then 0.0 else (correctChars / 5.0) / timeInMinutes
  }

  /** WPM is linear in the character count for a fixed time. */
  lemma WpmLinear(a: real, b: real, k: real, t: real)
    ensures CalculateWpm(a + b, t) == CalculateWpm(a, t) + CalculateWpm(b, t)
    ensures CalculateWpm(k * a, t) == k * CalculateWpm(a, t)
  {
  }

  /** Accuracy in percent, clamped below at 0; no characters at all count as perfect. */
  function CalculateAccuracy(totalChars: real, errors: real): (r: real)
    ensures r >= 0.0
    ensures totalChars == 0.0 ==> r == 100.0
    ensures totalChars > 0.0 && errors >= 0.0 ==> r <= 100.0
    ensures totalChars != 0.0 && errors == 0.0 ==> r == 100.0
    ensures totalChars > 0.0 && errors >= totalChars ==> r == 0.0
    ensures totalChars > 0.0 && errors <= totalChars ==> r * totalChars == (totalChars - errors) * 100.0
  {
    if totalChars == 0.0 then 100.0
    else MaxReal(0.0, ((totalChars - errors) / totalChars) * 100.0)
  }

  /** `Object.values(keyPresses).flatMap(key => key.times || [])`: the keys' time lists, concatenated in key order. */
  function Flatten(perKey: seq<seq<int>>): (times: seq<int>)
    ensures |perKey| == 0 ==> times == []
  {
    if perKey == [] then [] else Flatten(perKey[..|perKey| - 1]) + perKey[|perKey| - 1]
  }

  /** Sum of a list of intervals, as `reduce((a, b) => a + b, 0)` folds it. */
  function Sum(s: seq<int>): int {
    if s == [] then 0 else Sum(s[..|s| - 1]) + s[|s| - 1]
  }

  /** The gaps between consecutive timestamps, built by the `for`/`push` loop. */
  method Intervals(times: seq<int>) returns (intervals: seq<int>)
    requires |times| >= 2
    ensures |intervals| == |times| - 1
    ensures forall i :: 1 <= i < |times| ==> intervals[i - 1] == times[i] - times[i - 1]
    ensures Sum(intervals) == times[|times| - 1] - times[0]
  {
    intervals := [];
    var i := 1;
    while i < |times|
      invariant 1 <= i <= |times|
      invariant |intervals| == i - 1
      invariant forall j :: 1 <= j < i ==> intervals[j - 1] == times[j] - times[j - 1]
      invariant Sum(intervals) == times[i - 1] - times[0]
    {
      assert (intervals + [times[i] - times[i - 1]])[..i - 1] == intervals;
      intervals := intervals + [times[i] - times[i - 1]];
      i := i + 1;
    }
  }

  /**
   * `calculateConsistency`: 100 for fewer than two timestamps, otherwise `max(0, 100 - stdDev)`
   * where `stdDev` is the standard deviation of the intervals, supplied by the caller.
   */
  method CalculateConsistency(perKey: seq<seq<int>>, stdDev: seq<int> -> real) returns (r: real)
    ensures r >= 0.0
    ensures |Flatten(perKey)| < 2 ==> r == 100.0
    ensures |Flatten(perKey)| >= 2 && stdDev(IntervalsOf(Flatten(perKey))) >= 0.0 ==> r <= 100.0
    ensures |Flatten(perKey)| >= 2 ==> r == MaxReal(0.0, 100.0 - stdDev(IntervalsOf(Flatten(perKey))))
  {
    var times := Flatten(perKey);
    if |times| < 2 {
      return 100.0;
    }
    var intervals := Intervals(times);
    IntervalsAgree(times, intervals);
    r := MaxReal(0.0, 100.0 - stdDev(intervals));
  }

  /** The interval list as a value, for stating what `CalculateConsistency` reduces. */
  function IntervalsOf(times: seq<int>): (r: seq<int>)
    requires |times| >= 1
    ensures |r| == |times| - 1
  {
    seq(|times| - 1, i requires 0 <= i < |times| - 1 => times[i + 1] - times[i])
  }

  lemma IntervalsAgree(times: seq<int>, intervals: seq<int>)
    requires |times| >= 2
    requires |intervals| == |times| - 1
    requires forall i :: 1 <= i < |times| ==> intervals[i - 1] == times[i] - times[i - 1]
    ensures intervals == IntervalsOf(times)
  {
  }

  /** Concatenating per-key lists does not sort them, so an interval can be negative. */
  lemma FlattenedIntervalCanBeNegative()
    ensures IntervalsOf(Flatten([[500], [100]])) == [-400]
  {
    assert Flatten([[500]]) == [500] by {
      assert [[500]][..0] == [];
    }
    assert [[500], [100]][..1] == [[500]];
  }
}
