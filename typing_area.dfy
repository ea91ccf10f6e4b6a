/** The typing area component (frontend/src/components/typing/TypingArea.tsx). */
module TypingArea {
  import opened Basics
  import opened KeyStats
  import TypingUtils

  /** Positions, below the shorter length, where the typed value differs from the text. */
  function MismatchSet(value: string, text: string): set<int> {
    set i | 0 <= i < MinInt(|value|, |text|) && value[i] != text[i]
  }

  /** The error-count loop of `handleInputChange`. */
  method CountErrors(value: string, text: string) returns (n: int)
    ensures n == |MismatchSet(value, text)|
    ensures 0 <= n <= MinInt(|value|, |text|)
    ensures value == text ==> n == 0
  {
    n := 0;
    var maxLength := MinInt(|value|, |text|);
    var i := 0;
    while i < maxLength
      invariant 0 <= i <= maxLength
      invariant 0 <= n <= i
      invariant n == |set j | 0 <= j < i && value[j] != text[j]|
    {
      ghost var before := set j | 0 <= j < i && value[j] != text[j];
      ghost var after := set j | 0 <= j < i + 1 && value[j] != text[j];
      if value[i] != text[i] {
        assert after == before + {i};
        n := n + 1;
      } else {
        assert after == before;
      }
      i := i + 1;
    }
    assert MismatchSet(value, text) == set j | 0 <= j < i && value[j] != text[j];
  }

  /** The figures `calculateStats` returns. */
  datatype Stats = Stats(wpm: real, accuracy: real, time: real)

  /**
   * `calculateStats(duration, errorCount)` over an input of length `inputLength`: correct characters
   * are the input length minus the errors, and the time in minutes is `duration / 60`.
   */
  function CalculateStats(inputLength: int, duration: real, errorCount: int): (s: Stats)
    ensures s.time == duration
    ensures s.accuracy == TypingUtils.CalculateAccuracy(inputLength as real, errorCount as real)
    ensures duration == 0.0 ==> s.wpm == 0.0
    ensures duration != 0.0 ==> s.wpm * duration == (inputLength - errorCount) as real * 12.0
    ensures inputLength > 0 && errorCount == 0 ==> s.accuracy == 100.0
  {
    var correctChars := inputLength - errorCount;
    Stats(TypingUtils.CalculateWpm(correctChars as real, duration / 60.0),
          TypingUtils.CalculateAccuracy(inputLength as real, errorCount as real),
          duration)
  }

  /** The front end's own `'LESSON' | 'PRACTICE'` union for the session payload, narrower than the stored type. */
  datatype SessionType = Lesson | Practice

  /** The body that `handleComplete` dispatches to `saveSession`. */
  datatype SessionPayload = SessionPayload(
    sessionType: SessionType, lessonId: Option<string>, duration: real, wpm: real, accuracy: real,
    errors: int, totalKeys: int, keyPresses: map<char, KeyData>, startTime: int, endTime: int)

  /** The payload built from the component's state once both timestamps are set. */
  function PayloadOf(lessonId: Option<string>, startTime: int, endTime: int, input: string,
                     errors: int, keyPresses: map<char, KeyData>): (p: SessionPayload)
    ensures p.sessionType == Lesson <==> Truthy(lessonId)
    ensures p.totalKeys == |input| && p.errors == errors && p.lessonId == lessonId
    ensures p.duration * 1000.0 == (endTime - startTime) as real
    ensures p.startTime == startTime && p.endTime == endTime && p.keyPresses == keyPresses
    ensures p.accuracy == TypingUtils.CalculateAccuracy(|input| as real, errors as real)
    ensures p.wpm == CalculateStats(|input|, p.duration, errors).wpm
  {
    var duration := (endTime - startTime) as real / 1000.0;
    var stats := CalculateStats(|input|, duration, errors);
    SessionPayload(if Truthy(lessonId) then Lesson else Practice, lessonId, duration,
                   stats.wpm, stats.accuracy, errors, |input|, keyPresses, startTime, endTime)
  }

  class TypingArea {
    const text: string
    const lessonId: Option<string>
    /** Whether the parent passed an `onComplete` callback. */
    const hasOnComplete: bool

    var input: string
    var startTime: Option<int>
    var endTime: Option<int>
    var isCompleted: bool
    var errors: int
    var keyPresses: map<char, KeyData>
    /** The statistics handed to `onComplete`, one per completion. */
    var reported: seq<Stats>
    /** The payloads dispatched to `saveSession`, in order. */
    var submitted: seq<SessionPayload>

    /** Every entry of the key-press map is well formed. */
    ghost predicate Valid()
      reads this
    {
      forall c :: c in keyPresses ==> WellFormed(keyPresses[c])
    }

    constructor (text: string, lessonId: Option<string>, hasOnComplete: bool)
      ensures Valid()
      ensures this.text == text && this.lessonId == lessonId && this.hasOnComplete == hasOnComplete
      ensures input == "" && startTime.None? && endTime.None? && !isCompleted && errors == 0
      ensures keyPresses == map[] && reported == [] && submitted == []
    {
      this.text := text;
      this.lessonId := lessonId;
      this.hasOnComplete := hasOnComplete;
      input := "";
      startTime := None;
      endTime := None;
      isCompleted := false;
      errors := 0;
      keyPresses := map[];
      reported := [];
      submitted := [];
    }

    /**
     * `handleInputChange` for a new textarea value at time `now`. Reads of state inside the handler
     * see the values from before the event, as the component's closure does.
     */
    method HandleInputChange(value: string, now: int)
      requires Valid()
      requires !isCompleted
      modifies this
      ensures Valid()
      ensures startTime == if TruthyTime(old(startTime)) then old(startTime) else Some(now)
      ensures input == value
      ensures errors == |MismatchSet(value, text)| && 0 <= errors <= MinInt(|value|, |text|)
      ensures |value| == 0 ==> keyPresses == old(keyPresses)
      ensures |value| > 0 ==>
        var c := value[|value| - 1];
        keyPresses == old(keyPresses)[c := Pressed(if c in old(keyPresses) then Some(old(keyPresses)[c]) else None,
                                                   errors > old(errors), now)]
      ensures isCompleted == (value == text)
      ensures value == text ==> errors == 0 && endTime == Some(now)
      ensures value != text ==> endTime == old(endTime)
      ensures reported == if value == text && hasOnComplete
        then old(reported) + [CalculateStats(|old(input)|,
                                             (now - (if old(startTime).Some? then old(startTime).value else 0)) as real / 1000.0,
                                             errors)]
        else old(reported)
      ensures submitted == old(submitted)
    {
      var priorStart := startTime;
      var priorErrors := errors;
      var priorInput := input;
      var priorKeys := keyPresses;
      if !TruthyTime(startTime) {
        startTime := Some(now);
      }

      var newErrors := CountErrors(value, text);
      errors := newErrors;
      input := value;

      if |value| > 0 {
        var lastChar := value[|value| - 1];
        var keyData := if lastChar in priorKeys then Some(priorKeys[lastChar]) else None;
        keyPresses := priorKeys[lastChar := Pressed(keyData, newErrors > priorErrors, now)];
      }

      if value == text {
        endTime := Some(now);
        isCompleted := true;
        if hasOnComplete {
          var duration := (now - (if priorStart.Some? then priorStart.value else 0)) as real / 1000.0;
          reported := reported + [CalculateStats(|priorInput|, duration, newErrors)];
        }
      }
    }

    /** `handleComplete`: submits nothing unless both timestamps are set. */
    method HandleComplete()
      modifies this`submitted
      ensures !(TruthyTime(startTime) && TruthyTime(endTime)) ==> submitted == old(submitted)
      ensures TruthyTime(startTime) && TruthyTime(endTime) ==>
        submitted == old(submitted) + [PayloadOf(lessonId, startTime.value, endTime.value, input, errors, keyPresses)]
    {
      if !TruthyTime(startTime) || !TruthyTime(endTime) {
        return;
      }
      var payload := PayloadOf(lessonId, startTime.value, endTime.value, input, errors, keyPresses);
      submitted := submitted + [payload];
    }
  }

  /**
   * At completion the statistics handed to `onComplete` are computed over the input length of the
   * render before the completing keystroke: typing the last character of a text of length n after
   * an exact prefix reports n - 1 correct characters.
   */
  lemma CompletionStatsUsePreviousLength(text: string, now: int, start: int)
    requires |text| >= 1 && start != 0 && now != start
    ensures CalculateStats(|text[..|text| - 1]|, (now - start) as real / 1000.0, |MismatchSet(text, text)|).wpm
         != CalculateStats(|text|, (now - start) as real / 1000.0, 0).wpm
  {
    assert MismatchSet(text, text) == {};
    var d := (now - start) as real / 1000.0;
    var a := CalculateStats(|text| - 1, d, 0).wpm;
    var b := CalculateStats(|text|, d, 0).wpm;
    assert d != 0.0;
    assert a * d == (|text| - 1) as real * 12.0;
    assert b * d == |text| as real * 12.0;
  }
}
