/** The free-practice page (frontend/src/app/practice/page.tsx). */
module PracticePage {
  import opened Basics
  import TypingUtils

  const SampleTexts: seq<string> := [
    "The quick brown fox jumps over the lazy dog. This pangram contains every letter of the alphabet at least once, making it useful for testing typewriters and computer keyboards.",
    "Learning to type faster is a skill that takes practice and dedication. With consistent effort, anyone can improve their typing speed and accuracy significantly over time.",
    "Technology continues to evolve at a rapid pace, transforming how we work, communicate, and live. The future will bring even more innovations that we can hardly imagine today.",
    "Reading is one of the most valuable skills you can develop. It opens doors to new worlds, ideas, and perspectives that enrich your understanding of life."
  ]

  /** The test stops after this many seconds. */
  const TimeLimit: int := 300

  /** Typed positions that match the text; a position past the text's end never matches. */
  function CorrectSet(userInput: string, text: string): set<int> {
    set i | 0 <= i < |userInput| && i < |text| && userInput[i] == text[i]
  }

  /** `userInput.split('').filter((char, idx) => char === currentText[idx]).length`. */
  function CorrectCount(userInput: string, text: string): (n: int)
    ensures n == |CorrectSet(userInput, text)|
    ensures 0 <= n <= MinInt(|userInput|, |text|)
  {
    if userInput == [] || text == [] then
      assert CorrectSet(userInput, text) == {};
      0
    else
      var k := |userInput| - 1;
      var rest := CorrectCount(userInput[..k], text);
      assert forall i :: i in CorrectSet(userInput[..k], text) <==> i in CorrectSet(userInput, text) && i < k;
      if k < |text| && userInput[k] == text[k] then
        assert CorrectSet(userInput, text) == CorrectSet(userInput[..k], text) + {k};
        rest + 1
      else
        assert CorrectSet(userInput, text) == CorrectSet(userInput[..k], text);
        rest
  }

  datatype TypingStats = TypingStats(wpm: real, accuracy: real, timeElapsed: int, correctChars: int, errorChars: int)

  /** The statistics effect: WPM gets seconds where minutes are expected, and accuracy gets its arguments in the order (correct, typed). */
  function StatsFor(userInput: string, text: string, timeElapsed: int): (s: TypingStats)
    ensures s.correctChars == CorrectCount(userInput, text)
    ensures s.errorChars == |userInput| - s.correctChars >= 0
    ensures s.timeElapsed == timeElapsed
    ensures s.wpm == TypingUtils.CalculateWpm(s.correctChars as real, timeElapsed as real)
    ensures s.accuracy == if s.correctChars == 0 then 100.0 else 0.0
  {
    var correct := CorrectCount(userInput, text);
    var accuracy := TypingUtils.CalculateAccuracy(correct as real, |userInput| as real);
    assert correct > 0 ==> accuracy == 0.0;
    TypingStats(TypingUtils.CalculateWpm(correct as real, timeElapsed as real), accuracy,
                timeElapsed, correct, |userInput| - correct)
  }

  /** Index of the text that `Math.floor(random * SAMPLE_TEXTS.length)` picks for `random` in [0, 1). */
  function PickIndex(random: real): (i: int)
    requires 0.0 <= random < 1.0
    ensures 0 <= i < |SampleTexts|
    ensures i as real <= random * |SampleTexts| as real < (i + 1) as real
  {
    (random * |SampleTexts| as real).Floor
  }

  class PracticePage {
    var currentText: string
    var userInput: string
    var isActive: bool
    var timeElapsed: int
    var stats: TypingStats

    /** The clock stays within the limit, the text is a sample text, and the statistics are current. */
    ghost predicate Valid()
      reads this
    {
      && 0 <= timeElapsed <= TimeLimit
      && currentText in SampleTexts
      && stats == StatsFor(userInput, currentText, timeElapsed)
    }

    /** Whether the textarea is disabled. */
    predicate InputDisabled()
      reads this
      ensures Valid() ==> (InputDisabled() <==> timeElapsed == TimeLimit)
    {
      timeElapsed >= TimeLimit
    }

    /** The page once mounted: the first sample text, nothing typed, and the effects have run once. */
    constructor ()
      ensures Valid()
      ensures currentText == SampleTexts[0] && userInput == "" && !isActive && timeElapsed == 0
    {
      currentText := SampleTexts[0];
      userInput := "";
      isActive := false;
      timeElapsed := 0;
      stats := StatsFor("", SampleTexts[0], 0);
    }

    /** A change of the textarea, followed by the activation and statistics effect. */
    method OnInput(value: string)
      requires Valid()
      modifies this
      ensures Valid()
      ensures old(InputDisabled()) ==> userInput == old(userInput) && isActive == old(isActive)
      ensures !old(InputDisabled()) ==> userInput == value && isActive == (old(isActive) || |value| > 0)
      ensures currentText == old(currentText) && timeElapsed == old(timeElapsed)
    {
      if InputDisabled() {
        return;
      }
      userInput := value;
      if |userInput| > 0 && !isActive {
        isActive := true;
      }
      stats := StatsFor(userInput, currentText, timeElapsed);
    }

    /** One second of the interval timer, followed by the effects that depend on the clock. */
    method Tick()
      requires Valid()
      modifies this
      ensures Valid()
      ensures old(isActive) && old(timeElapsed) < TimeLimit ==>
        timeElapsed == old(timeElapsed) + 1 && isActive == (timeElapsed < TimeLimit)
      ensures !(old(isActive) && old(timeElapsed) < TimeLimit) ==>
        timeElapsed == old(timeElapsed) && isActive == old(isActive)
      ensures userInput == old(userInput) && currentText == old(currentText)
    {
      if isActive && timeElapsed < TimeLimit {
        timeElapsed := timeElapsed + 1;
        if timeElapsed >= TimeLimit {
          Stop();
        }
        stats := StatsFor(userInput, currentText, timeElapsed);
      }
    }

    /** `handleStop`. */
    method Stop()
      modifies this`isActive
      ensures !isActive
    {
      isActive := false;
    }

    /** `handleReset`, with `random` standing for `Math.random()`. */
    method Reset(random: real)
      requires Valid()
      requires 0.0 <= random < 1.0
      modifies this
      ensures Valid()
      ensures userInput == "" && timeElapsed == 0 && !isActive
      ensures currentText == SampleTexts[PickIndex(random)]
    {
      userInput := "";
      timeElapsed := 0;
      isActive := false;
      currentText := SampleTexts[PickIndex(random)];
      stats := StatsFor(userInput, currentText, timeElapsed);
    }

    /** `handleChangeText`: its own pick is overwritten by the pick inside `handleReset`. */
    method ChangeText(random1: real, random2: real)
      requires Valid()
      requires 0.0 <= random1 < 1.0 && 0.0 <= random2 < 1.0
      modifies this
      ensures Valid()
      ensures userInput == "" && timeElapsed == 0 && !isActive
      ensures currentText == SampleTexts[PickIndex(random2)]
    {
      currentText := SampleTexts[PickIndex(random1)];
      stats := StatsFor(userInput, currentText, timeElapsed);
      Reset(random2);
    }
  }
}
