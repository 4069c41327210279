/** The parser that reads the AI client's executive summary, and the format its prompt asks for. */
module SummaryParser {
  import opened Text

  const SUMMARY := "SUMMARY:"
  const NEXT_STEPS := "NEXT STEPS:"
  const BULLET := '\U{2022}'

  function TrimPrefix(s: string, prefix: string): string {
    if prefix <= s then s[|prefix|..] else s
  }

  // ---------------------------------------------------------------- what a body means

  predicate IsVerdict(line: string) {
    SUMMARY <= TrimSpace(line)
  }

  predicate IsHeading(line: string) {
    !IsVerdict(line) && NEXT_STEPS <= TrimSpace(line)
  }

  /** The last verdict line's text. */
  function Verdict(lines: seq<string>): string {
    if lines == [] then ""
    else
      var last := lines[|lines| - 1];
      if IsVerdict(last) then TrimSpace(TrimPrefix(TrimSpace(last), SUMMARY)) else Verdict(lines[..|lines| - 1])
  }

  /** One list marker of each kind is stripped, in this order. */
  function CleanStep(line: string): string {
    var dash := TrimSpace(TrimPrefix(line, "-"));
    var bullet := TrimSpace(TrimPrefix(dash, [BULLET]));
    TrimSpace(TrimPrefix(bullet, "*"))
  }

  predicate HasHeading(lines: seq<string>) {
    exists k | 0 <= k < |lines| :: IsHeading(lines[k])
  }

  /** Every other line after the first heading is a step, unless nothing is left of it. */
  function Steps(lines: seq<string>): seq<string> {
    if lines == [] then []
    else
      var init, last := lines[..|lines| - 1], lines[|lines| - 1];
      var step := CleanStep(TrimSpace(last));
      if !HasHeading(init) || IsVerdict(last) || IsHeading(last) || step == "" then Steps(init)
      else Steps(init) + [step]
  }

  method ParseSummary(body: string) returns (summary: string, steps: seq<string>)
    ensures var lines := SplitLines(body);
            && summary == (if Verdict(lines) == "" then TrimSpace(body) else Verdict(lines))
            && steps == Steps(lines)
  {
    hide CleanStep, TrimSpace;
    summary, steps := "", [];
    var inSteps := false;
    var lines := SplitLines(body);
    assert lines[..0] == [];
    for i := 0 to |lines|
      invariant summary == Verdict(lines[..i])
      invariant steps == Steps(lines[..i])
      invariant inSteps == HasHeading(lines[..i])
    {
      var soFar := lines[..i + 1];
      assert soFar[..i] == lines[..i] && soFar[i] == lines[i];
      assert HasHeading(soFar) <==> HasHeading(lines[..i]) || IsHeading(lines[i]);
      var trim := TrimSpace(lines[i]);
      if trim == "" {
        BlankCleansToNothing();
        continue;
      }
      if SUMMARY <= trim {
        summary := TrimSpace(TrimPrefix(trim, SUMMARY));
        continue;
      }
      if NEXT_STEPS <= trim {
        inSteps := true;
        continue;
      }
      if inSteps {
        var step := CleanStep(trim);
        if step != "" {
          steps := steps + [step];
        }
      }
    }
    assert lines[..|lines|] == lines;
    if summary == "" {
      summary := TrimSpace(body);
    }
  }

  lemma BlankCleansToNothing()
    ensures CleanStep("") == ""
  {}

  // ---------------------------------------------------------------- printing and parsing back

  predicate PlainText(text: string) {
    text != "" && Trimmed(text) && '\n' !in text
  }

  function StepLines(steps: seq<string>): (lines: seq<string>)
    ensures |lines| == |steps|
    ensures forall k | 0 <= k < |steps| :: lines[k] == "- " + steps[k]
  {
    seq(|steps|, k requires 0 <= k < |steps| => "- " + steps[k])
  }

  /** A reply in the requested format. */
  function SummaryLines(verdict: string, steps: seq<string>): seq<string> {
    [SUMMARY + " " + verdict, NEXT_STEPS] + StepLines(steps)
  }

  predicate StartsWithMarker(step: string) {
    step != "" && step[0] in {BULLET, '*'}
  }

  predicate NoneMarked(steps: seq<string>) {
    forall k | 0 <= k < |steps| :: !StartsWithMarker(steps[k])
  }

  lemma TrimSpaceShrinks(s: string)
    ensures |TrimSpace(s)| <= |s|
  {
    TrimLeftShrinks(s);
    TrimRightEnds(TrimLeft(s));
  }

  lemma {:induction false} TrimLeftShrinks(s: string)
    ensures |TrimLeft(s)| <= |s|
  {
    if s != [] && IsSpace(s[0]) {
      TrimLeftShrinks(s[1..]);
    }
  }

  /** A step survives its line exactly when it does not itself start with a bullet or a star. */
  lemma StepSurvives(step: string)
    requires PlainText(step)
    ensures var line := "- " + step;
            && TrimSpace(line) == line && !IsVerdict(line) && !IsHeading(line)
            && (if StartsWithMarker(step) then |CleanStep(line)| < |step| else CleanStep(line) == step)
  {
    var line := "- " + step;
    assert line[0] == '-' && line[|line| - 1] == step[|step| - 1];
    TrimmedStays(line);
    assert TrimPrefix(line, "-") == " " + step;
    TrimSpaceAfterBlank(step);
    TrimmedStays(step);
    var bullet := TrimSpace(TrimPrefix(step, [BULLET]));
    TrimSpaceShrinks(TrimPrefix(step, [BULLET]));
    TrimSpaceShrinks(TrimPrefix(bullet, "*"));
  }

  function TotalLength(texts: seq<string>): nat {
    if texts == [] then 0 else TotalLength(texts[..|texts| - 1]) + |texts[|texts| - 1]|
  }

  /** Nothing before the first heading is a step. */
  lemma {:induction false} NoStepsBeforeHeading(lines: seq<string>)
    requires !HasHeading(lines)
    ensures Steps(lines) == []
  {
    hide CleanStep, TrimSpace;
    if lines != [] {
      var init := lines[..|lines| - 1];
      forall k | 0 <= k < |init| ensures !IsHeading(init[k]) {
        assert init[k] == lines[k];
      }
      NoStepsBeforeHeading(init);
    }
  }

  lemma HeadingLines(chat: seq<string>, verdict: string)
    requires PlainText(verdict) && !HasHeading(chat)
    ensures var lines := chat + SummaryLines(verdict, []);
            && Verdict(lines) == verdict && Steps(lines) == [] && HasHeading(lines)
  {
    var first := SUMMARY + " " + verdict;
    assert first[0] == 'S' && first[|first| - 1] == verdict[|verdict| - 1];
    TrimmedStays(first);
    TrimmedStays(NEXT_STEPS);
    assert SUMMARY <= first && TrimPrefix(first, SUMMARY) == " " + verdict;
    TrimSpaceAfterBlank(verdict);
    hide TrimSpace, CleanStep, TrimPrefix;
    var some, lines := chat + [first], chat + SummaryLines(verdict, []);
    assert lines == some + [NEXT_STEPS];
    assert lines[..|some|] == some && some[..|chat|] == chat && lines[|some|] == NEXT_STEPS && some[|chat|] == first;
    assert IsVerdict(first) && !IsVerdict(NEXT_STEPS) && IsHeading(NEXT_STEPS);
    NoStepsBeforeHeading(chat);
  }

  lemma AppendedStep(lines: seq<string>, line: string)
    requires HasHeading(lines) && !IsVerdict(line) && !IsHeading(line)
    ensures var step := CleanStep(TrimSpace(line));
            Steps(lines + [line]) == if step == "" then Steps(lines) else Steps(lines) + [step]
    ensures Verdict(lines + [line]) == Verdict(lines) && HasHeading(lines + [line])
  {
    assert (lines + [line])[..|lines|] == lines;
    var k :| 0 <= k < |lines| && IsHeading(lines[k]);
    assert IsHeading((lines + [line])[k]);
  }

  lemma SummaryLinesAppend(verdict: string, steps: seq<string>, step: string)
    ensures SummaryLines(verdict, steps + [step]) == SummaryLines(verdict, steps) + ["- " + step]
  {
    var lines := SummaryLines(verdict, steps + [step]);
    assert lines[..|lines| - 1] == SummaryLines(verdict, steps);
  }

  lemma AppendedLength(texts: seq<string>, text: string)
    ensures TotalLength(texts + [text]) == TotalLength(texts) + |text|
  {
    assert (texts + [text])[..|texts|] == texts;
  }

  /** What is left of the steps once each has been printed and cleaned. */
  function Survivors(steps: seq<string>): seq<string> {
    if steps == [] then []
    else
      var step := CleanStep("- " + steps[|steps| - 1]);
      Survivors(steps[..|steps| - 1]) + (if step == "" then [] else [step])
  }

  lemma SurvivorsAppend(steps: seq<string>, last: string)
    ensures var step := CleanStep("- " + last);
            Survivors(steps + [last]) == Survivors(steps) + (if step == "" then [] else [step])
  {
    hide CleanStep;
    assert (steps + [last])[..|steps|] == steps;
  }

  lemma {:induction false} SummaryLinesMean(chat: seq<string>, verdict: string, steps: seq<string>)
    requires PlainText(verdict) && !HasHeading(chat) && forall k | 0 <= k < |steps| :: PlainText(steps[k])
    ensures var lines := chat + SummaryLines(verdict, steps);
            Verdict(lines) == verdict && HasHeading(lines) && Steps(lines) == Survivors(steps)
  {
    if steps == [] {
      HeadingLines(chat, verdict);
    } else {
      hide CleanStep, TrimSpace, IsVerdict, IsHeading, Steps, Verdict, HasHeading, StartsWithMarker, SummaryLines;
      hide PlainText, IsSpace, Survivors;
      var init, last := steps[..|steps| - 1], steps[|steps| - 1];
      assert steps == init + [last];
      SurvivorsAppend(init, last);
      SummaryLinesMean(chat, verdict, init);
      StepSurvives(last);
      SummaryLinesAppend(verdict, init, last);
      assert chat + SummaryLines(verdict, steps) == (chat + SummaryLines(verdict, init)) + ["- " + last];
      AppendedStep(chat + SummaryLines(verdict, init), "- " + last);
    }
  }

  /** `kept` is `steps` itself when none is marked, and strictly less text otherwise. */
  predicate Shrunk(steps: seq<string>, kept: seq<string>) {
    && (if NoneMarked(steps) then kept == steps else TotalLength(kept) < TotalLength(steps))
    && TotalLength(kept) <= TotalLength(steps)
  }

  lemma ShrinkStep(init: seq<string>, kept: seq<string>, last: string, step: string)
    requires Shrunk(init, kept) && last != ""
    requires if StartsWithMarker(last) then |step| < |last| else step == last
    ensures Shrunk(init + [last], kept + if step == "" then [] else [step])
  {
    hide TotalLength, StartsWithMarker;
    AppendedLength(init, last);
    AppendedLength(kept, step);
    assert kept + [] == kept;
    assert NoneMarked(init + [last]) <==> NoneMarked(init) && !StartsWithMarker(last) by {
      assert forall k | 0 <= k < |init| :: (init + [last])[k] == init[k];
      assert (init + [last])[|init|] == last;
    }
  }

  lemma {:induction false} SurvivorsShrink(steps: seq<string>)
    requires forall k | 0 <= k < |steps| :: PlainText(steps[k])
    ensures Shrunk(steps, Survivors(steps))
  {
    if steps != [] {
      hide CleanStep, Shrunk, StartsWithMarker;
      var init, last := steps[..|steps| - 1], steps[|steps| - 1];
      assert steps == init + [last];
      SurvivorsShrink(init);
      StepSurvives(last);
      ShrinkStep(init, Survivors(init), last, CleanStep("- " + last));
    }
  }

  lemma SummaryLinesAreLines(verdict: string, steps: seq<string>)
    requires PlainText(verdict) && forall k | 0 <= k < |steps| :: PlainText(steps[k])
    ensures var lines := SummaryLines(verdict, steps); forall k | 0 <= k < |lines| :: '\n' !in lines[k]
  {
    var lines := SummaryLines(verdict, steps);
    forall k | 0 <= k < |lines| ensures '\n' !in lines[k] {
      if k >= 2 {
        assert lines[k] == "- " + steps[k - 2];
      }
    }
  }

  /**
   Round trip: whatever chat precedes it, short of a heading, a printed summary
   always gives its verdict back, and its steps exactly when none of them starts
   with a list marker of its own.
   */
  lemma SummaryParses(chat: seq<string>, verdict: string, steps: seq<string>)
    requires PlainText(verdict) && forall k | 0 <= k < |steps| :: PlainText(steps[k])
    requires forall k | 0 <= k < |chat| :: '\n' !in chat[k] && !(NEXT_STEPS <= TrimSpace(chat[k]))
    ensures var lines := SplitLines(JoinLines(chat + SummaryLines(verdict, steps)));
            && Verdict(lines) == verdict
            && (Steps(lines) == steps <==> NoneMarked(steps))
  {
    assert !HasHeading(chat) && SummaryLines(verdict, steps) != [];
    hide PlainText, SummaryLines, Steps, Verdict, NoneMarked, Survivors, TrimSpace, IsHeading;
    SummaryLinesMean(chat, verdict, steps);
    SurvivorsShrink(steps);
    SummaryLinesAreLines(verdict, steps);
    SplitJoin(chat + SummaryLines(verdict, steps));
  }

  /** A text that starts with no list marker. */
  predicate Unmarked(s: string) {
    PlainText(s) && s[0] !in {'-', BULLET, '*'}
  }

  /** What one of CleanStep's three steps leaves. */
  function Off(prefix: char, line: string): string {
    TrimSpace(TrimPrefix(line, [prefix]))
  }

  function Marked(prefix: char, s: string): string {
    [prefix] + " " + s
  }

  lemma CleanStepTakesOff(line: string)
    ensures CleanStep(line) == Off('*', Off(BULLET, Off('-', line)))
  {
    hide TrimSpace;
  }

  lemma MarkerIsOff(prefix: char, s: string)
    requires PlainText(s) && !IsSpace(prefix)
    ensures Off(prefix, Marked(prefix, s)) == s
    ensures PlainText(Marked(prefix, s)) || prefix == '\n'
    ensures Trimmed(Marked(prefix, s)) && Marked(prefix, s) != "" && Marked(prefix, s)[0] == prefix
  {
    assert TrimPrefix(Marked(prefix, s), [prefix]) == " " + s;
    TrimSpaceAfterBlank(s);
    assert Marked(prefix, s)[|Marked(prefix, s)| - 1] == s[|s| - 1];
  }

  lemma OtherStays(prefix: char, s: string)
    requires Trimmed(s) && s != "" && s[0] != prefix
    ensures Off(prefix, s) == s
  {
    assert !([prefix] <= s);
    TrimmedStays(s);
  }

  /** One list marker of each kind is taken off, dash, bullet and star in this order, each with the blank after it. */
  lemma MarkersAreStripped(s: string)
    requires Unmarked(s)
    ensures CleanStep(s) == CleanStep(Marked('-', s)) == CleanStep(Marked('\U{2022}', s)) ==
            CleanStep(Marked('*', s)) == s
    ensures CleanStep(Marked('-', Marked('\U{2022}', Marked('*', s)))) == s
  {
    var star := Marked('*', s);
    var bullet := Marked(BULLET, star);
    assert !IsSpace('-') && !IsSpace(BULLET) && !IsSpace('*');
    hide CleanStep, Off, IsSpace, Marked;
    CleanStepTakesOff(s);
    CleanStepTakesOff(Marked('-', s));
    CleanStepTakesOff(Marked(BULLET, s));
    CleanStepTakesOff(star);
    CleanStepTakesOff(Marked('-', bullet));
    OtherStays('-', s);
    OtherStays(BULLET, s);
    OtherStays('*', s);
    MarkerIsOff('-', s);
    MarkerIsOff(BULLET, s);
    MarkerIsOff('*', s);
    OtherStays('-', Marked(BULLET, s));
    OtherStays('-', star);
    OtherStays(BULLET, star);
    MarkerIsOff(BULLET, star);
    MarkerIsOff('-', bullet);
  }
}
