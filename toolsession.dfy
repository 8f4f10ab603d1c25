/** The guided session of one coping tool: the instructions split into
    steps and walked with Next and Previous, a countdown of the tool's
    duration that ticks once a second while running, the mood before and
    after, and the usage record the session hands to the coping-tools
    service when it is completed with a rating. */
module ToolSession {
  import opened Wrappers
  import opened Seqs
  import opened Text
  import opened CopingTools

  /** The lines of the instructions that are not blank. */
  function Steps(instructions: string): (steps: seq<string>)
    ensures forall k :: 0 <= k < |steps| ==> '\n' !in steps[k] && Trim(steps[k]) != ""
    ensures IsSubsequence(steps, Split(instructions, '\n'))
  {
    Filter(Split(instructions, '\n'), (line: string) => Trim(line) != "")
  }

  /** Non-blank lines joined with line feeds are the steps they came from. */
  lemma StepsOfLines(lines: seq<string>)
    requires |lines| >= 1
    requires forall k :: 0 <= k < |lines| ==> '\n' !in lines[k] && Trim(lines[k]) != ""
    ensures Steps(Join(lines, '\n')) == lines
  {
    SplitJoin(lines, '\n');
    FilterAll(lines, (line: string) => Trim(line) != "");
  }

  /** `formatTime(seconds)`: minutes, a colon, and the seconds padded to
      two digits. */
  function FormatTime(seconds: nat): (r: string)
    ensures var parts := Split(r, ':');
      |parts| == 2 && |parts[1]| == 2 && parts[0] == Decimal(seconds / 60)
  {
    var minutes, secs := Decimal(seconds / 60), PadTwo(Decimal(seconds % 60));
    PadDigits(Decimal(seconds % 60));
    SplitJoin([minutes, secs], ':');
    assert Join([minutes, secs], ':') == minutes + [':'] + secs;
    minutes + ":" + secs
  }

  /** Reads a `m:ss` text back into seconds. */
  function ParseTime(text: string): int {
    var parts := Split(text, ':');
    if |parts| != 2 then -1 else ParseDecimal(parts[0]) * 60 + ParseDecimal(parts[1])
  }

  /** The display loses nothing: the seconds come back from it. */
  lemma ParseFormatTime(seconds: nat)
    ensures ParseTime(FormatTime(seconds)) == seconds
  {
    var minutes, rest := Decimal(seconds / 60), Decimal(seconds % 60);
    var secs := PadTwo(rest);
    var text := FormatTime(seconds);
    assert text == minutes + [':'] + secs;
    assert Split(text, ':') == [minutes, secs] by {
      PadDigits(rest);
      SplitJoin([minutes, secs], ':');
      assert Join([minutes, secs], ':') == minutes + [':'] + secs;
    }
    assert ParseDecimal(minutes) == seconds / 60 by {
      ParseDecimalInverts(seconds / 60);
    }
    assert ParseDecimal(secs) == seconds % 60 by {
      ParseDecimalInverts(seconds % 60);
      PadDigits(rest);
      if |rest| < 2 {
        ParseDecimalLeadingZero(rest);
      }
    }
    assert (seconds / 60) * 60 + seconds % 60 == seconds;
  }

  /** Padding a text of at most two digits to two keeps it digits only. */
  lemma PadDigits(s: string)
    requires 1 <= |s| <= 2 && forall i :: 0 <= i < |s| ==> '0' <= s[i] <= '9'
    ensures forall i :: 0 <= i < |PadTwo(s)| ==> '0' <= PadTwo(s)[i] <= '9'
    ensures |s| < 2 ==> PadTwo(s) == ['0'] + s
    ensures |s| == 2 ==> PadTwo(s) == s
  {
    if |s| < 2 {
      assert PadTwo(s) == PadTwo(['0'] + s);
    }
  }

  /** The position in the steps and whether the session is completed. */
  datatype StepState = StepState(step: nat, completed: bool)

  /** The highest step shown: the last one, or the first when there is none. */
  function LastStep(count: nat): nat {
    if count == 0 then 0 else count - 1
  }

  /** `handleNextStep`: on to the next step, or completed on the last one. */
  function Next(s: StepState, count: nat): (r: StepState)
    ensures s.step <= LastStep(count) ==> r.step <= LastStep(count)
    ensures r.completed <==> s.completed || s.step >= count - 1
    ensures r.step == if s.step < count - 1 then s.step + 1 else s.step
  {
    if s.step < count - 1 then s.(step := s.step + 1) else s.(completed := true)
  }

  /** `handlePrevStep`: back one step, never below the first. */
  function Prev(s: StepState): (r: StepState)
    ensures r.step <= s.step && r.completed == s.completed
    ensures s.step > 0 <==> r.step == s.step - 1
  {
    if s.step > 0 then s.(step := s.step - 1) else s
  }

  /** Previous undoes Next before the last step, and Next undoes Previous
      after the first. */
  lemma NextPrevInverse(s: StepState, count: nat)
    ensures s.step < count - 1 ==> Prev(Next(s, count)) == s
    ensures s.step > 0 && s.step <= LastStep(count) ==> Next(Prev(s), count) == s
  {
  }

  function NextTimes(s: StepState, count: nat, presses: nat): StepState {
    if presses == 0 then s else Next(NextTimes(s, count, presses - 1), count)
  }

  /** From the first step, each press of Next shows the next step, and the
      session completes on exactly the press that leaves the last one: a
      session of n steps takes n presses (one when there are none). */
  lemma {:induction false} PressesToComplete(count: nat, presses: nat)
    ensures var s := NextTimes(StepState(0, false), count, presses);
      (presses < count ==> s == StepState(presses, false)) &&
      (presses >= count && presses >= 1 ==> s == StepState(LastStep(count), true))
  {
    if presses > 0 {
      PressesToComplete(count, presses - 1);
    }
  }

  /** One second of the countdown: stops at zero. */
  function Ticked(time: nat): (r: nat)
    ensures time > 0 ==> r == time - 1
    ensures r == 0 <==> time <= 1
  {
    if time <= 1 then 0 else time - 1
  }

  function TickedTimes(time: nat, seconds: nat): nat {
    if seconds == 0 then time else Ticked(TickedTimes(time, seconds - 1))
  }

  /** After `seconds` ticks the countdown has gone down by that many
      seconds, never below zero. */
  lemma {:induction false} CountdownAfter(time: nat, seconds: nat)
    ensures TickedTimes(time, seconds) == if seconds < time then time - seconds else 0
  {
    if seconds > 0 {
      CountdownAfter(time, seconds - 1);
    }
  }

  /** `n || undefined` for a number that may be null. */
  function OrUndefined(n: Option<int>): (r: Option<int>)
    ensures r.Some? <==> TruthyNumber(n)
    ensures r.Some? ==> r == n
  {
    if TruthyNumber(n) then n else None
  }

  /** The session of one tool. */
  class Session {
    const tool: CopingTool
    const steps: seq<string>
    var currentStep: nat
    var isActive: bool
    var timeRemaining: nat
    var moodBefore: Option<int>
    var moodAfter: Option<int>
    var effectiveness: Option<int>
    var notes: string
    var isCompleted: bool

    /** The full duration of the tool, in seconds. */
    function Duration(): nat reads this {
      tool.durationMinutes * 60
    }

    /** The step stays among the steps shown and the countdown within the
        tool's duration. */
    predicate Valid()
      reads this
    {
      currentStep <= LastStep(|steps|) && timeRemaining <= Duration()
    }

    function State(): StepState reads this {
      StepState(currentStep, isCompleted)
    }

    constructor(tool: CopingTool)
      ensures Valid() && this.tool == tool && steps == Steps(tool.instructions)
      ensures currentStep == 0 && !isActive && timeRemaining == tool.durationMinutes * 60
      ensures moodBefore.None? && moodAfter.None? && effectiveness.None? && notes == "" && !isCompleted
    {
      this.tool := tool;
      steps := Steps(tool.instructions);
      currentStep := 0;
      isActive := false;
      timeRemaining := tool.durationMinutes * 60;
      moodBefore := None;
      moodAfter := None;
      effectiveness := None;
      notes := "";
      isCompleted := false;
    }

    /** A mood button before starting (1 to 10). */
    method SetMoodBefore(mood: int)
      requires 1 <= mood <= 10
      modifies this
      ensures moodBefore == Some(mood)
      ensures currentStep == old(currentStep) && isActive == old(isActive) && timeRemaining == old(timeRemaining)
      ensures moodAfter == old(moodAfter) && effectiveness == old(effectiveness) && notes == old(notes)
      ensures isCompleted == old(isCompleted)
    {
      moodBefore := Some(mood);
    }

    /** A mood button on the completion form (1 to 10). */
    method SetMoodAfter(mood: int)
      requires 1 <= mood <= 10
      modifies this
      ensures moodAfter == Some(mood)
      ensures currentStep == old(currentStep) && isActive == old(isActive) && timeRemaining == old(timeRemaining)
      ensures moodBefore == old(moodBefore) && effectiveness == old(effectiveness) && notes == old(notes)
      ensures isCompleted == old(isCompleted)
    {
      moodAfter := Some(mood);
    }

    /** A star button on the completion form (1 to 5). */
    method SetEffectiveness(rating: int)
      requires 1 <= rating <= 5
      modifies this
      ensures effectiveness == Some(rating)
      ensures currentStep == old(currentStep) && isActive == old(isActive) && timeRemaining == old(timeRemaining)
      ensures moodBefore == old(moodBefore) && moodAfter == old(moodAfter) && notes == old(notes)
      ensures isCompleted == old(isCompleted)
    {
      effectiveness := Some(rating);
    }

    /** `handleStart` and `handlePause`. */
    method SetActive(active: bool)
      requires Valid()
      modifies this
      ensures Valid() && isActive == active
      ensures currentStep == old(currentStep) && timeRemaining == old(timeRemaining) && isCompleted == old(isCompleted)
      ensures moodBefore == old(moodBefore) && moodAfter == old(moodAfter) && effectiveness == old(effectiveness) && notes == old(notes)
    {
      isActive := active;
    }

    /** `handleReset`: stopped, the full duration, the first step. */
    method Reset()
      requires Valid()
      modifies this
      ensures Valid() && !isActive && timeRemaining == Duration() && currentStep == 0
      ensures isCompleted == old(isCompleted)
      ensures moodBefore == old(moodBefore) && moodAfter == old(moodAfter) && effectiveness == old(effectiveness) && notes == old(notes)
    {
      isActive := false;
      timeRemaining := tool.durationMinutes * 60;
      currentStep := 0;
    }

    method NextStep()
      requires Valid()
      modifies this
      ensures Valid() && State() == Next(old(State()), |steps|)
      ensures isActive == old(isActive) && timeRemaining == old(timeRemaining)
      ensures moodBefore == old(moodBefore) && moodAfter == old(moodAfter) && effectiveness == old(effectiveness) && notes == old(notes)
    {
      if currentStep < |steps| - 1 {
        currentStep := currentStep + 1;
      } else {
        isCompleted := true;
      }
    }

    method PrevStep()
      requires Valid()
      modifies this
      ensures Valid() && State() == Prev(old(State()))
      ensures isActive == old(isActive) && timeRemaining == old(timeRemaining)
      ensures moodBefore == old(moodBefore) && moodAfter == old(moodAfter) && effectiveness == old(effectiveness) && notes == old(notes)
    {
      if currentStep > 0 {
        currentStep := currentStep - 1;
      }
    }

    /** One firing of the interval, which only runs while the countdown
        is active and not yet at zero; reaching zero stops it. */
    method Tick()
      requires Valid()
      modifies this
      ensures Valid()
      ensures old(isActive) && old(timeRemaining) > 0 ==>
        timeRemaining == Ticked(old(timeRemaining)) && (isActive <==> timeRemaining > 0)
      ensures !(old(isActive) && old(timeRemaining) > 0) ==>
        timeRemaining == old(timeRemaining) && isActive == old(isActive)
      ensures currentStep == old(currentStep) && isCompleted == old(isCompleted)
      ensures moodBefore == old(moodBefore) && moodAfter == old(moodAfter) && effectiveness == old(effectiveness) && notes == old(notes)
    {
      if isActive && timeRemaining > 0 {
        if timeRemaining <= 1 {
          isActive := false;
          timeRemaining := 0;
        } else {
          timeRemaining := timeRemaining - 1;
        }
      }
    }

    /** `handleComplete`: the usage record and notes handed to
        `recordToolUsage`, only when a rating was given. The duration used
        is the part of the countdown that has run, within the tool's
        duration. */
    method Complete() returns (r: Option<(UsageFields, Option<string>)>)
      requires Valid()
      ensures r.Some? <==> TruthyNumber(effectiveness)
      ensures r.Some? ==>
        r.value.0.toolId == tool.id && r.value.0.completed && r.value.0.effectivenessRating == effectiveness
      ensures r.Some? ==>
        r.value.0.durationUsed.Some? &&
        0 <= r.value.0.durationUsed.value <= tool.durationMinutes * 60 &&
        r.value.0.durationUsed.value + timeRemaining == tool.durationMinutes * 60
      ensures r.Some? ==>
        (r.value.0.moodBefore.Some? <==> TruthyNumber(moodBefore)) && (r.value.1.Some? <==> notes != "")
      ensures r.Some? ==>
        r.value.0.moodBefore == OrUndefined(moodBefore) && r.value.0.moodAfter == OrUndefined(moodAfter) &&
        r.value.1 == (if notes != "" then Some(notes) else None)
    {
      if !TruthyNumber(effectiveness) {
        return None;
      }
      var usage := UsageFields(tool.id, OrUndefined(moodBefore), OrUndefined(moodAfter), effectiveness,
        Some(tool.durationMinutes * 60 - timeRemaining), true);
      r := Some((usage, if notes != "" then Some(notes) else None));
    }
  }
}
