/** The bounded-retry confirmation loop of `__get_feedback__`, as a function
    of the operator's answers. `Trials(s, num)` is what happens from trial
    `num` on: the events shown, how many answers were read, and how the loop
    ended. The `no` callback returns, so an answer "2" falls through to the
    next trial. */
module Feedback {
  import opened Values
  import opened ValidOptions
  import opened Trace

  const OPTIONS_PROMPT: string := "\n1) Yes\n2) No\n>>> "
  const LAST_TRIAL_PREFIX: string := "This is your last trial"

  /** The text passed to `input` on a trial. */
  function PromptText(finalTrial: bool): string {
    if finalTrial then LAST_TRIAL_PREFIX + OPTIONS_PROMPT else OPTIONS_PROMPT
  }

  /** What the loop runs on: the converted `VALID_OPTIONS`, their listing
      text, `DEFAULT_BASE_DIR`, the operator's answers in order and
      `no_of_trials`. */
  datatype Session = Session(
    valid: seq<OptionItem>,
    listing: string,
    defaultDir: Path,
    inputs: seq<string>,
    trials: int)

  /** The session `__get_feedback__` runs with the options tuple `options`
      once it has been converted. */
  function SessionFor(options: seq<OptionItem>, defaultDir: Path, inputs: seq<string>, trials: int): Session
    requires |options| >= 1
  {
    var valid := Stringified(options);
    Session(valid, FormatOptions(Texts(valid)), defaultDir, inputs, trials)
  }

  /** How the call ended: returning right after `yes()`, returning after the
      final `no()`, or raising (`input()` at end of input). */
  datatype FeedbackEnd = AfterYes | AfterNo | Failed(exc: Exception)

  datatype Run = Run(events: seq<Event>, read: nat, end: FeedbackEnd)

  /** Answer `i` exists and is one of the valid options. */
  predicate Accepted(s: Session, i: nat) {
    i < |s.inputs| && StrOption(s.inputs[i]) in s.valid
  }

  /** Answer `i` is an accepted "1". */
  predicate SaysYes(s: Session, i: nat) {
    Accepted(s, i) && s.inputs[i] == "1"
  }

  /** Answer `i` is an accepted "2". */
  predicate SaysNo(s: Session, i: nat) {
    Accepted(s, i) && s.inputs[i] == "2"
  }

  /** The events of trial `num` itself: its prompt, then the diagnostic for
      an invalid answer (not on the final trial), the `yes` branch or the
      `no` branch. An accepted answer other than "1" and "2" shows nothing. */
  function TrialEvents(s: Session, num: nat): seq<Event>
    requires num < s.trials && num < |s.inputs|
  {
    var finalTrial := num == s.trials - 1;
    var answer := s.inputs[num];
    [Prompt(PromptText(finalTrial))] +
      (if !Accepted(s, num) then
         (if finalTrial then [] else [InvalidOption(answer, s.listing), ChooseOption(s.listing)])
       else if answer == "1" then [Defaulting(s.defaultDir), YesCalled]
       else if answer == "2" then [Exiting, NoCalled]
       else [])
  }

  /** The events of a trial, branch by branch. */
  lemma TrialEventsShape(s: Session, num: nat)
    requires num < s.trials && num < |s.inputs|
    ensures var p := Prompt(PromptText(num == s.trials - 1));
      var answer := s.inputs[num];
      TrialEvents(s, num) ==
        if !Accepted(s, num) then
          (if num == s.trials - 1 then [p] else [p, InvalidOption(answer, s.listing), ChooseOption(s.listing)])
        else if answer == "1" then [p, Defaulting(s.defaultDir), YesCalled]
        else if answer == "2" then [p, Exiting, NoCalled]
        else [p]
  {
  }

  /** The loop from trial `num` to the end: reading past the last answer
      raises `EOFError` (after the prompt is shown), an accepted "1" returns,
      anything else goes on to the next trial, and when the trials run out
      the "Too many invalid attempts" block is shown and `no` is called. */
  function Trials(s: Session, num: nat): Run
    decreases if num < s.trials then s.trials - num else 0
  {
    if num >= s.trials then Run([TooManyAttempts, NoCalled], 0, AfterNo)
    else if num >= |s.inputs| then Run([Prompt(PromptText(num == s.trials - 1))], 0, Failed(EOFError))
    else if SaysYes(s, num) then Run(TrialEvents(s, num), 1, AfterYes)
    else
      var rest := Trials(s, num + 1);
      Run(TrialEvents(s, num) + rest.events, rest.read + 1, rest.end)
  }

  /** One step of `Trials`, case by case. */
  lemma TrialsStep(s: Session, num: nat)
    requires num < s.trials
    ensures num >= |s.inputs| ==> Trials(s, num) == Run([Prompt(PromptText(num == s.trials - 1))], 0, Failed(EOFError))
    ensures num < |s.inputs| && SaysYes(s, num) ==> Trials(s, num) == Run(TrialEvents(s, num), 1, AfterYes)
    ensures num < |s.inputs| && !SaysYes(s, num) ==>
      var rest := Trials(s, num + 1);
      Trials(s, num) == Run(TrialEvents(s, num) + rest.events, rest.read + 1, rest.end)
  {
  }

  /** The run from trial 0 is the events `done` of trials 0 .. `num` - 1
      followed by the run from trial `num`. */
  predicate RunSplits(s: Session, num: nat, done: seq<Event>) {
    var total := Trials(s, 0);
    var rest := Trials(s, num);
    total.events == done + rest.events && total.read == num + rest.read && total.end == rest.end
  }

  /** A trial that neither raises nor confirms moves the split one trial on. */
  lemma {:induction false} RunSplitsStep(s: Session, num: nat, done: seq<Event>)
    requires RunSplits(s, num, done)
    requires num < s.trials && num < |s.inputs| && !SaysYes(s, num)
    ensures RunSplits(s, num + 1, done + TrialEvents(s, num))
  {
    TrialsStep(s, num);
    var rest := Trials(s, num + 1);
    assert done + (TrialEvents(s, num) + rest.events) == (done + TrialEvents(s, num)) + rest.events;
  }

  /** How the whole run ends once trial `num` raises, confirms, or is past
      the last trial. */
  lemma RunSplitsEnd(s: Session, num: nat, done: seq<Event>)
    requires RunSplits(s, num, done)
    ensures num >= s.trials ==> Trials(s, 0) == Run(done + [TooManyAttempts, NoCalled], num, AfterNo)
    ensures num < s.trials && num >= |s.inputs| ==>
      Trials(s, 0) == Run(done + [Prompt(PromptText(num == s.trials - 1))], num, Failed(EOFError))
    ensures num < s.trials && num < |s.inputs| && SaysYes(s, num) ==>
      Trials(s, 0) == Run(done + TrialEvents(s, num), num + 1, AfterYes)
  {
  }

  /** Accepted "2" answers among answers `from` .. `to` - 1. */
  function CountNo(s: Session, from: nat, to: nat): nat
    decreases if from < to then to - from else 0
  {
    if from >= to then 0 else (if SaysNo(s, from) then 1 else 0) + CountNo(s, from + 1, to)
  }

  /** Invalid answers among `from` .. `to` - 1 given before the final trial. */
  function CountInvalidBeforeFinal(s: Session, from: nat, to: nat): nat
    decreases if from < to then to - from else 0
  {
    if from >= to then 0
    else (if from < s.trials - 1 && !Accepted(s, from) then 1 else 0) + CountInvalidBeforeFinal(s, from + 1, to)
  }

  // ---------------------------------------------------------------------
  // Properties of the loop

  /** What one trial contributes to the counts. */
  lemma TrialCounts(s: Session, num: nat)
    requires num < s.trials && num < |s.inputs|
    ensures var t := TrialEvents(s, num);
      && CountOf(t, YesCalled) == (if SaysYes(s, num) then 1 else 0)
      && (SaysYes(s, num) ==> t[|t| - 1] == YesCalled)
      && CountOf(t, NoCalled) == (if SaysNo(s, num) then 1 else 0)
      && CountOf(t, Exiting) == (if SaysNo(s, num) then 1 else 0)
      && CountDiagnostics(t) == (if num < s.trials - 1 && !Accepted(s, num) then 1 else 0)
      && Prompts(t) == [PromptText(num == s.trials - 1)]
  {
    var t := TrialEvents(s, num);
    var p := Prompt(PromptText(num == s.trials - 1));
    var tail := t[1..];
    assert t == [p] + tail;
    CountOfAppend([p], tail, YesCalled);
    CountOfAppend([p], tail, NoCalled);
    CountOfAppend([p], tail, Exiting);
    CountDiagnosticsAppend([p], tail);
    PromptsAppend([p], tail);
    if |tail| == 2 {
      assert tail == [tail[0]] + [tail[1]];
      CountOfAppend([tail[0]], [tail[1]], YesCalled);
      CountOfAppend([tail[0]], [tail[1]], NoCalled);
      CountOfAppend([tail[0]], [tail[1]], Exiting);
      CountDiagnosticsAppend([tail[0]], [tail[1]]);
      PromptsAppend([tail[0]], [tail[1]]);
    } else {
      assert tail == [];
    }
  }

  /** At most `no_of_trials` answers are read and never more than there are;
      the loop ends after `no` only once every trial has been used, it fails
      only at the end of the input, and it ends after `yes` only just after
      reading a "1". */
  lemma {:induction false} ReadBounds(s: Session, num: nat)
    ensures var r := Trials(s, num);
      && (r.read == 0 || (num + r.read <= s.trials && num + r.read <= |s.inputs|))
      && (r.end == AfterNo ==> (if num < s.trials then num + r.read == s.trials else r.read == 0))
      && (r.end.Failed? ==> r.end == Failed(EOFError) && |s.inputs| <= num + r.read < s.trials)
      && (r.end == AfterYes ==> r.read >= 1 && SaysYes(s, num + r.read - 1))
    decreases if num < s.trials then s.trials - num else 0
  {
    if num < s.trials && num < |s.inputs| && !SaysYes(s, num) {
      ReadBounds(s, num + 1);
    }
  }

  /** `yes` is called at most once, and only as the very last event: after
      it no answer is read and `no` is not called. */
  lemma {:induction false} YesIsFinal(s: Session, num: nat)
    ensures var r := Trials(s, num);
      && (CountOf(r.events, YesCalled) > 0 <==> r.end == AfterYes)
      && (r.end == AfterYes ==> r.events[|r.events| - 1] == YesCalled && CountOf(r.events, YesCalled) == 1)
    decreases if num < s.trials then s.trials - num else 0
  {
    var r := Trials(s, num);
    if num >= s.trials {
      assert r.events == [TooManyAttempts] + [NoCalled];
      CountOfAppend([TooManyAttempts], [NoCalled], YesCalled);
    } else if num >= |s.inputs| {
    } else if SaysYes(s, num) {
      TrialCounts(s, num);
    } else {
      YesIsFinal(s, num + 1);
      TrialCounts(s, num);
      CountOfAppend(TrialEvents(s, num), Trials(s, num + 1).events, YesCalled);
    }
  }

  /** The loop ends by calling `yes` exactly when some trial reads an
      accepted "1" (no end of input can come before it, since every earlier
      answer exists). */
  lemma {:induction false} YesExactlyWhen(s: Session, num: nat)
    ensures Trials(s, num).end == AfterYes <==> exists i :: num <= i < s.trials && SaysYes(s, i)
    decreases if num < s.trials then s.trials - num else 0
  {
    if num < s.trials && num < |s.inputs| && !SaysYes(s, num) {
      YesExactlyWhen(s, num + 1);
      assert forall i :: num <= i < s.trials && SaysYes(s, i) ==> num + 1 <= i;
    }
  }

  /** The loop ends by calling `no` after the "Too many invalid attempts"
      message exactly when no trial reads an accepted "1" and an answer was
      there for every trial. */
  lemma {:induction false} ExhaustionCallsNo(s: Session, num: nat)
    ensures var r := Trials(s, num);
      && (r.end == AfterNo <==>
            (forall i :: num <= i < s.trials ==> !SaysYes(s, i)) && (s.trials <= num || s.trials <= |s.inputs|))
      && (r.end == AfterNo ==> |r.events| >= 2 && r.events[|r.events| - 2..] == [TooManyAttempts, NoCalled])
    decreases if num < s.trials then s.trials - num else 0
  {
    var r := Trials(s, num);
    if num < s.trials && num < |s.inputs| && !SaysYes(s, num) {
      ExhaustionCallsNo(s, num + 1);
      var rest := Trials(s, num + 1);
      assert r.events[|r.events| - |rest.events|..] == rest.events;
      if rest.end == AfterNo {
        assert r.events[|r.events| - 2..] == rest.events[|rest.events| - 2..];
      }
    }
  }

  /** `no` is called once for every accepted "2" that was read (the loop goes
      on after each), and once more when the trials run out. */
  lemma {:induction false} NoCallCount(s: Session, num: nat)
    ensures var r := Trials(s, num);
      CountOf(r.events, NoCalled) == CountNo(s, num, num + r.read) + (if r.end == AfterNo then 1 else 0)
    ensures var r := Trials(s, num);
      CountOf(r.events, Exiting) == CountNo(s, num, num + r.read)
    decreases if num < s.trials then s.trials - num else 0
  {
    if num >= s.trials {
      var e := [TooManyAttempts, NoCalled];
      assert e == [TooManyAttempts] + [NoCalled];
      CountOfAppend([TooManyAttempts], [NoCalled], NoCalled);
      CountOfAppend([TooManyAttempts], [NoCalled], Exiting);
    } else if num < |s.inputs| {
      TrialCounts(s, num);
      if !SaysYes(s, num) {
        NoCallCount(s, num + 1);
        NoCallStep(s, num);
      }
    }
  }

  /** One continuing trial adds its own "2", if it was one, to both counts. */
  lemma NoCallStep(s: Session, num: nat)
    requires num < s.trials && num < |s.inputs| && !SaysYes(s, num)
    ensures var r := Trials(s, num);
      var rest := Trials(s, num + 1);
      && CountOf(r.events, NoCalled) == CountOf(TrialEvents(s, num), NoCalled) + CountOf(rest.events, NoCalled)
      && CountOf(r.events, Exiting) == CountOf(TrialEvents(s, num), Exiting) + CountOf(rest.events, Exiting)
      && r.read == rest.read + 1 && r.end == rest.end
      && CountNo(s, num, num + r.read) == (if SaysNo(s, num) then 1 else 0) + CountNo(s, num + 1, num + 1 + rest.read)
  {
    TrialsStep(s, num);
    var rest := Trials(s, num + 1);
    CountOfAppend(TrialEvents(s, num), rest.events, NoCalled);
    CountOfAppend(TrialEvents(s, num), rest.events, Exiting);
  }

  /** The invalid-option diagnostic is shown for every invalid answer read on
      a trial before the final one, and never for the final trial's answer. */
  lemma {:induction false} DiagnosticCount(s: Session, num: nat)
    ensures var r := Trials(s, num);
      CountDiagnostics(r.events) == CountInvalidBeforeFinal(s, num, num + r.read)
    decreases if num < s.trials then s.trials - num else 0
  {
    var r := Trials(s, num);
    if num >= s.trials {
      assert r.events == [TooManyAttempts] + [NoCalled];
      CountDiagnosticsAppend([TooManyAttempts], [NoCalled]);
    } else if num >= |s.inputs| {
    } else if SaysYes(s, num) {
      TrialCounts(s, num);
    } else {
      DiagnosticCount(s, num + 1);
      TrialCounts(s, num);
      CountDiagnosticsAppend(TrialEvents(s, num), Trials(s, num + 1).events);
    }
  }

  /** One prompt per answer read (and one more when the input ran out), and
      the k-th prompt carries the "This is your last trial" prefix exactly
      when it is the prompt of the final trial. */
  lemma {:induction false} PromptsShown(s: Session, num: nat)
    ensures var r := Trials(s, num);
      var ps := Prompts(r.events);
      && |ps| == r.read + (if r.end.Failed? then 1 else 0)
      && (forall k :: 0 <= k < |ps| ==> ps[k] == PromptText(num + k == s.trials - 1))
    decreases if num < s.trials then s.trials - num else 0
  {
    if num >= s.trials {
      assert [TooManyAttempts, NoCalled] == [TooManyAttempts] + [NoCalled];
      PromptsAppend([TooManyAttempts], [NoCalled]);
    } else if num < |s.inputs| {
      TrialCounts(s, num);
      if !SaysYes(s, num) {
        PromptsShown(s, num + 1);
        PromptsStep(s, num);
      }
    }
  }

  /** A continuing trial puts its own prompt in front of the later ones. */
  lemma PromptsStep(s: Session, num: nat)
    requires num < s.trials && num < |s.inputs| && !SaysYes(s, num)
    ensures var r := Trials(s, num);
      var rest := Trials(s, num + 1);
      && Prompts(r.events) == [PromptText(num == s.trials - 1)] + Prompts(rest.events)
      && r.read == rest.read + 1 && r.end == rest.end
  {
    TrialsStep(s, num);
    TrialCounts(s, num);
    PromptsAppend(TrialEvents(s, num), Trials(s, num + 1).events);
  }

  /** The prefixed prompt differs from the plain one, so only the final
      trial's prompt carries it. */
  lemma LastTrialPromptDiffers()
    ensures PromptText(true) != PromptText(false)
  {
    assert |PromptText(true)| != |PromptText(false)|;
  }

  // ---------------------------------------------------------------------
  // The documented scenarios, with the default options and three trials

  function DefaultSession(inputs: seq<string>, defaultDir: Path): Session {
    Session([StrOption("1"), StrOption("2")], "1 or 2", defaultDir, inputs, 3)
  }

  /** The hand-written session is the one the constructor's prompt runs
      with the class default options and three trials. */
  lemma DefaultSessionIsSessionFor(inputs: seq<string>, d: Path)
    ensures SessionFor(DEFAULT_OPTIONS, d, inputs, 3) == DefaultSession(inputs, d)
  {
    DefaultListing();
  }

  /** An invalid answer then "1": one diagnostic, then `yes` once and no
      further prompt. */
  lemma InvalidThenYes(d: Path)
    ensures Trials(DefaultSession(["x", "1"], d), 0) ==
      Run([Prompt(OPTIONS_PROMPT), InvalidOption("x", "1 or 2"), ChooseOption("1 or 2"),
           Prompt(OPTIONS_PROMPT), Defaulting(d), YesCalled], 2, AfterYes)
  {
  }

  /** Three invalid answers: diagnostics on the first two only, the last
      prompt prefixed, then "Too many invalid attempts" and `no` once. */
  lemma ThreeInvalid(d: Path)
    ensures Trials(DefaultSession(["x", "x", "x"], d), 0) ==
      Run([Prompt(OPTIONS_PROMPT), InvalidOption("x", "1 or 2"), ChooseOption("1 or 2"),
           Prompt(OPTIONS_PROMPT), InvalidOption("x", "1 or 2"), ChooseOption("1 or 2"),
           Prompt(LAST_TRIAL_PREFIX + OPTIONS_PROMPT), TooManyAttempts, NoCalled], 3, AfterNo)
  {
    var s := DefaultSession(["x", "x", "x"], d);
    assert Trials(s, 3) == Run([TooManyAttempts, NoCalled], 0, AfterNo);
    assert Trials(s, 2) == Run([Prompt(LAST_TRIAL_PREFIX + OPTIONS_PROMPT), TooManyAttempts, NoCalled], 1, AfterNo);
  }

  /** "2" first: the exit message and `no`, and then the second trial. */
  lemma NoThenYes(d: Path)
    ensures Trials(DefaultSession(["2", "1"], d), 0) ==
      Run([Prompt(OPTIONS_PROMPT), Exiting, NoCalled,
           Prompt(OPTIONS_PROMPT), Defaulting(d), YesCalled], 2, AfterYes)
  {
  }
}
