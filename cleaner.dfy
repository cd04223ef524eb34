/** The class `BaseCleaner`: its fields `BASE_DIR`, `VERBOSE` and
    `VALID_OPTIONS`, and the methods that update them step by step. What the
    operator sees, and the `yes`/`no` callbacks, are appended to `trace`. */
module Cleaner {
  import opened Values
  import opened Checks
  import opened ValidOptions
  import opened Trace
  import opened Feedback
  import opened Discovery
  import BaseDirSetter

  const NO_BASE_DIR_INFO: string := "No base_dir was provided, do you want to proceed with the DEFAULT_BASE_DIR?"
  /** The default `no_of_trials`. */
  const DEFAULT_TRIALS: int := 3

  /** How one trial of the confirmation loop ends. */
  datatype TrialStep = EndOfInput | Confirmed | Continue

  class BaseCleaner {
    /** `DEFAULT_BASE_DIR`, computed from the module's own location. */
    const defaultBaseDir: Path
    var baseDir: BaseDir
    var verbose: Option<PyValue>
    var validOptions: seq<OptionItem>
    var trace: seq<Event>

    /** A new instance with the class defaults: `BASE_DIR = ''`, no
        `VERBOSE` attribute yet, `VALID_OPTIONS = (1, 2)`. */
    constructor (defaultBaseDir: Path)
      ensures this.defaultBaseDir == defaultBaseDir
      ensures baseDir == EmptyStr && verbose == None && validOptions == DEFAULT_OPTIONS && trace == []
    {
      this.defaultBaseDir := defaultBaseDir;
      baseDir := EmptyStr;
      verbose := None;
      validOptions := DEFAULT_OPTIONS;
      trace := [];
    }

    /** `__separate_msg__`: shows a message block only when `VERBOSE` is
        truthy. Every caller has read `VERBOSE` before. */
    method SeparateMsg(e: Event)
      requires verbose.Some?
      modifies this`trace
      ensures trace == old(trace) + (if Truthy(verbose.value) then [e] else [])
    {
      if Truthy(verbose.value) {
        trace := trace + [e];
      }
    }

    /** `_convert_valid_options_to_string`: refuses an empty tuple, otherwise
        replaces every option by its `str` and returns their listing. */
    method ConvertValidOptionsToString() returns (r: Outcome<string>)
      modifies this`validOptions
      ensures old(validOptions) == [] ==> r == Raise(ValueError) && validOptions == old(validOptions)
      ensures old(validOptions) != [] ==>
        validOptions == Stringified(old(validOptions)) && r == Ok(FormatOptions(Texts(validOptions)))
    {
      if |validOptions| < 1 {
        return Raise(ValueError);
      }
      validOptions := Stringified(validOptions);
      r := Ok(FormatOptions(Texts(validOptions)));
    }

    /** `__get_feedback__(info, yes, no, no_of_trials)`: up to `trials`
        prompts, each reading the next of `inputs`. It returns how the loop
        ended and how many answers it read. */
    method GetFeedback(info: string, inputs: seq<string>, trials: int) returns (end: FeedbackEnd, read: nat)
      modifies this`verbose, this`validOptions, this`trace
      ensures verbose == Some(PyBool(true))
      ensures old(validOptions) == [] ==>
        end == Failed(ValueError) && read == 0 && validOptions == old(validOptions) && trace == old(trace)
      ensures old(validOptions) != [] ==>
        var run := Trials(SessionFor(old(validOptions), defaultBaseDir, inputs, trials), 0);
        && validOptions == Stringified(old(validOptions))
        && trace == old(trace) + [Info(info)] + run.events
        && end == run.end && read == run.read
    {
      verbose := Some(PyBool(true));
      var listing := ConvertValidOptionsToString();
      if listing.Raise? {
        return Failed(listing.exc), 0;
      }
      trace := trace + [Info(info)];
      ghost var s := SessionFor(old(validOptions), defaultBaseDir, inputs, trials);
      end, read := AskTrials(s, inputs, trials, listing.value);
    }

    /** The `for num in range(no_of_trials)` loop of `__get_feedback__` and
        the fall-through after it, on the converted options. */
    method AskTrials(ghost s: Session, inputs: seq<string>, trials: int, listing: string)
      returns (end: FeedbackEnd, read: nat)
      requires inputs == s.inputs && trials == s.trials
      requires verbose == Some(PyBool(true)) && validOptions == s.valid && listing == s.listing
      requires s.defaultDir == defaultBaseDir
      modifies this`trace
      ensures var run := Trials(s, 0); trace == old(trace) + run.events && end == run.end && read == run.read
    {
      ghost var done: seq<Event> := [];
      var options := OPTIONS_PROMPT;
      var num: nat := 0;
      while num < trials
        invariant num < trials ==> options == OPTIONS_PROMPT
        invariant num <= |inputs|
        invariant trace == old(trace) + done
        invariant RunSplits(s, num, done)
        decreases trials - num
      {
        if num == trials - 1 {
          options := LAST_TRIAL_PREFIX + options;
        }
        var step := Attempt(s, old(trace), done, inputs, trials, num, options, listing);
        if step == EndOfInput {
          return Failed(EOFError), num;
        } else if step == Confirmed {
          return AfterYes, num + 1;
        }
        done := done + TrialEvents(s, num);
        num := num + 1;
      }
      RunSplitsEnd(s, num, done);
      SeparateMsg(TooManyAttempts);
      trace := trace + [NoCalled];
      return AfterNo, num;
    }

    /** One pass of the loop body of `__get_feedback__`, and where it leaves
        the run: `start` is the trace before the loop and `done` what the
        earlier trials showed. */
    method Attempt(ghost s: Session, ghost start: seq<Event>, ghost done: seq<Event>,
                   inputs: seq<string>, trials: int, num: nat, options: string, listing: string)
      returns (step: TrialStep)
      requires inputs == s.inputs && trials == s.trials
      requires verbose == Some(PyBool(true)) && validOptions == s.valid && listing == s.listing
      requires s.defaultDir == defaultBaseDir
      requires num < s.trials && options == PromptText(num == s.trials - 1)
      requires trace == start + done && RunSplits(s, num, done)
      modifies this`trace
      ensures step == Continue ==>
        && num < |s.inputs| && trace == start + (done + TrialEvents(s, num))
        && RunSplits(s, num + 1, done + TrialEvents(s, num))
      ensures step != Continue ==> trace == start + Trials(s, 0).events
      ensures step == EndOfInput ==> Trials(s, 0).read == num && Trials(s, 0).end == Failed(EOFError)
      ensures step == Confirmed ==> Trials(s, 0).read == num + 1 && Trials(s, 0).end == AfterYes
    {
      step := Trial(s, inputs, trials, num, options, listing);
      if step == Continue {
        RunSplitsStep(s, num, done);
      } else if step == EndOfInput {
        RunSplitsEnd(s, num, done);
        assert trace == start + (done + [Prompt(options)]);
      } else {
        RunSplitsEnd(s, num, done);
        assert trace == start + (done + TrialEvents(s, num));
      }
    }

    /** One pass of the loop body of `__get_feedback__`: the prompt, the
        read, and what the answer leads to. */
    method Trial(ghost s: Session, inputs: seq<string>, trials: int, num: nat, options: string, listing: string)
      returns (step: TrialStep)
      requires inputs == s.inputs && trials == s.trials
      requires verbose == Some(PyBool(true)) && validOptions == s.valid && listing == s.listing
      requires s.defaultDir == defaultBaseDir
      requires num < s.trials && options == PromptText(num == s.trials - 1)
      modifies this`trace
      ensures num >= |s.inputs| ==> step == EndOfInput && trace == old(trace) + [Prompt(options)]
      ensures num < |s.inputs| ==>
        step == (if SaysYes(s, num) then Confirmed else Continue) && trace == old(trace) + TrialEvents(s, num)
    {
      trace := trace + [Prompt(options)];
      if num >= |inputs| {
        return EndOfInput;
      }
      var feedback := inputs[num];
      TrialEventsShape(s, num);
      step := Continue;
      if StrOption(feedback) !in validOptions {
        if num != trials - 1 {
          SeparateMsg(InvalidOption(feedback, listing));
          trace := trace + [ChooseOption(listing)];
        }
      } else if feedback == "1" {
        SeparateMsg(Defaulting(defaultBaseDir));
        trace := trace + [YesCalled];
        step := Confirmed;
      } else if feedback == "2" {
        SeparateMsg(Exiting);
        trace := trace + [NoCalled];
      }
    }

    /** `set_base_dir(arg, run_checks=runChecks)`, exactly as
        `BaseDirSetter.AsWritten` describes it. */
    method SetBaseDir(arg: string, runChecks: bool, h: Host) returns (status: Status)
      modifies this`baseDir, this`trace
      ensures var r := BaseDirSetter.AsWritten(old(baseDir), verbose, arg, runChecks, h);
        baseDir == r.baseDir && status == r.status && trace == old(trace) + r.shown
    {
      var hadPrevious := IsSet(baseDir);
      var previous := baseDir;
      baseDir := PathTo(h.resolve(arg));
      if !runChecks {
        return Done;
      }
      var checks := RunChecks(baseDir, verbose, h.existing, true);
      if checks.Raise? {
        return Raised(checks.exc);
      }
      var report := checks.value;
      if verbose.None? {
        return Raised(AttributeError("BaseCleaner", "VERBOSE"));
      }
      if Truthy(verbose.value) {
        if report.isValidated {
          SeparateMsg(ValidationPassed(baseDir.path, report.message));
        } else {
          if !hadPrevious {
            return Raised(UnboundLocalError("TEMP_BASE_DIR"));
          }
          baseDir := previous;
          SeparateMsg(ValidationFailed(report.fieldName, report.message, previous));
        }
      }
      return Done;
    }

    /** `_discover_paths(directory_only, exclude_hidden)`: the filtered
        listing of `BASE_DIR`. When `VERBOSE` is truthy the listing is shown
        and, the iterator being spent, nothing is left to return. */
    method DiscoverPaths(directoryOnly: bool, excludeHidden: bool, h: Host) returns (r: Outcome<seq<Path>>)
      modifies this`trace
      ensures baseDir == EmptyStr ==> r == Raise(AttributeError("str", "iterdir")) && trace == old(trace)
      ensures IsSet(baseDir) ==>
        var found := Discover(h.listing(baseDir.path), directoryOnly, excludeHidden, h);
        if verbose.None? then r == Raise(AttributeError("BaseCleaner", "VERBOSE")) && trace == old(trace)
        else if Truthy(verbose.value) then r == Ok([]) && trace == old(trace) + [Discovered(baseDir.path, directoryOnly, found)]
        else r == Ok(found) && trace == old(trace)
    {
      if baseDir.EmptyStr? {
        return Raise(AttributeError("str", "iterdir"));
      }
      var found := h.listing(baseDir.path);
      if directoryOnly {
        found := Filter(found, h.dirs, true);
      }
      if excludeHidden {
        found := Filter(found, h.dotted, false);
      }
      if verbose.None? {
        return Raise(AttributeError("BaseCleaner", "VERBOSE"));
      }
      if Truthy(verbose.value) {
        SeparateMsg(Discovered(baseDir.path, directoryOnly, found));
        return Ok([]);
      }
      return Ok(found);
    }

    /** `__init__(base_dir, verbose=...)` on this instance (the singleton
        hands back the same instance, so the fields may hold values from an
        earlier construction). With no `base_dir` the operator is asked
        whether to use `DEFAULT_BASE_DIR` (`yes` sets it); otherwise the
        directory is set without checks. Then `VERBOSE` is set (default
        true) and the strict checks run. */
    method Init(baseDirArg: Option<string>, verboseKwarg: Option<PyValue>, inputs: seq<string>, h: Host)
      returns (status: Status, read: nat)
      modifies this`baseDir, this`verbose, this`validOptions, this`trace
      ensures var asked := baseDirArg.None? || baseDirArg.value == "";
        && (!asked ==>
              && baseDir == PathTo(h.resolve(baseDirArg.value))
              && validOptions == old(validOptions) && trace == old(trace) && read == 0
              && verbose == Some(verboseKwarg.GetOr(PyBool(true)))
              && status == StrictStatus(baseDir, verbose, h.existing))
        && (asked && old(validOptions) == [] ==>
              && status == Raised(ValueError) && read == 0 && verbose == Some(PyBool(true))
              && baseDir == old(baseDir) && validOptions == old(validOptions) && trace == old(trace))
        && (asked && old(validOptions) != [] ==>
              var run := Trials(SessionFor(old(validOptions), defaultBaseDir, inputs, DEFAULT_TRIALS), 0);
              && validOptions == Stringified(old(validOptions))
              && trace == old(trace) + [Info(NO_BASE_DIR_INFO)] + run.events
              && read == run.read
              && (run.end.Failed? ==>
                    status == Raised(run.end.exc) && verbose == Some(PyBool(true)) && baseDir == old(baseDir))
              && (!run.end.Failed? ==>
                    && baseDir == (if run.end == AfterYes then PathTo(defaultBaseDir) else old(baseDir))
                    && verbose == Some(verboseKwarg.GetOr(PyBool(true)))
                    && status == StrictStatus(baseDir, verbose, h.existing)))
    {
      read := 0;
      if baseDirArg.None? || baseDirArg.value == "" {
        var end, n := GetFeedback(NO_BASE_DIR_INFO, inputs, DEFAULT_TRIALS);
        read := n;
        if end.Failed? {
          return Raised(end.exc), read;
        }
        if end == AfterYes {
          // the `yes` callback
          baseDir := PathTo(defaultBaseDir);
        }
      } else {
        var _ := SetBaseDir(baseDirArg.value, false, h);
      }
      verbose := Some(verboseKwarg.GetOr(PyBool(true)));
      status := StrictStatus(baseDir, verbose, h.existing);
    }
  }
}
