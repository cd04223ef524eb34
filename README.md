# BaseCleaner, modelled in Dafny

`BaseCleaner` is the base class of a small interactive file-cleanup tool.
It holds three fields. `BASE_DIR` is the root directory to clean. `VERBOSE`
says whether messages are shown. `VALID_OPTIONS` is the tuple of answers the
operator may give. The class has four pieces of logic:

- a bounded-retry yes/no prompt (`__get_feedback__`), used when no base
  directory is given;
- a formatter that lists the valid options (`_convert_valid_options_to_string`);
- an ordered validation pass over `BASE_DIR` and `VERBOSE` (`__run_checks__`);
- a base-directory setter with a fallback to the previous directory
  (`set_base_dir`).

It also has a filtered directory listing (`_discover_paths`), and a
constructor that composes the rest.

The model is spread over these files:

- `values.dfy`: the Python values the class handles (a tagged `VERBOSE`
  value, the exceptions, `str` of an int with its inverse, `sep.join`) and
  the filesystem, kept abstract (`Host`).
- `checks.dfy`: `__run_checks__` as a function of the state it reads.
- `options.dfy`: `VALID_OPTIONS`, its conversion to strings and the listing
  text.
- `trace.dfy`: what the operator sees, as events, and counting functions
  over them.
- `feedback.dfy`: the prompt loop as a function `Trials` of the operator's
  answers, with its properties.
- `discovery.dfy`: the order-preserving filters of `_discover_paths`.
- `base_dir.dfy`: `set_base_dir` as written, and the fallback as the
  comment at `base/base.py:213-216` states it: the old value is kept as a
  fallback in case the new `BASE_DIR` fails its checks.
- `cleaner.dfy`: the class `BaseCleaner`. Its methods update the fields in
  place, and each is proved against the functions above.

Some conventions of the model:

- The answers the operator types are a `seq<string>`, read by index. Reading
  past the end raises `EOFError`, as `input()` does.
- The `yes` and `no` callbacks are the events `YesCalled` and `NoCalled`.
  `no` returns, so after an answer "2" the loop goes on to the next trial.
  When the constructor's `yes` callback runs, it sets `BASE_DIR` to
  `DEFAULT_BASE_DIR`. The model applies that after the loop has returned,
  because nothing happens in between.
- `BASE_DIR` is either the class default `''`, which is falsy and has no
  `exists` or `iterdir`, or a `Path`, which is always truthy.
- The `VERBOSE` attribute does not exist until something sets it, so
  `__run_checks__` and `set_base_dir` raise `AttributeError` when they read
  it too early. The model writes this as `None`.
- The `base/base.py:227` revert is gated on `VERBOSE`, and the fallback
  value is bound only when the previous `BASE_DIR` was truthy. The model
  keeps both behaviours as written; see "## Findings".

## Model

| member | source | states |
|---|---|---|
| Values.IntToStringRoundTrip | base/base.py:110 | reading back the decimal text `str(i)` gives `i` |
| Values.IntToStringInjective | base/base.py:110 | two ints have the same `str` exactly when they are equal |
| Checks.RunChecks | base/base.py:71-99 | `''` raises `AttributeError`; the result is validated exactly when the directory exists and `VERBOSE` is a bool, and then has no field name and the success message; a missing directory is reported (silent) or raised as `FileNotFoundError` (strict) whatever `VERBOSE` is; an existing directory with a non-bool `VERBOSE` gives the `VERBOSE` report with its class (silent) or `TypeError` (strict), and with `VERBOSE` never set raises `AttributeError`; a `VERBOSE` report only comes once the directory exists; failure reports only in silent mode, and silent mode raises only `AttributeError` |
| Checks.StrictStatus | base/base.py:71-92 | strict mode returns exactly when the directory exists and `VERBOSE` is a bool |
| Checks.StrictMatchesSilent | base/base.py:71-92 | strict mode raises `FileNotFoundError` exactly when silent mode reports `BASE_DIR`, `TypeError` exactly when it reports `VERBOSE`, and passes exactly when silent mode validates |
| ValidOptions.Stringified | base/base.py:110 | the converted tuple has the same length and order, each entry the `str` of the one it replaces |
| ValidOptions.StringifiedIdempotent | base/base.py:110 | converting a second time changes nothing |
| ValidOptions.StringifiedMembership | base/base.py:136 | an answer is in the converted tuple exactly when it is the `str` of an original option |
| ValidOptions.NumberAnswerValid | base/base.py:136 | the answer `str(n)` is valid exactly when the tuple held the int `n` or that text |
| ValidOptions.DefaultListing | base/base.py:110-112 | the default `(1, 2)` becomes `("1", "2")` and is listed as "1 or 2" |
| ValidOptions.FormatShortLists | base/base.py:111-117 | one option reads ", or a", two read "a or b", three read "a, b, or c" |
| ValidOptions.FormatCons | base/base.py:117 | from four options on, the listing is the first option, ", " and the listing of the rest |
| Feedback.TrialCounts | base/base.py:135-152 | what one trial adds to the counts of `yes`, `no`, exit messages, diagnostics and prompts |
| Feedback.ReadBounds | base/base.py:128-160 | no more answers are read than there are trials or answers; ending after `no` uses every trial; failing happens only with `EOFError` at the end of the input; ending after `yes` comes right after reading an accepted "1" |
| Feedback.YesIsFinal | base/base.py:144-148 | `yes` is called at most once, only when the loop ends after it, and it is the last event |
| Feedback.YesExactlyWhen | base/base.py:144-148 | the loop ends after `yes` exactly when some trial reads an accepted "1" |
| Feedback.ExhaustionCallsNo | base/base.py:157-160 | the loop ends after "Too many invalid attempts" and `no` exactly when no trial reads an accepted "1" and no answer was missing |
| Feedback.NoCallCount | base/base.py:150-160 | `no` is called once per accepted "2" read, plus once when the trials run out; the exit message is shown once per accepted "2" |
| Feedback.DiagnosticCount | base/base.py:136-142 | the invalid-option diagnostic is shown once for every invalid answer read before the final trial, and never for the final trial |
| Feedback.PromptsShown | base/base.py:129-135 | one prompt per answer read, plus one when the input runs out; the k-th prompt carries "This is your last trial" exactly when it is the final trial's |
| Feedback.LastTrialPromptDiffers | base/base.py:134 | the final trial's prompt differs from the others |
| Feedback.DefaultSessionIsSessionFor | base/base.py:14-33 | the session of the scenarios below is the one the constructor's prompt runs: options `("1", "2")` listed as "1 or 2", three trials |
| Feedback.InvalidThenYes | base/base.py:128-148 | answers "x", "1": one diagnostic, then the default message and `yes` once |
| Feedback.ThreeInvalid | base/base.py:128-160 | three invalid answers: diagnostics on the first two, the last prompt prefixed, then "Too many invalid attempts" and `no` |
| Feedback.NoThenYes | base/base.py:128-152 | answers "2", "1": the exit message and `no`, then the next trial, which ends with `yes` |
| Discovery.Filter | base/base.py:179-186 | the filtered listing keeps exactly the entries that pass the test, and is no longer than the listing |
| Discovery.FilterIsSubsequence | base/base.py:179-186 | filtering keeps the listing order |
| Discovery.FilterAppend | base/base.py:179-186 | filtering a concatenation is concatenating the filtered parts |
| Discovery.FiltersCommute | base/base.py:178-186 | the directory filter and the hidden filter can be applied in either order |
| Discovery.DiscoverKeeps | base/base.py:177-186 | discovery returns, in listing order, exactly the entries that pass both requested filters |
| BaseDirSetter.AssignsOrFallsBack | base/base.py:217-235 | the resolved new path is always assigned; the only value that can replace it is the previous truthy `BASE_DIR`; without checks nothing else happens |
| BaseDirSetter.SuccessKeepsNewPath | base/base.py:225-230 | a new path that passes validation is kept, and success is shown only when `VERBOSE` is truthy |
| BaseDirSetter.FailureFallsBackOnlyWhenVerbose | base/base.py:227-235 | a failed validation reverts only when `VERBOSE` is truthy and there was a previous directory; with `VERBOSE` truthy and no previous directory it raises `UnboundLocalError`; with `VERBOSE` falsy the failed path stays |
| BaseDirSetter.ValidThenMissing | base/base.py:217-235 | with `VERBOSE` true, setting a valid directory and then a missing one leaves the valid one |
| BaseDirSetter.QuietFailureKeepsMissingPath | base/base.py:227-235 | with `VERBOSE` false, a missing new directory is kept: neither restored nor validated |
| BaseDirSetter.IntendedValidOrRestored | base/base.py:213-235 | the corrected setter, with checks, leaves either the previous directory or one that exists |
| BaseDirSetter.IntendedAgrees | base/base.py:217-235 | without checks, or with `VERBOSE` truthy and a previous directory, the corrected setter and the setter as written agree |
| Cleaner.BaseCleaner.constructor | base/base.py:12-14 | a new instance holds the class defaults: `BASE_DIR = ''`, no `VERBOSE`, `VALID_OPTIONS = (1, 2)` |
| Cleaner.BaseCleaner.SeparateMsg | base/base.py:169-172 | a message block is shown exactly when `VERBOSE` is truthy |
| Cleaner.BaseCleaner.ConvertValidOptionsToString | base/base.py:101-117 | an empty tuple raises `ValueError` and is left alone; otherwise the tuple is replaced by its converted form and its listing is returned |
| Cleaner.BaseCleaner.GetFeedback | base/base.py:119-160 | sets `VERBOSE` true; an empty option tuple raises `ValueError` before anything is shown; otherwise the tuple is converted, the info line is shown, and the events, answers read and ending are those of `Trials` from the first trial |
| Cleaner.BaseCleaner.AskTrials | base/base.py:128-160 | the loop appends exactly the events of `Trials`, and returns its ending and the number of answers read |
| Cleaner.BaseCleaner.Attempt | base/base.py:129-152 | one loop pass either leaves the run split one trial further on, or ends it with `EOFError` or after `yes` |
| Cleaner.BaseCleaner.Trial | base/base.py:129-152 | one pass shows the prompt and raises at the end of the input, or appends the events of that trial and says whether it confirmed |
| Cleaner.BaseCleaner.SetBaseDir | base/base.py:199-237 | updates `BASE_DIR`, the result and the messages exactly as `BaseDirSetter.AsWritten` says |
| Cleaner.BaseCleaner.DiscoverPaths | base/base.py:174-194 | `''` raises `AttributeError`; a missing `VERBOSE` raises; with `VERBOSE` truthy the filtered listing is shown and nothing is returned; otherwise the filtered listing is returned |
| Cleaner.BaseCleaner.Init | base/base.py:23-40 | with a base directory, it is set without checks; without one, the operator is asked, and `yes` sets `DEFAULT_BASE_DIR`; an empty option tuple or the end of input raises; then `VERBOSE` is the keyword value (default true) and the strict checks decide the result |

## Left out

- `print`, the separator line and `wait(1)` in `__separate_msg__`: output and timing. A shown message block is one trace event.
- The `%` formatting of the messages and of `ERROR_DICT`: messages are kept by kind, with the offending field or value.
- `exit(0)` as the default `no` callback: process termination. `no` is an event that returns.
- `Path.exists`, `Path.resolve`, `Path.is_dir` and `Path.iterdir` are foreign filesystem calls. They are parameters (`Host`): a set of existing paths, a resolve function, a set of directories and a listing function.
- What the `iterdir` listing contains, and its error on a missing or non-directory path: the listing is an abstract total function.
- The glob semantics of `Path.match(r'*\.*')`: this is library and platform behaviour. It is the abstract set `dotted`, and the model does not claim it means "contains a dot".
- The `pattern` parameter of `_discover_paths`: the source never uses it.
- `DiscoverPaths`: it returns a finished sequence, not a lazy generator. The iterator that the display step drains is modelled as an empty result.
- `DEFAULT_BASE_DIR` computed from `__file__`: it is an opaque constant path of each instance.
- `remove_files`: it is an asynchronous stub with no body.
- The singleton `__new__`: there is no behaviour to state. `Init` runs on an existing instance whose fields may hold earlier values.
- Option entries are limited to ints and strings, the types whose `str` is modelled.
- The constructor's `base_dir` argument is kept only as a string. A `Path` argument, always truthy, is not distinguished.
- `Cleaner.BaseCleaner.SetBaseDir`: it follows the code as written, not the corrected fallback of "## Findings". The constructor calls it only without checks, where `BaseDirSetter.IntendedAgrees` shows the two agree.

## Findings

| source | as written | input that shows it | evidently intended | confidence | as-written member | corrected member |
|---|---|---|---|---|---|---|
| base/base.py:227-235 | the revert to the previous `BASE_DIR` sits inside `if self.VERBOSE:`, and `TEMP_BASE_DIR` is bound only when the old `BASE_DIR` was truthy | `VERBOSE` false, `run_checks=True`, a new path that does not exist: the missing path stays in `BASE_DIR`. With `VERBOSE` true and the class default `''` as old value: `UnboundLocalError` | a failed validation always restores the previous directory; only the message depends on `VERBOSE` | not executed | BaseDirSetter.QuietFailureKeepsMissingPath | BaseDirSetter.IntendedValidOrRestored |
