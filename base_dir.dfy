/** `set_base_dir`: the new, resolved path is always assigned; with
    `run_checks` the silent validation pass decides whether to keep it. As
    written, the fall-back to the previous directory sits inside the
    `if self.VERBOSE:` block and uses `TEMP_BASE_DIR`, which is bound only
    when the previous `BASE_DIR` was truthy. */
module BaseDirSetter {
  import opened Values
  import opened Checks
  import opened Trace

  /** The new `BASE_DIR`, what the call returned or raised, and the
      messages it showed. */
  datatype SetResult = SetResult(baseDir: BaseDir, status: Status, shown: seq<Event>)

  /** `set_base_dir(arg, run_checks=runChecks)` as written, from the state
      (`previous`, `verbose`). */
  function AsWritten(previous: BaseDir, verbose: Option<PyValue>, arg: string, runChecks: bool, h: Host): SetResult {
    var newDir := PathTo(h.resolve(arg));
    if !runChecks then SetResult(newDir, Done, [])
    else
      match RunChecks(newDir, verbose, h.existing, true)
      case Raise(e) => SetResult(newDir, Raised(e), [])
      case Ok(report) =>
        if verbose.None? then SetResult(newDir, Raised(AttributeError("BaseCleaner", "VERBOSE")), [])
        else if !Truthy(verbose.value) then SetResult(newDir, Done, [])
        else if report.isValidated then SetResult(newDir, Done, [ValidationPassed(newDir.path, report.message)])
        // the footer names TEMP_BASE_DIR before the revert is reached
        else if !IsSet(previous) then SetResult(newDir, Raised(UnboundLocalError("TEMP_BASE_DIR")), [])
        else SetResult(previous, Done, [ValidationFailed(report.fieldName, report.message, previous)])
  }

  /** The directory left behind is either the one held before the call or
      one that passed validation. */
  predicate ValidOrRestored(previous: BaseDir, r: SetResult, h: Host) {
    r.baseDir == previous || (IsSet(r.baseDir) && r.baseDir.path in h.existing)
  }

  /** The new path is always assigned first; the only value it can be
      replaced by is the previous truthy `BASE_DIR`. */
  lemma AssignsOrFallsBack(previous: BaseDir, verbose: Option<PyValue>, arg: string, runChecks: bool, h: Host)
    ensures var r := AsWritten(previous, verbose, arg, runChecks, h);
      r.baseDir == PathTo(h.resolve(arg)) || (IsSet(previous) && r.baseDir == previous)
    ensures !runChecks ==> AsWritten(previous, verbose, arg, runChecks, h) == SetResult(PathTo(h.resolve(arg)), Done, [])
  {
  }

  /** A new path that passes validation is kept. */
  lemma SuccessKeepsNewPath(previous: BaseDir, verbose: Option<PyValue>, arg: string, h: Host)
    requires h.resolve(arg) in h.existing && IsBool(verbose)
    ensures var r := AsWritten(previous, verbose, arg, true, h);
      r.baseDir == PathTo(h.resolve(arg)) && r.status == Done
      && r.shown == if Truthy(verbose.value) then [ValidationPassed(h.resolve(arg), ChecksPassed)] else []
  {
  }

  /** A failed validation reverts only when `VERBOSE` is truthy and there
      was a previous truthy `BASE_DIR`; with `VERBOSE` truthy and nothing to
      fall back to it raises `UnboundLocalError`, and with `VERBOSE` falsy
      the failed path stays. */
  lemma FailureFallsBackOnlyWhenVerbose(previous: BaseDir, verbose: Option<PyValue>, arg: string, h: Host)
    requires verbose.Some?
    requires h.resolve(arg) !in h.existing || !IsBool(verbose)
    ensures var r := AsWritten(previous, verbose, arg, true, h);
      && r.baseDir == (if Truthy(verbose.value) && IsSet(previous) then previous else PathTo(h.resolve(arg)))
      && r.status == (if Truthy(verbose.value) && !IsSet(previous) then Raised(UnboundLocalError("TEMP_BASE_DIR")) else Done)
  {
  }

  /** Switching to a valid directory and then to a missing one, with
      `VERBOSE` true, leaves the valid one in place. */
  lemma ValidThenMissing(start: BaseDir, good: string, bad: string, h: Host)
    requires h.resolve(good) in h.existing && h.resolve(bad) !in h.existing
    ensures var first := AsWritten(start, Some(PyBool(true)), good, true, h);
      var second := AsWritten(first.baseDir, Some(PyBool(true)), bad, true, h);
      first.status == Done && second.status == Done && second.baseDir == PathTo(h.resolve(good))
  {
  }

  /** As written, a quiet cleaner (`VERBOSE` false) keeps a new directory
      that failed validation. */
  lemma QuietFailureKeepsMissingPath(previous: BaseDir, arg: string, h: Host)
    requires h.resolve(arg) !in h.existing && previous != PathTo(h.resolve(arg))
    ensures var r := AsWritten(previous, Some(PyBool(false)), arg, true, h);
      r.status == Done && !ValidOrRestored(previous, r, h)
  {
  }

  /** The fall-back as the comment on `TEMP_BASE_DIR` states it: on a
      failed validation the previous `BASE_DIR` is restored whatever
      `VERBOSE` is, and the messages stay gated by `VERBOSE`. */
  function Intended(previous: BaseDir, verbose: Option<PyValue>, arg: string, runChecks: bool, h: Host): SetResult {
    var newDir := PathTo(h.resolve(arg));
    if !runChecks then SetResult(newDir, Done, [])
    else
      match RunChecks(newDir, verbose, h.existing, true)
      case Raise(e) => SetResult(newDir, Raised(e), [])
      case Ok(report) =>
        var kept := if report.isValidated then newDir else previous;
        if verbose.None? then SetResult(kept, Raised(AttributeError("BaseCleaner", "VERBOSE")), [])
        else if !Truthy(verbose.value) then SetResult(kept, Done, [])
        else if report.isValidated then SetResult(kept, Done, [ValidationPassed(newDir.path, report.message)])
        else SetResult(kept, Done, [ValidationFailed(report.fieldName, report.message, previous)])
  }

  /** With checks, the intended setter never leaves an unvalidated new
      directory behind. */
  lemma IntendedValidOrRestored(previous: BaseDir, verbose: Option<PyValue>, arg: string, h: Host)
    ensures ValidOrRestored(previous, Intended(previous, verbose, arg, true, h), h)
  {
  }

  /** Without checks (the only way the constructor calls it) the two agree,
      and with `VERBOSE` truthy and a previous directory they agree too. */
  lemma IntendedAgrees(previous: BaseDir, verbose: Option<PyValue>, arg: string, runChecks: bool, h: Host)
    requires !runChecks || (verbose.Some? && Truthy(verbose.value) && IsSet(previous))
    ensures Intended(previous, verbose, arg, runChecks, h) == AsWritten(previous, verbose, arg, runChecks, h)
  {
  }
}
