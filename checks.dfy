/** The internal validation pass `__run_checks__`: two ordered,
    short-circuiting checks over the current `BASE_DIR` and `VERBOSE`, which
    either return a report (silent mode) or raise (strict mode). It reads the
    state and never changes it, so it is a function of the values it reads. */
module Checks {
  import opened Values

  /** `BASE_DIR`: the class default is the empty `str` (falsy); once set it
      is a `Path`, which is always truthy. */
  datatype BaseDir = EmptyStr | PathTo(path: Path)

  predicate IsSet(d: BaseDir) {
    d.PathTo?
  }

  /** The `message` of a report, by kind. */
  datatype CheckMessage =
    | NotFoundMessage(path: Path)
    | VerboseTypeMessage(actual: string)
    | ChecksPassed

  /** The dictionary `{field_name, is_validated, message}`. */
  datatype Report = Report(fieldName: Option<string>, isValidated: bool, message: CheckMessage)

  /** `self.VERBOSE` as read through `isinstance(self.VERBOSE, bool)`. */
  predicate IsBool(v: Option<PyValue>) {
    v.Some? && v.value.PyBool?
  }

  /** `__run_checks__(fail_silently)` on the state (`baseDir`, `verbose`),
      with `existing` the paths for which `Path.exists()` holds.
      `''.exists()` and a never-set `VERBOSE` raise `AttributeError` whatever
      the mode. */
  function RunChecks(baseDir: BaseDir, verbose: Option<PyValue>, existing: set<Path>, failSilently: bool): (r: Outcome<Report>)
    // the unset class default has no `exists`
    ensures baseDir == EmptyStr ==> r == Raise(AttributeError("str", "exists"))
    // both checks pass exactly when the directory exists and VERBOSE is a bool
    ensures (r.Ok? && r.value.isValidated) <==> (IsSet(baseDir) && baseDir.path in existing && IsBool(verbose))
    ensures r.Ok? && r.value.isValidated ==> r.value.fieldName == None && r.value.message == ChecksPassed
    // a failure report is only ever returned in silent mode ...
    ensures r.Ok? && !r.value.isValidated ==> failSilently
    // ... and silent mode raises nothing but the AttributeErrors
    ensures failSilently && r.Raise? ==> r.exc.AttributeError?
    // existence is checked first: a missing directory is what is reported, whatever VERBOSE is
    ensures IsSet(baseDir) && baseDir.path !in existing ==>
      r == if failSilently then Ok(Report(Some("BASE_DIR"), false, NotFoundMessage(baseDir.path)))
           else Raise(FileNotFoundError(baseDir.path))
    // the type check only speaks once the directory is known to exist
    ensures r.Ok? && r.value.fieldName == Some("VERBOSE") ==>
      IsSet(baseDir) && baseDir.path in existing && verbose.Some? && verbose.value.PyOther?
    // an existing directory with a non-bool VERBOSE: the VERBOSE report, or TypeError
    ensures IsSet(baseDir) && baseDir.path in existing && verbose.Some? && verbose.value.PyOther? ==>
      r == if failSilently then Ok(Report(Some("VERBOSE"), false, VerboseTypeMessage(verbose.value.className)))
           else Raise(TypeError("bool", verbose.value.className))
    // an existing directory with VERBOSE never set: reading it raises
    ensures IsSet(baseDir) && baseDir.path in existing && verbose.None? ==>
      r == Raise(AttributeError("BaseCleaner", "VERBOSE"))
  {
    match baseDir
    case EmptyStr => Raise(AttributeError("str", "exists"))
    case PathTo(p) =>
      if p !in existing then
        if failSilently then Ok(Report(Some("BASE_DIR"), false, NotFoundMessage(p)))
        else Raise(FileNotFoundError(p))
      else
        match verbose
        case None => Raise(AttributeError("BaseCleaner", "VERBOSE"))
        case Some(PyOther(cls, _)) =>
          if failSilently then Ok(Report(Some("VERBOSE"), false, VerboseTypeMessage(cls)))
          else Raise(TypeError("bool", cls))
        case Some(PyBool(_)) => Ok(Report(None, true, ChecksPassed))
  }

  /** Strict mode as the constructor uses it: returns or raises. */
  function StrictStatus(baseDir: BaseDir, verbose: Option<PyValue>, existing: set<Path>): (st: Status)
    ensures st == Done <==> IsSet(baseDir) && baseDir.path in existing && IsBool(verbose)
  {
    match RunChecks(baseDir, verbose, existing, false)
    case Ok(_) => Done
    case Raise(e) => Raised(e)
  }

  /** The two modes decide alike: strict mode raises the error matching the
      field that silent mode reports, and passes exactly when silent mode
      validates. */
  lemma StrictMatchesSilent(baseDir: BaseDir, verbose: Option<PyValue>, existing: set<Path>)
    ensures var silent := RunChecks(baseDir, verbose, existing, true);
            var strict := RunChecks(baseDir, verbose, existing, false);
            && (silent.Ok? && silent.value.isValidated <==> strict.Ok?)
            && (silent.Ok? && silent.value.fieldName == Some("BASE_DIR") <==> strict.Raise? && strict.exc.FileNotFoundError?)
            && (silent.Ok? && silent.value.fieldName == Some("VERBOSE") <==> strict.Raise? && strict.exc.TypeError?)
            && (silent.Raise? ==> strict == silent)
  {
  }
}
