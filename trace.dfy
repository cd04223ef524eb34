/** What the operator sees and which callbacks run, as a sequence of events.
    Each `__separate_msg__` block, each `print`, each `input` prompt and each
    call of `yes` or `no` is one event. */
module Trace {
  import opened Values
  import opened Checks

  datatype Event =
    | Info(text: string)                       // print(info) before the first prompt
    | Prompt(text: string)                     // the text given to input()
    | InvalidOption(answer: string, listing: string)
    | ChooseOption(listing: string)            // print('Choose an option, ...')
    | Defaulting(baseDir: Path)                // 'Defaulting to ... as BASE_DIR'
    | YesCalled
    | Exiting                                  // 'Exiting application...'
    | NoCalled
    | TooManyAttempts                          // 'Too many invalid attempts' block
    | ValidationPassed(baseDir: Path, message: CheckMessage)
    | ValidationFailed(fieldName: Option<string>, message: CheckMessage, fallback: BaseDir)
    | Discovered(baseDir: Path, directoryOnly: bool, paths: seq<Path>)

  /** How many times `e` occurs in `events`. */
  function CountOf(events: seq<Event>, e: Event): nat
    decreases |events|
  {
    if events == [] then 0 else (if events[0] == e then 1 else 0) + CountOf(events[1..], e)
  }

  /** How many invalid-option diagnostics `events` holds. */
  function CountDiagnostics(events: seq<Event>): nat
    decreases |events|
  {
    if events == [] then 0 else (if events[0].InvalidOption? then 1 else 0) + CountDiagnostics(events[1..])
  }

  /** The prompt texts in `events`, in order. */
  function Prompts(events: seq<Event>): seq<string>
    decreases |events|
  {
    if events == [] then []
    else (if events[0].Prompt? then [events[0].text] else []) + Prompts(events[1..])
  }

  lemma {:induction false} CountOfAppend(a: seq<Event>, b: seq<Event>, e: Event)
    ensures CountOf(a + b, e) == CountOf(a, e) + CountOf(b, e)
    decreases |a|
  {
    if a != [] {
      assert (a + b)[1..] == a[1..] + b;
      CountOfAppend(a[1..], b, e);
    } else {
      assert a + b == b;
    }
  }

  lemma {:induction false} CountDiagnosticsAppend(a: seq<Event>, b: seq<Event>)
    ensures CountDiagnostics(a + b) == CountDiagnostics(a) + CountDiagnostics(b)
    decreases |a|
  {
    if a != [] {
      assert (a + b)[1..] == a[1..] + b;
      CountDiagnosticsAppend(a[1..], b);
    } else {
      assert a + b == b;
    }
  }

  lemma {:induction false} PromptsAppend(a: seq<Event>, b: seq<Event>)
    ensures Prompts(a + b) == Prompts(a) + Prompts(b)
    decreases |a|
  {
    if a != [] {
      assert (a + b)[1..] == a[1..] + b;
      PromptsAppend(a[1..], b);
    } else {
      assert a + b == b;
    }
  }
}
