/** Python-level values the cleaner's state is made of: optional attributes,
    tagged values whose only interesting property is "is it a bool",
    the exceptions the core raises, the text `str(int)` produces, `str.join`,
    and the abstract host filesystem. */
module Values {

  datatype Option<+T> = None | Some(value: T) {
    function GetOr(default: T): T {
      match this
      case Some(v) => v
      case None => default
    }
  }

  /** A filesystem path after `Path(...)`; paths are compared as text. */
  type Path = string

  /** A Python value that is either a `bool` or of some other class.
      `truthy` is what `if value:` would decide for the other kinds. */
  datatype PyValue = PyBool(b: bool) | PyOther(className: string, truthy: bool)

  predicate Truthy(v: PyValue) {
    match v
    case PyBool(b) => b
    case PyOther(_, t) => t
  }

  /** The exceptions the modelled code can raise; messages are kept by kind
      and offending value only. */
  datatype Exception =
    | FileNotFoundError(path: Path)
    | TypeError(expected: string, actual: string)
    | AttributeError(owner: string, attribute: string)
    | ValueError
    | EOFError
    | UnboundLocalError(name: string)

  /** A result or a raised exception. */
  datatype Outcome<+T> = Ok(value: T) | Raise(exc: Exception)

  /** A call that returns `None` or raises. */
  datatype Status = Done | Raised(exc: Exception)

  /** The filesystem as the core sees it, every call kept abstract:
      `resolve` is `Path(s).resolve()`, `existing` the paths for which
      `Path.exists()` holds, `dirs` those for which `is_dir()` holds,
      `dotted` those for which `match(r'*\.*')` holds and `listing` what
      `iterdir()` yields for a directory, in iteration order. */
  datatype Host = Host(
    resolve: string -> Path,
    existing: set<Path>,
    dirs: set<Path>,
    dotted: set<Path>,
    listing: Path -> seq<Path>)

  // ---------------------------------------------------------------------
  // str(n) for an int n, with its inverse

  function DigitChar(d: nat): (c: char)
    requires d < 10
    ensures '0' <= c <= '9'
    ensures c as int - '0' as int == d
  {
    "0123456789"[d]
  }

  function NatToString(n: nat): (s: string)
    ensures |s| >= 1
    ensures forall i :: 0 <= i < |s| ==> '0' <= s[i] <= '9'
    decreases n
  {
    if n < 10 then [DigitChar(n)] else NatToString(n / 10) + [DigitChar(n % 10)]
  }

  /** `str(i)` for an int: decimal digits, a leading '-' when negative. */
  function IntToString(i: int): string {
    if i < 0 then "-" + NatToString(-i) else NatToString(i)
  }

  predicate IsDigits(s: string) {
    forall i :: 0 <= i < |s| ==> '0' <= s[i] <= '9'
  }

  function ParseNat(s: string): nat
    requires IsDigits(s)
    decreases |s|
  {
    if s == [] then 0
    else ParseNat(s[..|s| - 1]) * 10 + (s[|s| - 1] as int - '0' as int)
  }

  /** The inverse of `IntToString`, reading an optional '-' and digits. */
  function ParseInt(s: string): Option<int> {
    if |s| >= 1 && s[0] == '-' && IsDigits(s[1..]) then Some(0 - ParseNat(s[1..]) as int)
    else if IsDigits(s) then Some(ParseNat(s))
    else None
  }

  lemma {:induction false} ParseNatToString(n: nat)
    ensures ParseNat(NatToString(n)) == n
    decreases n
  {
    var s := NatToString(n);
    if n >= 10 {
      ParseNatToString(n / 10);
      assert s[..|s| - 1] == NatToString(n / 10);
    }
  }

  /** `str` is injective on ints: reading the text back gives the number. */
  lemma IntToStringRoundTrip(i: int)
    ensures ParseInt(IntToString(i)) == Some(i)
  {
    if i < 0 {
      var n: nat := -i;
      ParseNegative(n);
      assert IntToString(i) == "-" + NatToString(n);
    } else {
      ParseNonNegative(i);
      assert IntToString(i) == NatToString(i);
    }
  }

  lemma ParseNegative(n: nat)
    ensures ParseInt("-" + NatToString(n)) == Some(-(n as int))
  {
    var digits := NatToString(n);
    ParseNatToString(n);
    var s := "-" + digits;
    assert s[0] == '-' && s[1..] == digits;
    assert IsDigits(digits);
  }

  lemma ParseNonNegative(n: nat)
    ensures ParseInt(NatToString(n)) == Some(n)
  {
    var digits := NatToString(n);
    ParseNatToString(n);
    assert digits[0] != '-' && IsDigits(digits);
  }

  lemma IntToStringInjective(a: int, b: int)
    ensures IntToString(a) == IntToString(b) <==> a == b
  {
    IntToStringRoundTrip(a);
    IntToStringRoundTrip(b);
  }

  // ---------------------------------------------------------------------
  // sep.join(parts)

  /** Python's `sep.join(parts)`. */
  function Join(parts: seq<string>, sep: string): string
    decreases |parts|
  {
    if |parts| == 0 then ""
    else if |parts| == 1 then parts[0]
    else parts[0] + sep + Join(parts[1..], sep)
  }
}
