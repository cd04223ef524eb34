/** `VALID_OPTIONS` and `_convert_valid_options_to_string`: the options are
    turned into their `str` forms and listed as "a or b", or as
    "a, b, ..., or z". */
module ValidOptions {
  import opened Values

  /** An entry of `VALID_OPTIONS`: the class default holds ints, after
      conversion it holds strings. */
  datatype OptionItem = IntOption(n: int) | StrOption(s: string)

  /** The class default `VALID_OPTIONS = (1, 2)`. */
  const DEFAULT_OPTIONS: seq<OptionItem> := [IntOption(1), IntOption(2)]

  /** `str(option)`. */
  function StrOf(o: OptionItem): string {
    match o
    case IntOption(n) => IntToString(n)
    case StrOption(s) => s
  }

  /** `tuple(map(str, options))`: same length, same order, every entry the
      `str` of the entry it replaces. */
  function Stringified(opts: seq<OptionItem>): (r: seq<OptionItem>)
    ensures |r| == |opts|
    ensures forall i :: 0 <= i < |r| ==> r[i] == StrOption(StrOf(opts[i]))
    decreases |opts|
  {
    if opts == [] then [] else [StrOption(StrOf(opts[0]))] + Stringified(opts[1..])
  }

  /** The texts `'%s' % option` shows for each option. */
  function Texts(opts: seq<OptionItem>): (r: seq<string>)
    ensures |r| == |opts|
  {
    seq(|opts|, i requires 0 <= i < |opts| => StrOf(opts[i]))
  }

  /** The listing text for a non-empty tuple of option texts: "a or b" for
      two, otherwise the leading ones joined by ", " and then ", or " and
      the last one (so a single option reads ", or a"). */
  function FormatOptions(texts: seq<string>): string
    requires |texts| >= 1
  {
    if |texts| == 2 then texts[0] + " or " + texts[1]
    else Join(texts[..|texts| - 1], ", ") + ", or " + texts[|texts| - 1]
  }

  /** Converting an already converted tuple changes nothing, so calling the
      converter on every prompt is harmless. */
  lemma StringifiedIdempotent(opts: seq<OptionItem>)
    ensures Stringified(Stringified(opts)) == Stringified(opts)
  {
    var once := Stringified(opts);
    assert forall i :: 0 <= i < |once| ==> StrOf(once[i]) == StrOf(opts[i]);
  }

  /** After conversion, the answer text `x` is a valid option exactly when
      it is the `str` of one of the original options. */
  lemma StringifiedMembership(opts: seq<OptionItem>, x: string)
    ensures StrOption(x) in Stringified(opts) <==> exists i :: 0 <= i < |opts| && StrOf(opts[i]) == x
  {
    var r := Stringified(opts);
    if StrOption(x) in r {
      var i :| 0 <= i < |r| && r[i] == StrOption(x);
      assert StrOf(opts[i]) == x;
    }
    if exists i :: 0 <= i < |opts| && StrOf(opts[i]) == x {
      var i :| 0 <= i < |opts| && StrOf(opts[i]) == x;
      assert r[i] == StrOption(x);
    }
  }

  /** The answer `str(n)` (such as "1" or "2") is valid after conversion
      exactly when the original tuple held the int `n` or that text. */
  lemma NumberAnswerValid(opts: seq<OptionItem>, n: int)
    ensures StrOption(IntToString(n)) in Stringified(opts) <==>
            IntOption(n) in opts || StrOption(IntToString(n)) in opts
  {
    var x := IntToString(n);
    StringifiedMembership(opts, x);
    forall o: OptionItem
      ensures StrOf(o) == x <==> o == IntOption(n) || o == StrOption(x)
    {
      if o.IntOption? {
        IntToStringInjective(o.n, n);
      }
    }
  }

  /** With the class default the options become ("1", "2") and the listing
      reads "1 or 2". */
  lemma DefaultListing()
    ensures Stringified(DEFAULT_OPTIONS) == [StrOption("1"), StrOption("2")]
    ensures FormatOptions(Texts(Stringified(DEFAULT_OPTIONS))) == "1 or 2"
  {
    assert IntToString(1) == "1";
    assert IntToString(2) == "2";
    var texts := Texts(Stringified(DEFAULT_OPTIONS));
    assert texts == ["1", "2"];
  }

  /** Three options read with a serial comma: "a, b, or c". A single option
      reads ", or a". */
  lemma FormatShortLists(a: string, b: string, c: string)
    ensures FormatOptions([a]) == ", or " + a
    ensures FormatOptions([a, b]) == a + " or " + b
    ensures FormatOptions([a, b, c]) == a + ", " + b + ", or " + c
  {
    assert [a, b, c][..2] == [a, b];
    assert [a, b][1..] == [b];
    assert Join([a, b], ", ") == a + ", " + b;
  }

  /** From four options on, the listing is the first option, ", ", and the
      listing of the rest; it does not hold at three, where the rest would
      be listed as "b or c". */
  lemma {:induction false} FormatCons(texts: seq<string>)
    requires |texts| >= 4
    ensures FormatOptions(texts) == texts[0] + ", " + FormatOptions(texts[1..])
  {
    var n := |texts|;
    var lead := texts[..n - 1];
    assert lead[1..] == texts[1..][..n - 2];
    assert texts[1..][n - 2] == texts[n - 1];
    calc {
      FormatOptions(texts);
      Join(lead, ", ") + ", or " + texts[n - 1];
      (lead[0] + ", " + Join(lead[1..], ", ")) + ", or " + texts[n - 1];
      texts[0] + ", " + (Join(texts[1..][..n - 2], ", ") + ", or " + texts[1..][n - 2]);
      texts[0] + ", " + FormatOptions(texts[1..]);
    }
  }
}
