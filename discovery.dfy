/** `_discover_paths`: the base directory's listing, kept in iteration
    order, filtered to directories and to entries that do not match the
    pattern `*\.*`. The filesystem questions (`is_dir`, `match`) are kept
    abstract as sets of paths. */
module Discovery {
  import opened Values

  /** The entries of `s` that are in `keep` (`keepIn`) or not in it
      (`!keepIn`), in their original order. */
  function Filter(s: seq<Path>, keep: set<Path>, keepIn: bool): (r: seq<Path>)
    ensures |r| <= |s|
    ensures forall x :: x in r <==> x in s && ((x in keep) == keepIn)
    decreases |s|
  {
    if s == [] then []
    else (if (s[0] in keep) == keepIn then [s[0]] else []) + Filter(s[1..], keep, keepIn)
  }

  /** `r` is `s` with some entries left out, the rest in the same order. */
  predicate IsSubsequence(r: seq<Path>, s: seq<Path>)
    decreases |s|
  {
    r == [] ||
    (s != [] && ((r[0] == s[0] && IsSubsequence(r[1..], s[1..])) || IsSubsequence(r, s[1..])))
  }

  /** The listing after the two optional filters, in the order the source
      applies them. */
  function Discover(listing: seq<Path>, directoryOnly: bool, excludeHidden: bool, h: Host): seq<Path> {
    var afterDirs := if directoryOnly then Filter(listing, h.dirs, true) else listing;
    if excludeHidden then Filter(afterDirs, h.dotted, false) else afterDirs
  }

  lemma {:induction false} FilterIsSubsequence(s: seq<Path>, keep: set<Path>, keepIn: bool)
    ensures IsSubsequence(Filter(s, keep, keepIn), s)
    decreases |s|
  {
    if s != [] {
      FilterIsSubsequence(s[1..], keep, keepIn);
      var rest := Filter(s[1..], keep, keepIn);
      if (s[0] in keep) == keepIn {
        assert Filter(s, keep, keepIn) == [s[0]] + rest;
        assert ([s[0]] + rest)[1..] == rest;
      } else {
        assert Filter(s, keep, keepIn) == rest;
      }
    }
  }

  /** Filtering distributes over concatenation: the order of entries is kept. */
  lemma {:induction false} FilterAppend(a: seq<Path>, b: seq<Path>, keep: set<Path>, keepIn: bool)
    ensures Filter(a + b, keep, keepIn) == Filter(a, keep, keepIn) + Filter(b, keep, keepIn)
    decreases |a|
  {
    if a == [] {
      assert a + b == b;
    } else {
      assert (a + b)[1..] == a[1..] + b;
      FilterAppend(a[1..], b, keep, keepIn);
    }
  }

  /** The two filters commute, so the order the source applies them in does
      not matter. */
  lemma {:induction false} FiltersCommute(s: seq<Path>, dirs: set<Path>, dotted: set<Path>)
    ensures Filter(Filter(s, dirs, true), dotted, false) == Filter(Filter(s, dotted, false), dirs, true)
    decreases |s|
  {
    if s != [] {
      FiltersCommute(s[1..], dirs, dotted);
      var x := s[0];
      FilterAppend(if x in dirs then [x] else [], Filter(s[1..], dirs, true), dotted, false);
      FilterAppend(if x !in dotted then [x] else [], Filter(s[1..], dotted, false), dirs, true);
      assert Filter([x], dotted, false) == if x !in dotted then [x] else [];
      assert Filter([x], dirs, true) == if x in dirs then [x] else [];
    }
  }

  /** What discovery keeps: exactly the listed entries that pass both
      requested filters, in listing order. */
  lemma DiscoverKeeps(listing: seq<Path>, directoryOnly: bool, excludeHidden: bool, h: Host)
    ensures var r := Discover(listing, directoryOnly, excludeHidden, h);
      && IsSubsequence(r, listing)
      && forall x :: x in r <==> x in listing && (directoryOnly ==> x in h.dirs) && (excludeHidden ==> x !in h.dotted)
  {
    var afterDirs := if directoryOnly then Filter(listing, h.dirs, true) else listing;
    if directoryOnly {
      FilterIsSubsequence(listing, h.dirs, true);
    } else {
      SubsequenceRefl(listing);
    }
    if excludeHidden {
      FilterIsSubsequence(afterDirs, h.dotted, false);
      SubsequenceTrans(Filter(afterDirs, h.dotted, false), afterDirs, listing);
    }
  }

  lemma {:induction false} SubsequenceRefl(s: seq<Path>)
    ensures IsSubsequence(s, s)
    decreases |s|
  {
    if s != [] {
      SubsequenceRefl(s[1..]);
    }
  }

  lemma {:induction false} SubsequenceTrans(a: seq<Path>, b: seq<Path>, c: seq<Path>)
    requires IsSubsequence(a, b) && IsSubsequence(b, c)
    ensures IsSubsequence(a, c)
    decreases |c|
  {
    if a != [] {
      assert b != [] && c != [];
      if IsSubsequence(b, c[1..]) {
        SubsequenceTrans(a, b, c[1..]);
      } else if a[0] == b[0] && IsSubsequence(a[1..], b[1..]) {
        SubsequenceTrans(a[1..], b[1..], c[1..]);
      } else {
        SubsequenceTrans(a, b[1..], c[1..]);
      }
    }
  }
}
