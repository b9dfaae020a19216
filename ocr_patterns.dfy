/** The regular expressions of the text-extraction layer, and what
    Python's `re.search(pattern, text, re.IGNORECASE)` returns as group 1
    for each of them.

    Two shapes occur.  `Labeled(words, cls, lo, hi)` is
    `W1\s*W2…\s*Wn\s*[:\-]?\s*(C{lo,hi})`: label words separated by
    optional white space, an optional `:` or `-`, and a capture of `lo` to
    `hi` characters of class `C`.  `Prefixed(prefix, count)` is
    `(P\d{count})`: a literal prefix followed by exactly `count` digits,
    all captured. */
module OcrPatterns {
  import opened Wrappers
  import opened Strings

  datatype CharClass = Digits | IdChars

  datatype Pattern =
    | Labeled(words: seq<string>, cls: CharClass, lo: nat, hi: nat)
    | Prefixed(prefix: string, count: nat)

  /** Text character `c` matches the upper-case pattern letter `p` under
      `re.IGNORECASE`, which also folds the dotted and dotless i, the long s
      and the Kelvin sign. */
  predicate MatchesIgnoringCase(c: char, p: char) {
    c == p || c == LowerChar(p)
    || (p == 'I' && (c == '\U{130}' || c == '\U{131}'))
    || (p == 'S' && c == '\U{17F}')
    || (p == 'K' && c == '\U{212A}')
  }

  /** A character of the class: `\d`, or `[A-Z0-9\-]` under `re.IGNORECASE`. */
  predicate InClass(c: char, cls: CharClass) {
    match cls
    case Digits => IsDigit(c)
    case IdChars =>
      IsDigit(c) || c == '-' || 'A' <= c <= 'Z' || 'a' <= c <= 'z'
      || c == '\U{130}' || c == '\U{131}' || c == '\U{17F}' || c == '\U{212A}'
  }

  /** The length of the longest run of class characters starting at `i`. */
  function RunLen(t: string, i: nat, cls: CharClass): (n: nat)
    ensures n > 0 ==> i + n <= |t|
    ensures forall j | i <= j < i + n :: InClass(t[j], cls)
    ensures i + n < |t| ==> !InClass(t[i + n], cls)
    decreases |t| - i
  {
    if i < |t| && InClass(t[i], cls) then 1 + RunLen(t, i + 1, cls) else 0
  }

  /** The position after the white space starting at `i`: a greedy `\s*`. */
  function SkipSpace(t: string, i: nat): (j: nat)
    ensures i <= j
    ensures i <= |t| ==> j <= |t|
    decreases |t| - i
  {
    if i < |t| && IsSpace(t[i]) then SkipSpace(t, i + 1) else i
  }

  /** The word occurs at `i`, ignoring case. */
  predicate WordAt(t: string, w: string, i: nat) {
    i + |w| <= |t| && forall j | 0 <= j < |w| :: MatchesIgnoringCase(t[i + j], w[j])
  }

  /** `W1\s*W2…\s*Wn` matched at `i`: the position after the last word.
      The white space before a word is taken greedily, since a word starts
      with a letter. */
  function MatchWords(t: string, words: seq<string>, i: nat): (e: Option<nat>)
    requires i <= |t|
    ensures e.Some? ==> i <= e.value <= |t|
    decreases |words|
  {
    if words == [] then Some(i)
    else if !WordAt(t, words[0], i) then None
    else if |words| == 1 then Some(i + |words[0]|)
    else MatchWords(t, words[1..], SkipSpace(t, i + |words[0]|))
  }

  /** `(C{lo,hi})` at `start`: the greedy run, cut at `hi`, if it has `lo` characters. */
  function Capture(t: string, start: nat, cls: CharClass, lo: nat, hi: nat): Option<string>
    requires start <= |t|
  {
    var n := RunLen(t, start, cls);
    if n >= lo then Some(t[start .. start + if n < hi then n else hi]) else None
  }

  /** Group 1 of the pattern matched at position `i`, in the order Python's
      backtracking tries the alternatives: the white space after the label
      greedily, then the separator if there is one and the capture can start
      after it and its white space, else the capture right after the white
      space. */
  function MatchAt(t: string, p: Pattern, i: nat): Option<string>
    requires i <= |t|
  {
    match p
    case Labeled(words, cls, lo, hi) =>
      (match MatchWords(t, words, i)
       case None => None
       case Some(e) =>
         var q := SkipSpace(t, e);
         var r := SkipSpace(t, q + 1);
         if q < |t| && (t[q] == ':' || t[q] == '-') && RunLen(t, r, cls) >= lo
         then Capture(t, r, cls, lo, hi)
         else Capture(t, q, cls, lo, hi))
    case Prefixed(prefix, count) =>
      if WordAt(t, prefix, i) && RunLen(t, i + |prefix|, Digits) >= count
      then Some(t[i .. i + |prefix| + count])
      else None
  }

  /** The result at the first of the positions `i` to `last` where `m`
      gives one: `re.search` tries the start positions left to right. */
  function Leftmost(m: nat -> Option<string>, i: nat, last: nat): Option<string>
    decreases last + 1 - i
  {
    if i > last then None
    else if m(i).Some? then m(i)
    else Leftmost(m, i + 1, last)
  }

  /** The pattern tried at each start position of the text. */
  function MatcherOf(t: string, p: Pattern): nat -> Option<string> {
    (i: nat) => if i <= |t| then MatchAt(t, p, i) else None
  }

  /** `re.search(p, t, re.IGNORECASE)`, group 1. */
  function Search(t: string, p: Pattern): Option<string> {
    Leftmost(MatcherOf(t, p), 0, |t|)
  }

  /** Which pattern of a list won, and what it captured. */
  datatype Hit = Hit(index: nat, capture: string)

  /** The loop over a pattern list: the first pattern that matches anywhere. */
  function FirstMatch(t: string, ps: seq<Pattern>): (h: Option<Hit>)
    ensures h.Some? ==> h.value.index < |ps|
  {
    if ps == [] then None
    else if Search(t, ps[0]).Some? then Some(Hit(0, Search(t, ps[0]).value))
    else match FirstMatch(t, ps[1..])
      case None => None
      case Some(h) => Some(Hit(h.index + 1, h.capture))
  }

  // ---------------------------------------------------------------------
  // Search properties
  // ---------------------------------------------------------------------

  /** The search returns the result at the leftmost position that has one,
      and fails when no position has one. */
  lemma {:induction false} LeftmostIsFirst(m: nat -> Option<string>, i: nat, last: nat)
    ensures Leftmost(m, i, last).None? <==> forall j | i <= j <= last :: m(j).None?
    ensures Leftmost(m, i, last).Some? ==>
              exists j :: i <= j <= last && Leftmost(m, i, last) == m(j)
                && forall k | i <= k < j :: m(k).None?
    decreases last + 1 - i
  {
    if i <= last && m(i).None? {
      LeftmostIsFirst(m, i + 1, last);
      if Leftmost(m, i + 1, last).Some? {
        var j :| i + 1 <= j <= last && Leftmost(m, i + 1, last) == m(j)
                 && forall k | i + 1 <= k < j :: m(k).None?;
        assert forall k | i <= k < j :: m(k).None?;
      }
    }
  }

  /** A search result is what the pattern captures at some position. */
  lemma SearchFindsAMatch(t: string, p: Pattern)
    ensures Search(t, p).Some? ==> exists j :: 0 <= j <= |t| && Search(t, p) == MatchAt(t, p, j)
  {
    LeftmostIsFirst(MatcherOf(t, p), 0, |t|);
  }

  /** The winner is the first pattern in list order that matches anywhere,
      whatever the positions of the matches; there is none when no pattern
      matches. */
  lemma {:induction false} FirstMatchIsFirst(t: string, ps: seq<Pattern>)
    ensures FirstMatch(t, ps).None? <==> forall k | 0 <= k < |ps| :: Search(t, ps[k]).None?
    ensures FirstMatch(t, ps).Some? ==>
              Search(t, ps[FirstMatch(t, ps).value.index]) == Some(FirstMatch(t, ps).value.capture)
              && forall k | 0 <= k < FirstMatch(t, ps).value.index :: Search(t, ps[k]).None?
  {
    if ps != [] && Search(t, ps[0]).None? {
      FirstMatchIsFirst(t, ps[1..]);
      assert forall k | 1 <= k < |ps| :: ps[k] == ps[1..][k - 1];
    }
  }

  /** What a labeled pattern captures: `lo` to `hi` characters of its class,
      taken from the text greedily: the capture is cut at `hi`, or the text
      ends after it, or the next character is not in the class. */
  predicate LabeledCapture(t: string, cls: CharClass, lo: nat, hi: nat, c: string) {
    && lo <= |c| <= hi
    && (forall j | 0 <= j < |c| :: InClass(c[j], cls))
    && exists s :: 0 <= s <= |t| && OccursAt(t, c, s) && (|c| == hi || s + |c| == |t| || !InClass(t[s + |c|], cls))
  }

  lemma CaptureShape(t: string, start: nat, cls: CharClass, lo: nat, hi: nat)
    requires start <= |t| && lo <= hi
    ensures Capture(t, start, cls, lo, hi).Some? ==> LabeledCapture(t, cls, lo, hi, Capture(t, start, cls, lo, hi).value)
  {
    var n := RunLen(t, start, cls);
    if n >= lo {
      var m := if n < hi then n else hi;
      var c := t[start .. start + m];
      assert OccursAt(t, c, start);
      assert forall j | 0 <= j < |c| :: c[j] == t[start + j];
      assert |c| == hi || start + |c| == |t| || !InClass(t[start + |c|], cls);
    }
  }

  lemma MatchAtShape(t: string, p: Pattern, i: nat)
    requires p.Labeled? && p.lo <= p.hi && i <= |t|
    ensures MatchAt(t, p, i).Some? ==> LabeledCapture(t, p.cls, p.lo, p.hi, MatchAt(t, p, i).value)
  {
    if MatchWords(t, p.words, i).Some? {
      var q := SkipSpace(t, MatchWords(t, p.words, i).value);
      if q < |t| {
        CaptureShape(t, SkipSpace(t, q + 1), p.cls, p.lo, p.hi);
      }
      CaptureShape(t, q, p.cls, p.lo, p.hi);
    }
  }

  /** A labeled pattern finds `lo` to `hi` class characters of the text,
      as many as follow, up to `hi`. */
  lemma SearchShape(t: string, p: Pattern)
    requires p.Labeled? && p.lo <= p.hi
    ensures Search(t, p).Some? ==> LabeledCapture(t, p.cls, p.lo, p.hi, Search(t, p).value)
  {
    SearchFindsAMatch(t, p);
    if Search(t, p).Some? {
      var j :| 0 <= j <= |t| && Search(t, p) == MatchAt(t, p, j);
      MatchAtShape(t, p, j);
    }
  }

  /** `(P\d{n})` captures the prefix, ignoring case, and `n` digits. */
  predicate PrefixedCapture(t: string, prefix: string, count: nat, c: string) {
    && |c| == |prefix| + count
    && WordAt(c, prefix, 0)
    && (forall j | |prefix| <= j < |c| :: IsDigit(c[j]))
    && Contains(t, c)
  }

  lemma PrefixedMatchShape(t: string, p: Pattern, i: nat)
    requires p.Prefixed? && i <= |t|
    ensures MatchAt(t, p, i).Some? ==> PrefixedCapture(t, p.prefix, p.count, MatchAt(t, p, i).value)
  {
    if MatchAt(t, p, i).Some? {
      var c := t[i .. i + |p.prefix| + p.count];
      assert OccursAt(t, c, i);
      assert forall k | 0 <= k < |c| :: c[k] == t[i + k];
    }
  }

  lemma PrefixedSearchShape(t: string, p: Pattern)
    requires p.Prefixed?
    ensures Search(t, p).Some? ==> PrefixedCapture(t, p.prefix, p.count, Search(t, p).value)
  {
    SearchFindsAMatch(t, p);
    if Search(t, p).Some? {
      var j :| 0 <= j <= |t| && Search(t, p) == MatchAt(t, p, j);
      PrefixedMatchShape(t, p, j);
    }
  }
}
