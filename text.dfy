/**
 * The string operations of Python that the pipeline relies on, restricted to
 * ASCII text: `lower`/`upper`/`title`, `strip`, `split`, `join`, the `in`
 * substring test, the regular expressions `TAG(\d+)` and `tag[-_]?(\d+)`,
 * and `str()` of integers and of two-decimal floats.
 */
module Text {
  import opened Common

  // ---------------------------------------------------------------- case

  predicate IsUpper(c: char) { 'A' <= c <= 'Z' }

  predicate IsLower(c: char) { 'a' <= c <= 'z' }

  predicate IsLetter(c: char) { IsUpper(c) || IsLower(c) }

  function LowerChar(c: char): char
  {
    if IsUpper(c) then (c as int + 32) as char else c
  }

  function UpperChar(c: char): char
  {
    if IsLower(c) then (c as int - 32) as char else c
  }

  /** `s.lower()` for ASCII text. */
  function Lower(s: string): string
  {
    seq(|s|, i requires 0 <= i < |s| => LowerChar(s[i]))
  }

  /** `s.upper()` for ASCII text. */
  function Upper(s: string): string
  {
    seq(|s|, i requires 0 <= i < |s| => UpperChar(s[i]))
  }

  /** Upper-casing forgets whatever lower-casing did. */
  lemma UpperOfLower(s: string)
    ensures Upper(Lower(s)) == Upper(s)
  {
  }

  /** `s.title()` for ASCII text: a letter is upper-cased when the character before it is not a letter, lower-cased otherwise. */
  function Title(s: string): string
  {
    TitleAfter(s, false)
  }

  function TitleAfter(s: string, afterLetter: bool): string
    decreases |s|
  {
    if s == [] then []
    else
      var c := if afterLetter then LowerChar(s[0]) else UpperChar(s[0]);
      [c] + TitleAfter(s[1..], IsLetter(s[0]))
  }

  // -------------------------------------------------------------- digits

  predicate IsDigit(c: char) { '0' <= c <= '9' }

  predicate AllDigits(s: string) { forall i :: 0 <= i < |s| ==> IsDigit(s[i]) }

  /** The longest prefix of `s` made of digits, which is what `\d+` consumes. */
  function DigitRun(s: string): (r: string)
    ensures |r| <= |s| && r == s[..|r|]
    ensures AllDigits(r)
    ensures |r| == |s| || !IsDigit(s[|r|])
    decreases |s|
  {
    if |s| > 0 && IsDigit(s[0]) then [s[0]] + DigitRun(s[1..]) else ""
  }

  lemma {:induction false} DigitRunOfDigits(s: string, rest: string)
    requires AllDigits(s)
    requires rest == [] || !IsDigit(rest[0])
    ensures DigitRun(s + rest) == s
    decreases |s|
  {
    if s == [] {
      assert s + rest == rest;
    } else {
      assert (s + rest)[1..] == s[1..] + rest;
      DigitRunOfDigits(s[1..], rest);
    }
  }

  lemma LowerOfDigits(s: string)
    requires AllDigits(s)
    ensures Lower(s) == s
  {
  }

  // ---------------------------------------------------------- whitespace

  /** The ASCII characters for which Python's `str.isspace()` holds. */
  predicate IsSpace(c: char)
  {
    c == ' ' || '\t' <= c <= '\r' || '\U{1C}' <= c <= '\U{1F}'
  }

  predicate AllSpace(s: string) { forall i :: 0 <= i < |s| ==> IsSpace(s[i]) }

  /** Neither end of `s` is whitespace (vacuously so for the empty string). */
  predicate Trimmed(s: string)
  {
    s == [] || (!IsSpace(s[0]) && !IsSpace(s[|s| - 1]))
  }

  /** `s.strip()`: drops whitespace from either end until neither end is whitespace. */
  function Strip(s: string): (r: string)
    ensures Trimmed(r)
    decreases |s|
  {
    if |s| > 0 && IsSpace(s[0]) then Strip(s[1..])
    else if |s| > 0 && IsSpace(s[|s| - 1]) then Strip(s[..|s| - 1])
    else s
  }

  /** Stripping removes exactly the whitespace padding around a text that neither starts nor ends with whitespace. */
  lemma {:induction false} StripPadded(a: string, b: string, c: string)
    requires AllSpace(a) && AllSpace(c)
    requires b != [] && Trimmed(b)
    ensures Strip(a + b + c) == b
    decreases |a| + |c|
  {
    var s := a + b + c;
    if a != [] {
      assert s[0] == a[0];
      assert s[1..] == a[1..] + b + c;
      StripPadded(a[1..], b, c);
    } else if c != [] {
      assert s == b + c;
      assert s[|s| - 1] == c[|c| - 1];
      assert s[..|s| - 1] == a + b + c[..|c| - 1];
      StripPadded(a, b, c[..|c| - 1]);
    } else {
      assert s == b;
    }
  }

  // ------------------------------------------------------ split and join

  /** `sep.join(parts)`. */
  function Join(parts: seq<string>, sep: string): string
    decreases |parts|
  {
    if |parts| == 0 then ""
    else if |parts| == 1 then parts[0]
    else parts[0] + sep + Join(parts[1..], sep)
  }

  /** The index of the first `c` in `s`. */
  function IndexOfChar(s: string, c: char): (i: nat)
    requires c in s
    ensures i < |s| && s[i] == c && c !in s[..i]
  {
    if s[0] == c then 0 else IndexOfChar(s[1..], c) + 1
  }

  /** `s.split(c)` for a one-character separator: never empty, one part more than there are separators. */
  function Split(s: string, c: char): (parts: seq<string>)
    ensures |parts| >= 1
    decreases |s|
  {
    if c !in s then [s]
    else
      var i := IndexOfChar(s, c);
      [s[..i]] + Split(s[i + 1..], c)
  }

  // ---------------------------------------------------- substring search

  /** `p` occurs in `s` starting at index j. */
  predicate OccursAt(s: string, p: string, j: int)
  {
    0 <= j && j + |p| <= |s| && s[j..j + |p|] == p
  }

  /** The index of the first occurrence of `p` in `s`, if any. */
  function FirstOccurrence(s: string, p: string): (r: Option<nat>)
    ensures r.Some? ==> OccursAt(s, p, r.value)
    ensures r.Some? ==> forall j :: 0 <= j < r.value ==> !OccursAt(s, p, j)
    ensures r.None? ==> forall j :: !OccursAt(s, p, j)
    decreases |s|
  {
    if |s| < |p| then None
    else if s[..|p|] == p then Some(0)
    else match FirstOccurrence(s[1..], p)
      case None =>
        assert forall j :: OccursAt(s, p, j) && j >= 1 ==> OccursAt(s[1..], p, j - 1);
        None
      case Some(i) =>
        assert forall j :: OccursAt(s, p, j) && j >= 1 ==> OccursAt(s[1..], p, j - 1);
        assert s[i + 1..i + 1 + |p|] == s[1..][i..i + |p|];
        Some(i + 1)
  }

  /** One differing character rules out an occurrence. */
  lemma MismatchAt(s: string, p: string, j: int, t: int)
    requires 0 <= j <= t < j + |p| && t < |s| && s[t] != p[t - j]
    ensures !OccursAt(s, p, j)
  {
    if j + |p| <= |s| {
      assert s[j..j + |p|][t - j] == s[t];
    }
  }

  /** An occurrence that lies wholly inside the front part of a text is one of the front part. */
  lemma OccursInFront(a: string, b: string, p: string, j: int)
    requires 0 <= j && j + |p| <= |a|
    ensures OccursAt(a + b, p, j) <==> OccursAt(a, p, j)
  {
    assert (a + b)[j..j + |p|] == a[j..j + |p|];
  }

  /** An occurrence that starts in the back part of a text is one of the back part. */
  lemma OccursInBack(a: string, b: string, p: string, j: int)
    requires j >= |a|
    ensures OccursAt(a + b, p, j) <==> OccursAt(b, p, j - |a|)
  {
    if j + |p| <= |a + b| {
      assert (a + b)[j..j + |p|] == b[j - |a|..j - |a| + |p|];
    }
  }

  /** Regrouping a concatenation, stated once so that proofs can ask for it by name. */
  lemma ConcatAssoc<T>(x: seq<T>, y: seq<T>, z: seq<T>)
    ensures x + (y + z) == (x + y) + z
  {
  }

  /** Text that starts a string still starts it after more is appended. */
  lemma PrefixGrows(p: string, s: string, t: string)
    requires |p| <= |s| && s[..|p|] == p
    ensures |p| <= |s + t| && (s + t)[..|p|] == p
  {
    assert (s + t)[..|p|] == s[..|p|];
  }

  /** Python's `p in s`. */
  predicate Contains(s: string, p: string)
  {
    FirstOccurrence(s, p).Some?
  }

  lemma ContainsAt(s: string, p: string, j: int)
    requires OccursAt(s, p, j)
    ensures Contains(s, p)
  {
  }
  /** The middle of a concatenation occurs in it. */
  lemma ContainsMiddle(a: string, b: string, c: string)
    ensures Contains(a + b + c, b)
  {
    assert (a + b + c)[|a|..|a| + |b|] == b;
    ContainsAt(a + b + c, b, |a|);
  }

  /** `s.split(p)[-1]`: what follows the last separator found by a left-to-right scan. */
  function LastPiece(s: string, p: string): string
    requires p != []
    decreases |s|
  {
    match FirstOccurrence(s, p)
    case None => s
    case Some(i) => LastPiece(s[i + |p|..], p)
  }

  /** Splitting off the last part of a join. */
  lemma {:induction false} JoinSnoc(parts: seq<string>, sep: string)
    requires |parts| >= 2
    ensures Join(parts, sep) == Join(parts[..|parts| - 1], sep) + sep + parts[|parts| - 1]
    decreases |parts|
  {
    var n := |parts|;
    if n > 2 {
      JoinSnoc(parts[1..], sep);
      assert parts[1..][..n - 2] == parts[..n - 1][1..];
    } else {
      assert parts[..1] == [parts[0]];
    }
  }

  /** A join starts with the first part's first character and ends with the last part's last. */
  lemma JoinEnds(parts: seq<string>, sep: string)
    requires |parts| > 0 && parts[0] != [] && parts[|parts| - 1] != []
    ensures var j := Join(parts, sep);
            |j| > 0 && j[0] == parts[0][0] && j[|j| - 1] == parts[|parts| - 1][|parts[|parts| - 1]| - 1]
  {
    if |parts| >= 2 {
      JoinSnoc(parts, sep);
    }
  }

  /** `s.split(c)` on a text without `c` is the text alone. */
  lemma SplitNone(s: string, c: char)
    requires c !in s
    ensures Split(s, c) == [s]
  {
  }

  /** The first separator splits off the first part. */
  lemma SplitAtFirst(a: string, c: char, b: string)
    requires c !in a
    ensures Split(a + [c] + b, c) == [a] + Split(b, c)
  {
    var s := a + [c] + b;
    assert s[|a|] == c;
    var i := IndexOfChar(s, c);
    assert s[..i] == a && s[i + 1..] == b;
  }

  lemma OccursShifted(s: string, p: string, off: nat, j: int)
    requires off <= |s| && OccursAt(s[off..], p, j)
    ensures OccursAt(s, p, j + off)
  {
    assert s[off..][j..j + |p|] == s[j + off..j + off + |p|];
  }

  /** An occurrence at k means the first occurrence exists and is at k or before. */
  lemma FirstOccurrenceNoLater(s: string, p: string, k: int)
    requires OccursAt(s, p, k)
    ensures FirstOccurrence(s, p).Some? && FirstOccurrence(s, p).value <= k
  {
  }

  /** The premises of LastPieceAfter carry over to a suffix that starts before the occurrence. */
  lemma ShiftedPremises(s: string, p: string, k: nat, off: nat, rest: string)
    requires off <= k && OccursAt(s, p, k) && rest == s[off..]
    requires forall j :: 0 <= j < k && j + |p| > k ==> !OccursAt(s, p, j)
    requires forall j :: j > k ==> !OccursAt(s, p, j)
    ensures OccursAt(rest, p, k - off)
    ensures forall j :: 0 <= j < k - off && j + |p| > k - off ==> !OccursAt(rest, p, j)
    ensures forall j :: j > k - off ==> !OccursAt(rest, p, j)
  {
    assert rest[k - off..k - off + |p|] == s[k..k + |p|];
    forall j | 0 <= j
      ensures OccursAt(rest, p, j) ==> OccursAt(s, p, j + off)
    {
      if OccursAt(rest, p, j) {
        OccursShifted(s, p, off, j);
      }
    }
  }

  /** `s.split(p)[-1]` is the last piece of what follows the first occurrence. */
  lemma LastPieceStep(s: string, p: string, i: nat, t: string)
    requires p != [] && FirstOccurrence(s, p) == Some(i)
    requires i + |p| <= |s| && LastPiece(s[i + |p|..], p) == t
    ensures LastPiece(s, p) == t
  {
  }

  /** Without an occurrence, `s.split(p)[-1]` is `s` itself. */
  lemma LastPieceWhole(s: string, p: string)
    requires p != [] && forall j :: !OccursAt(s, p, j)
    ensures LastPiece(s, p) == s
  {
  }

  /** The first occurrence of `p`, when it is not at k, ends at or before k. */
  lemma FirstEndsBefore(s: string, p: string, k: nat, i: nat)
    requires OccursAt(s, p, i) && i < k
    requires forall j :: 0 <= j < k && j + |p| > k ==> !OccursAt(s, p, j)
    ensures i + |p| <= k
  {
  }

  /** After the last occurrence nothing of `p` occurs any more. */
  lemma NothingAfterLast(s: string, p: string, k: nat, rest: string)
    requires p != [] && k + |p| <= |s| && rest == s[k + |p|..]
    requires forall j :: j > k ==> !OccursAt(s, p, j)
    ensures forall j :: !OccursAt(rest, p, j)
  {
    forall j
      ensures !OccursAt(rest, p, j)
    {
      if OccursAt(rest, p, j) {
        OccursShifted(s, p, k + |p|, j);
      }
    }
  }

  /**
   * `s.split(p)[-1]` is what follows the occurrence of `p` at k when no
   * occurrence overlaps the start of that one and none begins after it.
   */
  lemma {:induction false} LastPieceAfter(s: string, p: string, k: nat)
    requires p != [] && OccursAt(s, p, k)
    requires forall j :: 0 <= j < k && j + |p| > k ==> !OccursAt(s, p, j)
    requires forall j :: j > k ==> !OccursAt(s, p, j)
    ensures LastPiece(s, p) == s[k + |p|..]
    decreases |s|, 1
  {
    FirstOccurrenceNoLater(s, p, k);
    var i := FirstOccurrence(s, p).value;
    if i == k {
      LastPieceAtLast(s, p, k);
    } else {
      FirstEndsBefore(s, p, k, i);
      var rest := s[i + |p|..];
      ShiftedPremises(s, p, k, i + |p|, rest);
      LastPieceAfterEarlier(s, p, k, i, rest);
    }
  }

  /** The first occurrence is the last one: what follows it is the last piece. */
  lemma LastPieceAtLast(s: string, p: string, k: nat)
    requires p != [] && OccursAt(s, p, k) && FirstOccurrence(s, p) == Some(k)
    requires forall j :: j > k ==> !OccursAt(s, p, j)
    ensures LastPiece(s, p) == s[k + |p|..]
  {
    var rest := s[k + |p|..];
    NothingAfterLast(s, p, k, rest);
    LastPieceWhole(rest, p);
    LastPieceStep(s, p, k, s[k + |p|..]);
  }

  /**
   * An earlier first occurrence, ending at or before k: the last piece is
   * that of the text after it, where the premises hold shifted.
   */
  lemma {:induction false} LastPieceAfterEarlier(s: string, p: string, k: nat, i: nat, rest: string)
    requires p != [] && FirstOccurrence(s, p) == Some(i) && i + |p| <= k
    requires rest == s[i + |p|..] && OccursAt(rest, p, k - i - |p|)
    requires forall j :: 0 <= j < k - i - |p| && j + |p| > k - i - |p| ==> !OccursAt(rest, p, j)
    requires forall j :: j > k - i - |p| ==> !OccursAt(rest, p, j)
    ensures k + |p| <= |s| && LastPiece(s, p) == s[k + |p|..]
    decreases |s|, 0
  {
    var off := i + |p|;
    LastPieceAfter(rest, p, k - off);
    assert rest[k - off + |p|..] == s[k + |p|..];
    LastPieceStep(s, p, i, s[k + |p|..]);
  }

  // ------------------------------------------------- regular expressions

  /**
   * The digits captured when `tag[-_]?(\d+)` (with `optionalSep`) or
   * `tag(\d+)` (without) matches at position i of s: the separator is taken
   * only when a digit follows it, and `\d+` is greedy.
   */
  function TagDigitsAt(s: string, i: nat, tag: string, optionalSep: bool): (r: Option<string>)
    requires i <= |s|
    ensures r.Some? ==> r.value != [] && AllDigits(r.value)
  {
    var j := i + |tag|;
    if !(j <= |s| && s[i..j] == tag) then None
    else if optionalSep && j + 1 < |s| && (s[j] == '-' || s[j] == '_') && IsDigit(s[j + 1]) then
      Some(DigitRun(s[j + 1..]))
    else if j < |s| && IsDigit(s[j]) then Some(DigitRun(s[j..]))
    else None
  }

  /** The leftmost position, from `from` on, where the pattern matches. */
  function FirstTagMatch(s: string, tag: string, optionalSep: bool, from: nat): (r: Option<nat>)
    requires from <= |s|
    ensures r.Some? ==> from <= r.value <= |s| && TagDigitsAt(s, r.value, tag, optionalSep).Some?
    ensures r.Some? ==> forall k :: from <= k < r.value ==> TagDigitsAt(s, k, tag, optionalSep).None?
    ensures r.None? ==> forall k :: from <= k <= |s| ==> TagDigitsAt(s, k, tag, optionalSep).None?
    decreases |s| - from
  {
    if TagDigitsAt(s, from, tag, optionalSep).Some? then Some(from)
    else if from == |s| then None
    else FirstTagMatch(s, tag, optionalSep, from + 1)
  }

  /** `re.search`: the digits captured at the leftmost position where the pattern matches. */
  function SearchTagged(s: string, tag: string, optionalSep: bool): Option<string>
  {
    match FirstTagMatch(s, tag, optionalSep, 0)
    case None => None
    case Some(i) => TagDigitsAt(s, i, tag, optionalSep)
  }

  // -------------------------------------------------------- number text

  function DigitChar(d: nat): char
    requires d < 10
  {
    ('0' as int + d) as char
  }

  /** `str(n)` for a natural number. */
  function NatText(n: nat): (r: string)
    ensures r != [] && AllDigits(r)
  {
    if n < 10 then [DigitChar(n)] else NatText(n / 10) + [DigitChar(n % 10)]
  }

  /** `str(i)` for an int. */
  function IntText(i: int): string
  {
    if i < 0 then "-" + NatText(-i) else NatText(i)
  }

  /**
   * `str(x)` for the float x = cents / 100 (a value with at most two
   * decimals, as the data rounds them): the shortest decimal that reads back
   * as x, with at least one digit after the point.
   */
  function CentsText(cents: int): string
  {
    var m := if cents < 0 then -cents else cents;
    var sign := if cents < 0 then "-" else "";
    var frac := m % 100;
    var fracText :=
      if frac == 0 then "0"
      else if frac % 10 == 0 then [DigitChar(frac / 10)]
      else [DigitChar(frac / 10), DigitChar(frac % 10)];
    sign + NatText(m / 100) + "." + fracText
  }
}
