/**
 * String helpers the core takes from the Swift standard library and Foundation:
 * trimming, prefix tests, line splitting and joining, ASCII lower-casing,
 * decimal digits and integer printing, and the lexicographic order of `String`.
 * Strings are sequences of Unicode scalars (`seq<char>`).
 */
module Text {
  import opened Wrappers

  // ---------------------------------------------------------------------------
  // Character classes

  /** `CharacterSet.newlines`: U+000A to U+000D, U+0085, U+2028 and U+2029. */
  predicate IsNewline(c: char) {
    '\n' <= c <= '\r' || c == '\U{85}' || c == '\U{2028}' || c == '\U{2029}'
  }

  /**
   * `CharacterSet.whitespacesAndNewlines`: the Unicode space separators (Zs),
   * the line and paragraph separators, CHARACTER TABULATION and the newlines.
   */
  predicate IsWhitespaceOrNewline(c: char) {
    c == ' ' || c == '\t' || IsNewline(c) || c == '\U{A0}' || c == '\U{1680}' ||
    ('\U{2000}' <= c <= '\U{200A}') || c == '\U{202F}' || c == '\U{205F}' || c == '\U{3000}'
  }

  predicate IsLineFeed(c: char) { c == '\n' }

  predicate IsDigit(c: char) { '0' <= c <= '9' }

  predicate AllDigits(s: string) { forall i :: 0 <= i < |s| ==> IsDigit(s[i]) }

  // ---------------------------------------------------------------------------
  // Trimming

  /** Drops the whitespace and newlines at the start. */
  function TrimLeading(s: string): (r: string)
    ensures |r| <= |s|
  {
    if s == [] || !IsWhitespaceOrNewline(s[0]) then s else TrimLeading(s[1..])
  }

  /** Drops the whitespace and newlines at the end. */
  function TrimTrailing(s: string): (r: string)
    ensures |r| <= |s|
  {
    if s == [] || !IsWhitespaceOrNewline(s[|s| - 1]) then s else TrimTrailing(s[..|s| - 1])
  }

  /**
   * What `TrimLeading` drops is whitespace, and what it keeps is a suffix
   * that does not start with whitespace.
   */
  lemma {:induction false} TrimLeadingDropsWhitespace(s: string)
    ensures var r := TrimLeading(s);
      r == s[|s| - |r|..] && (r == [] || !IsWhitespaceOrNewline(r[0])) &&
      forall i :: 0 <= i < |s| - |r| ==> IsWhitespaceOrNewline(s[i])
  {
    if s != [] && IsWhitespaceOrNewline(s[0]) {
      TrimLeadingDropsWhitespace(s[1..]);
    }
  }

  /**
   * What `TrimTrailing` drops is whitespace, and what it keeps is a prefix
   * that does not end with whitespace.
   */
  lemma {:induction false} TrimTrailingDropsWhitespace(s: string)
    ensures var r := TrimTrailing(s);
      r == s[..|r|] && (r == [] || !IsWhitespaceOrNewline(r[|r| - 1])) &&
      forall i :: |r| <= i < |s| ==> IsWhitespaceOrNewline(s[i])
  {
    if s != [] && IsWhitespaceOrNewline(s[|s| - 1]) {
      TrimTrailingDropsWhitespace(s[..|s| - 1]);
    }
  }

  /** `trimmingCharacters(in: .whitespacesAndNewlines)`. */
  function Trim(s: string): string {
    TrimTrailing(TrimLeading(s))
  }

  /** A trimmed string starts and ends with a visible character, or is empty. */
  lemma TrimEnds(s: string)
    ensures var r := Trim(s);
      r == [] || (!IsWhitespaceOrNewline(r[0]) && !IsWhitespaceOrNewline(r[|r| - 1]))
  {
    var l := TrimLeading(s);
    TrimLeadingDropsWhitespace(s);
    TrimTrailingDropsWhitespace(l);
    var r := TrimTrailing(l);
    if r != [] {
      assert r[0] == l[0];
    }
  }

  /** Trimming is a no-op on a string that already starts and ends with visible characters. */
  lemma TrimOfTrimmed(s: string)
    requires s == [] || (!IsWhitespaceOrNewline(s[0]) && !IsWhitespaceOrNewline(s[|s| - 1]))
    ensures Trim(s) == s
  {
  }

  // ---------------------------------------------------------------------------
  // Prefixes

  /** `String.hasPrefix`. */
  predicate HasPrefix(s: string, p: string) { p <= s }

  // ---------------------------------------------------------------------------
  // Splitting and joining

  /** Index of the first character of `s` satisfying `sep`, or `|s|` if there is none. */
  function FirstIndex(s: string, sep: char -> bool): (i: nat)
    ensures i <= |s|
    ensures i < |s| ==> sep(s[i])
    ensures forall j :: 0 <= j < i ==> !sep(s[j])
  {
    if s == [] then 0 else if sep(s[0]) then 0 else 1 + FirstIndex(s[1..], sep)
  }

  /**
   * Splits `s` at every character satisfying `sep`, keeping empty pieces:
   * `split(separator:omittingEmptySubsequences: false)` and
   * `components(separatedBy:)`. There is always one more piece than separators.
   */
  function Split(s: string, sep: char -> bool): (r: seq<string>)
    ensures |r| >= 1
    decreases |s|
  {
    var i := FirstIndex(s, sep);
    if i == |s| then [s] else [s[..i]] + Split(s[i + 1..], sep)
  }

  /** No piece contains a separator. */
  lemma {:induction false} SplitPiecesWithoutSeparator(s: string, sep: char -> bool)
    ensures var r := Split(s, sep);
      forall k, j :: 0 <= k < |r| && 0 <= j < |r[k]| ==> !sep(r[k][j])
    decreases |s|
  {
    var i := FirstIndex(s, sep);
    if i < |s| {
      SplitPiecesWithoutSeparator(s[i + 1..], sep);
      assert Split(s, sep) == [s[..i]] + Split(s[i + 1..], sep);
    }
  }

  /** `joined(separator:)`. */
  function Join(lines: seq<string>, sep: string): string {
    if lines == [] then "" else if |lines| == 1 then lines[0] else lines[0] + sep + Join(lines[1..], sep)
  }

  /** Splitting at `c` undoes joining with `c` when no piece contains `c`. */
  lemma {:induction false} SplitJoin(lines: seq<string>, c: char, sep: char -> bool)
    requires |lines| >= 1
    requires forall x :: sep(x) <==> x == c
    requires forall k, j :: 0 <= k < |lines| && 0 <= j < |lines[k]| ==> lines[k][j] != c
    ensures Split(Join(lines, [c]), sep) == lines
  {
    var s := Join(lines, [c]);
    if |lines| == 1 {
      assert s == lines[0];
      assert forall j :: 0 <= j < |s| ==> !sep(s[j]);
    } else {
      var head := lines[0];
      var rest := Join(lines[1..], [c]);
      assert s == head + [c] + rest;
      FirstIndexAt(s, sep, |head|);
      assert s[..|head|] == head;
      assert s[|head| + 1..] == rest;
      SplitJoin(lines[1..], c, sep);
    }
  }

  /** The first separator of `s` is at `i` when `s[i]` is one and none comes before it. */
  lemma {:induction false} FirstIndexAt(s: string, sep: char -> bool, i: nat)
    requires i < |s| && sep(s[i])
    requires forall j :: 0 <= j < i ==> !sep(s[j])
    ensures FirstIndex(s, sep) == i
  {
    if i > 0 {
      FirstIndexAt(s[1..], sep, i - 1);
    }
  }

  /** A string without separators is one piece. */
  lemma SplitWithout(a: string, sep: char -> bool)
    requires forall j :: 0 <= j < |a| ==> !sep(a[j])
    ensures Split(a, sep) == [a]
  {
  }

  /** The piece before the first separator comes first. */
  lemma SplitAtFirst(a: string, c: char, b: string, sep: char -> bool)
    requires sep(c)
    requires forall j :: 0 <= j < |a| ==> !sep(a[j])
    ensures Split(a + [c] + b, sep) == [a] + Split(b, sep)
  {
    var s := a + [c] + b;
    assert forall j :: 0 <= j < |a| ==> s[j] == a[j];
    FirstIndexAt(s, sep, |a|);
    assert s[..|a|] == a && s[|a| + 1..] == b;
  }

  /**
   * Joining the pieces back with `c` restores `s` when `c` is the only
   * separator that occurs in `s`.
   */
  lemma {:induction false} JoinSplit(s: string, c: char, sep: char -> bool)
    requires forall j :: 0 <= j < |s| && sep(s[j]) ==> s[j] == c
    ensures Join(Split(s, sep), [c]) == s
    decreases |s|
  {
    var i := FirstIndex(s, sep);
    if i < |s| {
      var head, tail := s[..i], s[i + 1..];
      assert s[i] == c;
      forall j | 0 <= j < |tail| && sep(tail[j])
        ensures tail[j] == c
      {
        assert tail[j] == s[i + 1 + j];
      }
      JoinSplit(tail, c, sep);
      var rest := Split(tail, sep);
      assert Split(s, sep) == [head] + rest;
      JoinCons(head, rest, [c]);
      Reassemble(s, i);
    }
  }

  /** A string is its part before `i`, its `i`-th character and its part after. */
  lemma Reassemble(s: string, i: nat)
    requires i < |s|
    ensures s == s[..i] + [s[i]] + s[i + 1..]
  {
  }

  /** Joining a piece in front of at least one more puts the separator between them. */
  lemma JoinCons(head: string, rest: seq<string>, sep: string)
    requires |rest| >= 1
    ensures Join([head] + rest, sep) == head + sep + Join(rest, sep)
  {
    assert ([head] + rest)[1..] == rest;
  }

  // ---------------------------------------------------------------------------
  // Fields of a comma list

  /** The characters of `s` before the first `c`. */
  function TakeUntil(s: string, c: char): (r: string)
    ensures r <= s && c !in r
    ensures |r| < |s| ==> s[|r|] == c
  {
    if s == [] || s[0] == c then [] else [s[0]] + TakeUntil(s[1..], c)
  }

  /**
   * `s.split(separator: c).first`: the first NON-EMPTY maximal run of characters
   * other than `c` (Swift's `split` omits empty pieces by default).
   */
  function FirstField(s: string, c: char): (r: Option<string>)
    ensures r.Some? ==> |r.value| > 0 && c !in r.value
    ensures r.None? <==> (forall j :: 0 <= j < |s| ==> s[j] == c)
  {
    if s == [] then None
    else if s[0] == c then FirstField(s[1..], c)
    else Some(TakeUntil(s, c))
  }

  // ---------------------------------------------------------------------------
  // Case

  /** `lowercased()` on the ASCII range; other characters are kept. */
  function Lower(s: string): (r: string)
    ensures |r| == |s|
    ensures forall i :: 0 <= i < |s| ==> r[i] == (if 'A' <= s[i] <= 'Z' then (s[i] as int + 32) as char else s[i])
  {
    if s == [] then [] else [if 'A' <= s[0] <= 'Z' then (s[0] as int + 32) as char else s[0]] + Lower(s[1..])
  }

  // ---------------------------------------------------------------------------
  // Decimal numbers

  /** The longest prefix of `s` made of decimal digits (`prefix { $0.isNumber }`). */
  function DigitPrefix(s: string): (r: string)
    ensures r <= s && AllDigits(r)
    ensures |r| < |s| ==> !IsDigit(s[|r|])
  {
    if s == [] || !IsDigit(s[0]) then [] else [s[0]] + DigitPrefix(s[1..])
  }

  /** The value of a string of decimal digits. */
  function DigitsValue(s: string): nat
    requires AllDigits(s)
  {
    if s == [] then 0 else DigitsValue(s[..|s| - 1]) * 10 + (s[|s| - 1] as int - '0' as int)
  }

  function DigitChar(d: nat): char
    requires d < 10
  {
    ('0' as int + d) as char
  }

  /** `String(n)` for a non-negative integer: decimal, no leading zeros. */
  function NatToString(n: nat): (r: string)
    ensures |r| >= 1 && AllDigits(r)
    ensures |r| > 1 ==> r[0] != '0'
  {
    if n < 10 then [DigitChar(n)] else NatToString(n / 10) + [DigitChar(n % 10)]
  }

  /** `String(i)` for any integer: a `-` sign before the digits of a negative number. */
  function IntToString(i: int): (r: string)
    ensures |r| >= 1
  {
    if i < 0 then "-" + NatToString(-i) else NatToString(i)
  }

  /** Printing a number and reading its digits back gives the number. */
  lemma {:induction false} DigitsOfNatToString(n: nat)
    ensures DigitsValue(NatToString(n)) == n
  {
    if n >= 10 {
      DigitsOfNatToString(n / 10);
      var s := NatToString(n);
      assert s[..|s| - 1] == NatToString(n / 10);
    }
  }

  /** Different numbers print differently. */
  lemma NatToStringInjective(m: nat, n: nat)
    requires m != n
    ensures NatToString(m) != NatToString(n)
  {
    DigitsOfNatToString(m);
    DigitsOfNatToString(n);
  }

  /**
   * Two strings that both end in a `-` followed by digits agree on those
   * digits: the last `-` is the separator in both.
   */
  lemma DigitSuffixAfterDash(a: string, d1: string, b: string, d2: string)
    requires AllDigits(d1) && AllDigits(d2)
    requires a + "-" + d1 == b + "-" + d2
    ensures d1 == d2
  {
    if |d1| <= |d2| {
      ShorterDigitSuffix(a, d1, b, d2);
    } else {
      ShorterDigitSuffix(b, d2, a, d1);
    }
  }

  lemma DashAfter(a: string, d: string)
    ensures (a + "-" + d)[|a|] == '-'
  {
  }

  lemma ShorterDigitSuffix(a: string, d1: string, b: string, d2: string)
    requires AllDigits(d2) && |d1| <= |d2|
    requires a + "-" + d1 == b + "-" + d2
    ensures d1 == d2
  {
    var k := a + "-" + d1;
    if |d1| < |d2| {
      DashAfter(a, d1);
      assert false;
    }
    assert d1 == k[|k| - |d1|..];
  }

  // ---------------------------------------------------------------------------
  // Order

  /** Swift's `String <`: lexicographic on characters, a proper prefix first. */
  predicate Less(a: string, b: string)
    decreases |a|
  {
    |b| > 0 && (|a| == 0 || a[0] < b[0] || (a[0] == b[0] && Less(a[1..], b[1..])))
  }

  /** `<` on strings is asymmetric. */
  lemma {:induction false} LessAsymmetric(a: string, b: string)
    requires Less(a, b)
    ensures !Less(b, a)
    decreases |a|
  {
    if |a| > 0 && a[0] == b[0] && Less(a[1..], b[1..]) {
      LessAsymmetric(a[1..], b[1..]);
    }
  }

  /** `<` on strings is total: of two different strings one is smaller. */
  lemma {:induction false} LessTotal(a: string, b: string)
    requires a != b
    ensures Less(a, b) || Less(b, a)
    decreases |a|
  {
    if |a| > 0 && |b| > 0 && a[0] == b[0] {
      assert a == [a[0]] + a[1..] && b == [b[0]] + b[1..];
      LessTotal(a[1..], b[1..]);
    }
  }

  /** `<` on strings is transitive. */
  lemma {:induction false} LessTransitive(a: string, b: string, c: string)
    requires Less(a, b) && Less(b, c)
    ensures Less(a, c)
    decreases |a|
  {
    if |a| > 0 && a[0] == b[0] && b[0] == c[0] {
      LessTransitive(a[1..], b[1..], c[1..]);
    }
  }
}
