/**
  The Python string built-ins the programs rely on, written out: `str.isspace`,
  `str.strip`, `str.startswith`, `str.removeprefix`, `str.split(sep)`,
  `sep.join(words)`, `int(text)` and `str(int)`.
*/
module PyText {
  import opened Wrappers

  /** `c.isspace()`: the characters Python treats as whitespace. */
  predicate IsSpace(c: char) {
    ('\t' <= c <= '\r') || ('\U{1C}' <= c <= '\U{1F}') || c == ' '
    || c == '\U{85}' || c == '\U{A0}' || c == '\U{1680}'
    || ('\U{2000}' <= c <= '\U{200A}') || c == '\U{2028}' || c == '\U{2029}'
    || c == '\U{202F}' || c == '\U{205F}' || c == '\U{3000}'
  }

  predicate IsDigit(c: char) {
    '0' <= c <= '9'
  }

  // ---------------------------------------------------------------- strip

  /** How many whitespace characters `s` begins with. */
  function LeadingSpaces(s: string): (n: nat)
    ensures n <= |s|
    ensures n < |s| ==> !IsSpace(s[n])
  {
    if s != [] && IsSpace(s[0]) then 1 + LeadingSpaces(s[1..]) else 0
  }

  /** How many whitespace characters `s` ends with. */
  function TrailingSpaces(s: string): (n: nat)
    ensures n <= |s|
    ensures n < |s| ==> !IsSpace(s[|s| - 1 - n])
  {
    if s != [] && IsSpace(s[|s| - 1]) then 1 + TrailingSpaces(s[..|s| - 1]) else 0
  }

  /** The leading run `LeadingSpaces` counts is whitespace. */
  lemma {:induction false} LeadingSpacesAreSpace(s: string)
    ensures forall i :: 0 <= i < LeadingSpaces(s) ==> IsSpace(s[i])
  {
    if s != [] && IsSpace(s[0]) {
      LeadingSpacesAreSpace(s[1..]);
      forall i | 1 <= i < LeadingSpaces(s) ensures IsSpace(s[i]) {
        assert s[i] == s[1..][i - 1];
      }
    }
  }

  /** The trailing run `TrailingSpaces` counts is whitespace. */
  lemma {:induction false} TrailingSpacesAreSpace(s: string)
    ensures forall i :: |s| - TrailingSpaces(s) <= i < |s| ==> IsSpace(s[i])
  {
    if s != [] && IsSpace(s[|s| - 1]) {
      var t := s[..|s| - 1];
      TrailingSpacesAreSpace(t);
      forall i | |s| - TrailingSpaces(s) <= i < |s| - 1 ensures IsSpace(s[i]) {
        assert s[i] == t[i];
      }
    }
  }

  /** `s.lstrip()`. */
  function StripLeft(s: string): string {
    s[LeadingSpaces(s)..]
  }

  /** `s.rstrip()`. */
  function StripRight(s: string): string {
    s[..|s| - TrailingSpaces(s)]
  }

  /** `s.strip()`: drops the maximal runs of whitespace at both ends. */
  function Strip(s: string): string {
    StripRight(StripLeft(s))
  }

  /** A stripped string is the piece of the input between its leading and its
      trailing whitespace; its two ends are not whitespace, and everything cut
      off on either side is whitespace. */
  lemma StripSlice(s: string)
    ensures var i, r := LeadingSpaces(s), Strip(s);
      && i + |r| <= |s| && r == s[i..i + |r|]
      && (forall k :: 0 <= k < i ==> IsSpace(s[k]))
      && (forall k :: i + |r| <= k < |s| ==> IsSpace(s[k]))
      && (r == [] || (!IsSpace(r[0]) && !IsSpace(r[|r| - 1])))
  {
    var i := LeadingSpaces(s);
    var l := s[i..];
    var j := |l| - TrailingSpaces(l);
    SliceOfSuffix(s, i, j);
    LeadingSpacesAreSpace(s);
    TrailingSpacesAreSpace(l);
    forall k | i + j <= k < |s| ensures IsSpace(s[k]) {
      assert s[k] == l[k - i];
    }
    StripEnds(s);
  }

  lemma SliceOfSuffix<T>(s: seq<T>, i: nat, n: nat)
    requires i + n <= |s|
    ensures s[i..][..n] == s[i..i + n]
  {
  }

  /** Neither end of a stripped string is whitespace. */
  lemma StripEnds(s: string)
    ensures var r := Strip(s); r == [] || (!IsSpace(r[0]) && !IsSpace(r[|r| - 1]))
  {
    var l := StripLeft(s);
    var j := |l| - TrailingSpaces(l);
    if j > 0 {
      assert Strip(s)[0] == l[0] == s[LeadingSpaces(s)];
      assert Strip(s)[j - 1] == l[j - 1];
    }
  }

  /** Stripping never lengthens a string. */
  lemma StripShortens(s: string)
    ensures |Strip(s)| <= |s|
  {
  }

  /** Stripping a string that has no whitespace at either end changes nothing. */
  lemma StripUnpadded(s: string)
    requires s == [] || (!IsSpace(s[0]) && !IsSpace(s[|s| - 1]))
    ensures Strip(s) == s
  {
    assert LeadingSpaces(s) == 0;
    assert s[0..] == s;
    assert TrailingSpaces(s) == 0;
    assert s[..|s|] == s;
  }

  /** Stripping twice is stripping once. */
  lemma StripIdempotent(s: string)
    ensures Strip(Strip(s)) == Strip(s)
  {
    StripEnds(s);
    StripUnpadded(Strip(s));
  }

  // ------------------------------------------------------- prefixes

  predicate StartsWith(s: string, p: string) {
    p <= s
  }

  /** `s.removeprefix(p)`: drops `p` once, if `s` begins with it. */
  function RemovePrefix(s: string, p: string): (r: string)
    ensures StartsWith(s, p) ==> s == p + r
    ensures !StartsWith(s, p) ==> r == s
  {
    if StartsWith(s, p) then s[|p|..] else s
  }

  // ------------------------------------------------------- split and join

  /** `sep.join(words)`. */
  function Join(words: seq<string>, sep: string): string {
    if |words| == 0 then ""
    else if |words| == 1 then words[0]
    else words[0] + sep + Join(words[1..], sep)
  }

  /** `s.split(c)` for a one-character separator: `n` separators give `n + 1` parts,
      none of which holds the separator. */
  function Split(s: string, c: char): (parts: seq<string>)
    ensures |parts| >= 1
    ensures forall k :: 0 <= k < |parts| ==> c !in parts[k]
  {
    if s == [] then [""]
    else
      var rest := Split(s[1..], c);
      if s[0] == c then [""] + rest
      else [[s[0]] + rest[0]] + rest[1..]
  }

  /** Joining the parts of a split with the separator gives back the input. */
  lemma {:induction false} JoinSplit(s: string, c: char)
    ensures Join(Split(s, c), [c]) == s
  {
    if s != [] {
      var rest := Split(s[1..], c);
      JoinSplit(s[1..], c);
      if s[0] == c {
        JoinEmptyHead(rest, [c]);
      } else {
        JoinExtendHead(s[0], rest, [c]);
      }
      assert [s[0]] + s[1..] == s;
    }
  }

  /** An empty first word contributes only the separator. */
  lemma JoinEmptyHead(words: seq<string>, sep: string)
    requires |words| >= 1
    ensures Join([""] + words, sep) == sep + Join(words, sep)
  {
    assert ([""] + words)[1..] == words;
  }

  /** A character put in front of the first word comes first in the join. */
  lemma JoinExtendHead(x: char, words: seq<string>, sep: string)
    requires |words| >= 1
    ensures Join([[x] + words[0]] + words[1..], sep) == [x] + Join(words, sep)
  {
    var parts := [[x] + words[0]] + words[1..];
    assert parts[1..] == words[1..];
  }

  /** Splitting a join of separator-free words gives the words back. */
  lemma {:induction false} SplitJoin(words: seq<string>, c: char)
    requires |words| >= 1
    requires forall k :: 0 <= k < |words| ==> c !in words[k]
    ensures Split(Join(words, [c]), c) == words
  {
    if |words| == 1 {
      SplitWord(words[0], c);
    } else {
      SplitJoin(words[1..], c);
      SplitWordThenSep(words[0], c, Join(words[1..], [c]));
      assert words == [words[0]] + words[1..];
    }
  }

  /** A word without the separator splits into itself. */
  lemma {:induction false} SplitWord(w: string, c: char)
    requires c !in w
    ensures Split(w, c) == [w]
  {
    if w != [] {
      SplitWord(w[1..], c);
      assert [w[0]] + w[1..] == w;
    }
  }

  /** The split of `w + c + t`, for `w` without the separator, is `w` then the split of `t`. */
  lemma {:induction false} SplitWordThenSep(w: string, c: char, t: string)
    requires c !in w
    ensures Split(w + [c] + t, c) == [w] + Split(t, c)
  {
    if w == [] {
      assert w + [c] + t == [c] + t;
      assert ([c] + t)[1..] == t;
    } else {
      SplitWordThenSep(w[1..], c, t);
      assert (w + [c] + t)[1..] == w[1..] + [c] + t;
      assert [w[0]] + w[1..] == w;
    }
  }

  // ------------------------------------------------------- integers

  /** The body of a base-10 literal as `int()` accepts it (PEP 515): ASCII digits,
      starting and ending with one, each underscore standing between two digits. */
  predicate IsDecimalLiteral(r: string) {
    |r| > 0 && IsDigit(r[0]) && IsDigit(r[|r| - 1])
    && forall i :: 0 <= i < |r| ==> IsDigit(r[i]) || (r[i] == '_' && i + 1 < |r| && IsDigit(r[i + 1]))
  }

  /** `sys.get_int_max_str_digits()` at its default: `int()` refuses text with
      more digits than this, and `str()` refuses integers that long. */
  const MaxStrDigits: nat := 4300

  /** How many digits a literal has, underscores not counted. */
  function DigitCount(r: string): nat {
    if r == [] then 0
    else DigitCount(r[..|r| - 1]) + (if IsDigit(r[|r| - 1]) then 1 else 0)
  }

  /** A run of digits counts each of its characters. */
  lemma {:induction false} DigitCountOfDigits(r: string)
    requires forall i :: 0 <= i < |r| ==> IsDigit(r[i])
    ensures DigitCount(r) == |r|
  {
    if r != [] {
      DigitCountOfDigits(r[..|r| - 1]);
    }
  }

  /** Whether `str(i)` stays within the digit limit. */
  predicate WithinStrLimit(i: int) {
    |NatToString(if i < 0 then -i else i)| <= MaxStrDigits
  }

  /** The value of a decimal literal, underscores ignored. */
  function DecimalValue(r: string): nat {
    if r == [] then 0
    else
      var last := r[|r| - 1];
      if IsDigit(last) then 10 * DecimalValue(r[..|r| - 1]) + (last as int - '0' as int)
      else DecimalValue(r[..|r| - 1])
  }

  /** The whitespace `int()` skips around a number: the characters `isspace`
      accepts except the four information separators U+001C to U+001F, which
      `int()` leaves in place and then rejects. */
  predicate IsIntSpace(c: char) {
    IsSpace(c) && !('\U{1C}' <= c <= '\U{1F}')
  }

  /** How many characters `int()` skips at the front of `s`. */
  function IntLeadingSpaces(s: string): (n: nat)
    ensures n <= |s|
    ensures n < |s| ==> !IsIntSpace(s[n])
  {
    if s != [] && IsIntSpace(s[0]) then 1 + IntLeadingSpaces(s[1..]) else 0
  }

  /** How many characters `int()` skips at the end of `s`. */
  function IntTrailingSpaces(s: string): (n: nat)
    ensures n <= |s|
    ensures n < |s| ==> !IsIntSpace(s[|s| - 1 - n])
  {
    if s != [] && IsIntSpace(s[|s| - 1]) then 1 + IntTrailingSpaces(s[..|s| - 1]) else 0
  }

  /** The text `int()` reads once it has skipped its whitespace at both ends. */
  function IntStrip(s: string): string {
    var l := s[IntLeadingSpaces(s)..];
    l[..|l| - IntTrailingSpaces(l)]
  }

  /** The skipped runs stop at the first character that is not skipped. */
  lemma {:induction false} IntLeadingStops(s: string)
    requires s != [] && !IsIntSpace(s[|s| - 1])
    ensures IntLeadingSpaces(s) < |s|
  {
    if IsIntSpace(s[0]) {
      IntLeadingStops(s[1..]);
    }
  }

  lemma {:induction false} IntTrailingStops(s: string)
    requires s != [] && !IsIntSpace(s[0])
    ensures IntTrailingSpaces(s) < |s|
  {
    if IsIntSpace(s[|s| - 1]) {
      IntTrailingStops(s[..|s| - 1]);
    }
  }

  /** `int()` skips nothing in text that has no whitespace at either end. */
  lemma IntStripUnpadded(s: string)
    requires s == [] || (!IsIntSpace(s[0]) && !IsIntSpace(s[|s| - 1]))
    ensures IntStrip(s) == s
  {
    assert IntLeadingSpaces(s) == 0;
    assert s[0..] == s;
    assert IntTrailingSpaces(s) == 0;
    assert s[..|s|] == s;
  }

  /** `int(text)`: surrounding whitespace, an optional sign, then a decimal literal;
      anything else raises `ValueError`, here `None`. */
  function ParseInt(text: string): Option<int> {
    ParseSigned(IntStrip(text))
  }

  /** `int()` rejects a number padded with an information separator on
      either side, although `strip()` would remove it. */
  lemma SeparatorPaddingRejected(c: char, t: string)
    requires '\U{1C}' <= c <= '\U{1F}'
    ensures IsSpace(c)
    ensures ParseInt([c] + t).None? && ParseInt(t + [c]).None?
  {
    var s := [c] + t;
    assert IntLeadingSpaces(s) == 0 && s[0..] == s;
    IntTrailingStops(s);
    assert IntStrip(s)[0] == c;
    var u := t + [c];
    IntLeadingStops(u);
    var l := u[IntLeadingSpaces(u)..];
    assert IntTrailingSpaces(l) == 0 && l[..|l|] == l;
    var r := IntStrip(u);
    assert r[|r| - 1] == c;
    if r[0] == '+' || r[0] == '-' {
      assert r[1..][|r| - 2] == c;
    }
  }

  /** `int` on text with no surrounding whitespace: a literal with more than
      `MaxStrDigits` digits is refused like a malformed one. */
  function ParseSigned(t: string): Option<int> {
    if |t| > 0 && (t[0] == '+' || t[0] == '-') then
      if IsDecimalLiteral(t[1..]) && DigitCount(t[1..]) <= MaxStrDigits then
        var v: int := DecimalValue(t[1..]);
        Some(if t[0] == '-' then -v else v)
      else None
    else if IsDecimalLiteral(t) && DigitCount(t) <= MaxStrDigits then Some(DecimalValue(t))
    else None
  }

  /** `str(n)` for a natural number. */
  function NatToString(n: nat): (r: string)
    ensures |r| > 0
    ensures forall i :: 0 <= i < |r| ==> IsDigit(r[i])
  {
    var d := ((n % 10) + '0' as int) as char;
    if n < 10 then [d] else NatToString(n / 10) + [d]
  }

  /** `str(i)` for any integer. */
  function IntToString(i: int): string {
    if i < 0 then "-" + NatToString(-i) else NatToString(i)
  }

  lemma {:induction false} NatToStringValue(n: nat)
    ensures DecimalValue(NatToString(n)) == n
  {
    var r := NatToString(n);
    if n >= 10 {
      NatToStringValue(n / 10);
      assert r[..|r| - 1] == NatToString(n / 10);
    }
  }

  /** Digits alone, with no whitespace, sign or underscore, read back as `int`. */
  lemma ParseDigits(digits: string)
    requires |digits| > 0 && forall i :: 0 <= i < |digits| ==> IsDigit(digits[i])
    ensures |digits| <= MaxStrDigits ==> ParseInt(digits) == Some(DecimalValue(digits))
    ensures |digits| > MaxStrDigits ==> ParseInt(digits).None?
  {
    assert IsDigit(digits[0]) && IsDigit(digits[|digits| - 1]);
    IntStripUnpadded(digits);
    DigitCountOfDigits(digits);
    assert IsDecimalLiteral(digits);
  }

  /** A minus sign followed by digits reads back as the negated value. */
  lemma ParseNegativeDigits(digits: string, v: nat)
    requires 0 < |digits| <= MaxStrDigits && forall k :: 0 <= k < |digits| ==> IsDigit(digits[k])
    requires DecimalValue(digits) == v
    ensures ParseInt("-" + digits) == Some(-(v as int))
  {
    var s := "-" + digits;
    assert s[|s| - 1] == digits[|digits| - 1];
    IntStripUnpadded(s);
    DigitCountOfDigits(digits);
    ParseSignedNegative(digits);
  }

  lemma ParseSignedNegative(digits: string)
    requires IsDecimalLiteral(digits) && DigitCount(digits) <= MaxStrDigits
    ensures ParseSigned("-" + digits) == Some(-(DecimalValue(digits) as int))
  {
    assert ("-" + digits)[1..] == digits;
  }

  lemma ParseNegativeToString(i: int)
    requires i < 0 && WithinStrLimit(i)
    ensures ParseInt(IntToString(i)) == Some(i)
  {
    ParseNegatedNat(-i);
  }

  /** `-` followed by `str(n)` reads back as `-n`. */
  lemma ParseNegatedNat(n: nat)
    requires |NatToString(n)| <= MaxStrDigits
    ensures ParseInt("-" + NatToString(n)) == Some(-(n as int))
  {
    NatToStringValue(n);
    ParseNegativeDigits(NatToString(n), n);
  }

  /** A literal's value prints in no more digits than the literal has. */
  lemma {:induction false} DecimalValueFits(r: string)
    ensures DigitCount(r) == 0 ==> DecimalValue(r) == 0
    ensures |NatToString(DecimalValue(r))| <= if DigitCount(r) == 0 then 1 else DigitCount(r)
  {
    if r != [] {
      var p := r[..|r| - 1];
      DecimalValueFits(p);
      var v := DecimalValue(r);
      if IsDigit(r[|r| - 1]) && v >= 10 {
        assert v / 10 == DecimalValue(p);
      }
    }
  }

  /** Whatever `int()` returns, `str()` prints again. */
  lemma ParseIntFits(text: string)
    requires ParseInt(text).Some?
    ensures WithinStrLimit(ParseInt(text).value)
  {
    var t := IntStrip(text);
    if |t| > 0 && (t[0] == '+' || t[0] == '-') {
      DecimalValueFits(t[1..]);
    } else {
      DecimalValueFits(t);
    }
  }

  /** `int(str(i)) == i`, for every integer `str` accepts. */
  lemma ParseIntToString(i: int)
    requires WithinStrLimit(i)
    ensures ParseInt(IntToString(i)) == Some(i)
  {
    if i >= 0 {
      NatToStringValue(i);
      ParseDigits(NatToString(i));
    } else {
      ParseNegativeToString(i);
    }
  }

  /** `str` is injective on naturals. */
  lemma NatToStringInjective(m: nat, n: nat)
    requires NatToString(m) == NatToString(n)
    ensures m == n
  {
    NatToStringValue(m);
    NatToStringValue(n);
  }
}
