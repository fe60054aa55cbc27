/** The parts of Rust's `str` that the timetable parser is built from: searching and
    splitting on a literal pattern, splitting on a class of characters, trimming,
    `lines`, and `parse` into the integer types. Strings are sequences of Unicode
    scalar values; a Rust `&str` pattern is matched character by character, which
    agrees with Rust's byte-level matching because UTF-8 is self-synchronising. */
module Strings {
  import opened Wrappers

  // ---------------------------------------------------------------- characters

  /** `char::is_ascii_digit`, which accepts the same characters as `char::is_digit(10)`. */
  predicate IsAsciiDigit(c: char) {
    '0' <= c <= '9'
  }

  /** Unicode White_Space, the characters that `str::trim` strips. */
  predicate IsWhitespace(c: char) {
    || c == ' ' || '\t' <= c <= '\r'
    || c == '\U{85}' || c == '\U{A0}' || c == '\U{1680}'
    || '\U{2000}' <= c <= '\U{200A}'
    || c == '\U{2028}' || c == '\U{2029}' || c == '\U{202F}' || c == '\U{205F}' || c == '\U{3000}'
  }

  /** The character classes the source trims or splits by. */
  datatype CharClass =
    | Whitespace   // `str::trim`
    | NonDigit     // `|c| !c.is_ascii_digit()`
    | WeekdayLead  // `&['T', 'h', 'ứ', ' ', '\n', '\t']`
    | Digit        // `|c| c.is_ascii_digit()`, for runs of digits

  predicate InClass(k: CharClass, c: char) {
    match k
    case Whitespace => IsWhitespace(c)
    case NonDigit => !IsAsciiDigit(c)
    case WeekdayLead => c == 'T' || c == 'h' || c == '\U{1EE9}' || c == ' ' || c == '\n' || c == '\t'
    case Digit => IsAsciiDigit(c)
  }

  predicate AllIn(k: CharClass, s: string) {
    forall i :: 0 <= i < |s| ==> InClass(k, s[i])
  }

  predicate AllDigits(s: string) {
    forall i :: 0 <= i < |s| ==> IsAsciiDigit(s[i])
  }

  /** A non-empty run of ASCII digits. */
  predicate Digits(s: string) {
    s != [] && AllDigits(s)
  }

  predicate HasDigit(s: string) {
    exists i :: 0 <= i < |s| && IsAsciiDigit(s[i])
  }

  // ---------------------------------------------------------------- trimming

  /** Length of the longest prefix of s made of class-k characters. */
  function LeadingIn(s: string, k: CharClass): (n: nat)
    ensures n <= |s|
    ensures forall i :: 0 <= i < n ==> InClass(k, s[i])
    ensures n < |s| ==> !InClass(k, s[n])
    decreases |s|
  {
    if s == [] || !InClass(k, s[0]) then 0 else 1 + LeadingIn(s[1..], k)
  }

  /** Length of the longest suffix of s made of class-k characters. */
  function TrailingIn(s: string, k: CharClass): (n: nat)
    ensures n <= |s|
    ensures forall i :: |s| - n <= i < |s| ==> InClass(k, s[i])
    ensures n < |s| ==> !InClass(k, s[|s| - 1 - n])
    decreases |s|
  {
    if s == [] || !InClass(k, s[|s| - 1]) then 0 else 1 + TrailingIn(s[..|s| - 1], k)
  }

  /** `str::trim_matches` with a character predicate: strips class-k characters
      from both ends. */
  function TrimMatches(s: string, k: CharClass): (t: string)
    ensures |t| <= |s|
    ensures t != [] ==> !InClass(k, t[0]) && !InClass(k, t[|t| - 1])
  {
    var a := LeadingIn(s, k);
    s[a .. |s| - TrailingIn(s[a..], k)]
  }

  /** `str::trim`. */
  function Trim(s: string): string {
    TrimMatches(s, Whitespace)
  }

  /** Trimming recovers the core of a padded string: class-k padding on both sides
      of a core that neither starts nor ends with a class-k character. */
  lemma TrimPadded(p: string, x: string, q: string, k: CharClass)
    requires AllIn(k, p) && AllIn(k, q)
    requires x != [] ==> !InClass(k, x[0]) && !InClass(k, x[|x| - 1])
    requires x == [] ==> q == []
    ensures TrimMatches(p + x + q, k) == x
  {
    var s := p + x + q;
    LeadingAll(p, x + q, k);
    assert p + x + q == p + (x + q);
    assert s[|p|..] == x + q;
    TrailingAll(x, q, k);
  }

  lemma {:induction false} LeadingAll(p: string, y: string, k: CharClass)
    requires AllIn(k, p)
    requires y != [] ==> !InClass(k, y[0])
    ensures LeadingIn(p + y, k) == |p|
    decreases |p|
  {
    if p != [] {
      assert (p + y)[1..] == p[1..] + y;
      LeadingAll(p[1..], y, k);
    }
  }

  lemma {:induction false} TrailingAll(x: string, q: string, k: CharClass)
    requires AllIn(k, q)
    requires x != [] ==> !InClass(k, x[|x| - 1])
    requires x == [] ==> q == []
    ensures TrailingIn(x + q, k) == |q|
    decreases |q|
  {
    if q != [] {
      assert (x + q)[..|x + q| - 1] == x + q[..|q| - 1];
      TrailingAll(x, q[..|q| - 1], k);
    } else {
      assert x + q == x;
    }
  }

  /** A string with no class-k character at either end is its own trim. */
  lemma TrimNoPadding(x: string, k: CharClass)
    requires x != [] ==> !InClass(k, x[0]) && !InClass(k, x[|x| - 1])
    ensures TrimMatches(x, k) == x
  {
    TrimPadded([], x, [], k);
    assert [] + x + [] == x;
  }

  // ---------------------------------------------------------------- searching

  /** pat occurs in s starting at index j. */
  predicate OccursAt(s: string, pat: string, j: int) {
    0 <= j && j + |pat| <= |s| && s[j .. j + |pat|] == pat
  }

  /** `str::find`: the index of the leftmost occurrence of pat in s. */
  function Find(s: string, pat: string): (r: Option<nat>)
    requires pat != []
    ensures r.Some? ==> OccursAt(s, pat, r.value)
    ensures r.Some? ==> forall j :: 0 <= j < r.value ==> !OccursAt(s, pat, j)
    ensures r.None? ==> forall j :: !OccursAt(s, pat, j)
    decreases |s|
  {
    if |s| < |pat| then None
    else if s[..|pat|] == pat then Some(0)
    else
      var r := Find(s[1..], pat);
      OccursShift(s, pat);
      match r
      case None => None
      case Some(i) => Some(i + 1)
  }

  /** An occurrence in s at j >= 1 is an occurrence in s[1..] at j - 1. */
  lemma OccursShift(s: string, pat: string)
    requires s != []
    ensures forall j {:trigger OccursAt(s, pat, j)} :: 1 <= j ==> (OccursAt(s, pat, j) <==> OccursAt(s[1..], pat, j - 1))
  {
    forall j | 1 <= j
      ensures OccursAt(s, pat, j) <==> OccursAt(s[1..], pat, j - 1)
    {
      if j + |pat| <= |s| {
        assert s[j .. j + |pat|] == s[1..][j - 1 .. j - 1 + |pat|];
      }
    }
  }

  /** `str::contains` with a string pattern. */
  predicate Contains(s: string, pat: string)
    requires pat != []
  {
    Find(s, pat).Some?
  }

  /** s contains pat exactly when pat occurs at some index of s. */
  lemma ContainsIff(s: string, pat: string)
    requires pat != []
    ensures Contains(s, pat) <==> exists j :: OccursAt(s, pat, j)
  {
  }

  /** A string lacking any one character of pat does not contain pat. */
  lemma NotContainsChar(s: string, pat: string, k: nat)
    requires pat != [] && k < |pat| && pat[k] !in s
    ensures !Contains(s, pat)
  {
  }

  /** A prefix without pat's first character adds no occurrence of pat. */
  lemma NotContainsPrefixed(a: string, b: string, pat: string)
    requires pat != [] && pat[0] !in a && !Contains(b, pat)
    ensures !Contains(a + b, pat)
  {
    ContainsIff(b, pat);
    forall j | 0 <= j ensures !OccursAt(a + b, pat, j) {
      if j + |pat| <= |a + b| {
        if j < |a| {
          assert (a + b)[j .. j + |pat|][0] == a[j];
        } else {
          assert (a + b)[j .. j + |pat|] == b[j - |a| .. j - |a| + |pat|];
          assert !OccursAt(b, pat, j - |a|);
        }
      }
    }
    ContainsIff(a + b, pat);
  }

  /** A mark m whose second character differs from pat's, and whose later characters
      hold no first character of pat, adds no occurrence of pat in front of b. */
  lemma NotContainsMismatch(m: string, b: string, pat: string)
    requires |pat| >= 2 && |m| >= 2 && m[1] != pat[1] && pat[0] !in m[1..] && !Contains(b, pat)
    ensures !Contains(m + b, pat)
  {
    NotContainsPrefixed(m[1..], b, pat);
    ContainsIff(m[1..] + b, pat);
    assert (m + b)[1..] == m[1..] + b;
    OccursShift(m + b, pat);
    forall j | 0 <= j ensures !OccursAt(m + b, pat, j) {
      if j == 0 && |pat| <= |m + b| {
        assert (m + b)[0 .. |pat|][1] == m[1];
      }
    }
    ContainsIff(m + b, pat);
  }

  /** When pat's first character does not occur in x, the leftmost occurrence of pat
      in x + pat + y is the one right after x. */
  lemma FindAfter(x: string, pat: string, y: string)
    requires pat != [] && pat[0] !in x
    ensures Find(x + pat + y, pat) == Some(|x|)
  {
    var s := x + pat + y;
    assert OccursAt(s, pat, |x|) by {
      assert s[|x| .. |x| + |pat|] == pat;
    }
    forall j | 0 <= j < |x|
      ensures !OccursAt(s, pat, j)
    {
      assert s[j] == x[j];
    }
  }

  // ---------------------------------------------------------------- splitting

  /** The pieces joined back with sep between consecutive pieces. */
  function Join(parts: seq<string>, sep: string): string
    decreases |parts|
  {
    if parts == [] then []
    else if |parts| == 1 then parts[0]
    else parts[0] + sep + Join(parts[1..], sep)
  }

  /** `str::split_once`: the text before and after the leftmost occurrence of pat. */
  function SplitOnce(s: string, pat: string): (r: Option<(string, string)>)
    requires pat != []
    ensures r.None? <==> !Contains(s, pat)
    ensures r.Some? ==> s == r.value.0 + pat + r.value.1 && !Contains(r.value.0, pat)
  {
    match Find(s, pat)
    case None => None
    case Some(i) =>
      assert s == s[..i] + pat + s[i + |pat|..];
      PrefixFree(s, pat, i);
      Some((s[..i], s[i + |pat|..]))
  }

  /** The text before the leftmost occurrence of pat does not contain pat. */
  lemma PrefixFree(s: string, pat: string, i: nat)
    requires pat != [] && i <= |s|
    requires forall j :: 0 <= j < i ==> !OccursAt(s, pat, j)
    ensures !Contains(s[..i], pat)
  {
    if Contains(s[..i], pat) {
      var j := Find(s[..i], pat).value;
      assert s[..i][j .. j + |pat|] == s[j .. j + |pat|];
      assert OccursAt(s, pat, j);
    }
  }

  /** `str::split` with a string pattern: the pieces between the non-overlapping
      occurrences of pat, found from left to right. Joining the pieces with pat gives
      back s, and no piece contains pat. */
  function Split(s: string, pat: string): (parts: seq<string>)
    requires pat != []
    ensures |parts| >= 1
    ensures Join(parts, pat) == s
    ensures forall i :: 0 <= i < |parts| ==> !Contains(parts[i], pat)
    decreases |s|
  {
    match SplitOnce(s, pat)
    case None => [s]
    case Some((before, after)) =>
      var rest := Split(after, pat);
      assert ([before] + rest)[1..] == rest;
      [before] + rest
  }

  /** Splitting x + pat + y, where pat's first character does not occur in x. */
  lemma SplitAt(x: string, pat: string, y: string)
    requires pat != [] && pat[0] !in x
    ensures SplitOnce(x + pat + y, pat) == Some((x, y))
    ensures Split(x + pat + y, pat) == [x] + Split(y, pat)
  {
    FindAfter(x, pat, y);
    var s := x + pat + y;
    assert s[..|x|] == x;
    assert s[|x| + |pat|..] == y;
  }

  /** Splitting pieces joined with pat gives the pieces back, when no piece holds the
      first character of pat. */
  lemma {:induction false} SplitJoin(parts: seq<string>, pat: string)
    requires pat != [] && parts != []
    requires forall i :: 0 <= i < |parts| ==> pat[0] !in parts[i]
    ensures Split(Join(parts, pat), pat) == parts
    decreases |parts|
  {
    if |parts| == 1 {
      NotContainsChar(parts[0], pat, 0);
      SplitNone(parts[0], pat);
    } else {
      var rest := parts[1..];
      assert forall i :: 0 <= i < |rest| ==> pat[0] !in rest[i] by {
        forall i | 0 <= i < |rest| ensures pat[0] !in rest[i] {
          assert rest[i] == parts[i + 1];
        }
      }
      SplitJoin(rest, pat);
      SplitAt(parts[0], pat, Join(rest, pat));
      assert [parts[0]] + rest == parts;
    }
  }

  /** A string that does not contain pat splits into itself alone. */
  lemma SplitNone(s: string, pat: string)
    requires pat != [] && !Contains(s, pat)
    ensures Split(s, pat) == [s]
  {
  }

  /** `str::split` with a character predicate: the pieces between the class-k
      characters of s, so one more piece than there are class-k characters. */
  function SplitWhere(s: string, k: CharClass): (parts: seq<string>)
    ensures |parts| >= 1
    ensures forall i :: 0 <= i < |parts| ==> forall j :: 0 <= j < |parts[i]| ==> !InClass(k, parts[i][j])
    decreases |s|
  {
    if s == [] then [[]]
    else
      var rest := SplitWhere(s[1..], k);
      if InClass(k, s[0]) then [[]] + rest
      else [[s[0]] + rest[0]] + rest[1..]
  }

  /** `str::lines` (in the form that removes one trailing '\r' from every line): the
      pieces between '\n' characters, without the empty piece after a final '\n'. */
  function Lines(s: string): (lines: seq<string>)
  {
    var pieces := Split(s, "\n");
    var kept := if pieces[|pieces| - 1] == [] then pieces[..|pieces| - 1] else pieces;
    seq(|kept|, i requires 0 <= i < |kept| => StripCr(kept[i]))
  }

  /** Text without a line break that does not end in '\r' is one line. */
  lemma LinesOne(s: string)
    requires s != [] && '\n' !in s && s[|s| - 1] != '\r'
    ensures Lines(s) == [s]
  {
    NotContainsChar(s, "\n", 0);
    SplitNone(s, "\n");
    assert StripCr(s) == s;
    assert Lines(s)[0] == s;
  }

  function StripCr(line: string): string {
    if line != [] && line[|line| - 1] == '\r' then line[..|line| - 1] else line
  }

  // ---------------------------------------------------------------- numbers

  function DigitValue(c: char): nat
    requires IsAsciiDigit(c)
  {
    c as int - '0' as int
  }

  /** The number an all-digit string denotes in decimal, leading zeros allowed. */
  function DecimalValue(s: string): nat
    requires AllDigits(s)
    decreases |s|
  {
    if s == [] then 0 else DecimalValue(s[..|s| - 1]) * 10 + DigitValue(s[|s| - 1])
  }

  /** Appending a digit multiplies the value by ten and adds the digit. */
  lemma DecimalSnoc(s: string, c: char)
    requires AllDigits(s) && IsAsciiDigit(c)
    ensures AllDigits(s + [c]) && DecimalValue(s + [c]) == DecimalValue(s) * 10 + DigitValue(c)
  {
    assert (s + [c])[..|s|] == s;
  }

  /** `str::parse` into an unsigned integer type whose values are below bound
      (u8: 256, u32: 2^32): an optional '+' and at least one ASCII digit, with no
      other character, denoting a value below bound. */
  function ParseUnsigned(s: string, bound: nat): (r: Option<nat>)
    ensures r.Some? ==> r.value < bound
    ensures r.Some? ==> s != [] && (IsAsciiDigit(s[0]) || s[0] == '+')
  {
    var digits := if |s| > 1 && s[0] == '+' then s[1..] else s;
    if digits != [] && AllDigits(digits) && DecimalValue(digits) < bound
    then Some(DecimalValue(digits))
    else None
  }

  /** `str::parse` into a signed integer type with values min ..= max (i32):
      an optional '+' or '-' and at least one ASCII digit. */
  function ParseSigned(s: string, min: int, max: int): (r: Option<int>)
    ensures r.Some? ==> min <= r.value <= max
  {
    if |s| > 1 && s[0] == '-' then
      var digits := s[1..];
      if AllDigits(digits) && min <= -(DecimalValue(digits) as int) <= max
      then Some(-(DecimalValue(digits) as int)) else None
    else if max < 0 then None
    else match ParseUnsigned(s, max + 1)
      case None => None
      case Some(v) => if min <= v then Some(v) else None
  }

  const U8Bound: nat := 0x100
  const U32Bound: nat := 0x1_0000_0000
  const I32Min: int := -0x8000_0000
  const I32Max: int := 0x7FFF_FFFF

  /** The shortest decimal spelling of n. */
  function Decimal(n: nat): (s: string)
    ensures s != [] && AllDigits(s)
    decreases n
  {
    if n < 10 then [('0' as int + n) as char]
    else Decimal(n / 10) + [('0' as int + n % 10) as char]
  }

  /** Reading back the decimal spelling of n gives n. */
  lemma {:induction false} DecimalRoundTrip(n: nat)
    ensures DecimalValue(Decimal(n)) == n
    decreases n
  {
    var s := Decimal(n);
    if n >= 10 {
      DecimalRoundTrip(n / 10);
      assert s[..|s| - 1] == Decimal(n / 10);
    }
  }

  /** A string of digits holds no other character. */
  lemma NotInDigits(s: string, c: char)
    requires AllDigits(s) && !IsAsciiDigit(c)
    ensures c !in s
  {
  }

  /** A run of digits whose value fits the type is parsed as that value. */
  lemma ParseDigits(s: string, bound: nat)
    requires Digits(s) && DecimalValue(s) < bound
    ensures ParseUnsigned(s, bound) == Some(DecimalValue(s))
  {
    assert IsAsciiDigit(s[0]);
  }

  /** A run of digits whose value lies in min ..= max is parsed as that value by the
      signed parser too. */
  lemma ParseSignedDigits(s: string, min: int, max: int)
    requires Digits(s) && min <= DecimalValue(s) <= max
    ensures ParseSigned(s, min, max) == Some(DecimalValue(s))
  {
    assert IsAsciiDigit(s[0]);
    ParseDigits(s, max + 1);
  }

  /** Text without a digit is no number, signed or unsigned, and a run of digits is
      its value wherever the type holds it. */
  lemma NumberCases(s: string, bound: nat, min: int, max: int)
    ensures !HasDigit(s) ==> ParseUnsigned(s, bound).None? && ParseSigned(s, min, max).None?
    ensures Digits(s) && DecimalValue(s) < bound ==> ParseUnsigned(s, bound) == Some(DecimalValue(s))
    ensures Digits(s) && min <= DecimalValue(s) <= max ==> ParseSigned(s, min, max) == Some(DecimalValue(s))
  {
    if !HasDigit(s) && |s| > 1 {
      assert !IsAsciiDigit(s[1]);
    }
    if Digits(s) && DecimalValue(s) < bound {
      ParseDigits(s, bound);
    }
    if Digits(s) && min <= DecimalValue(s) <= max {
      ParseSignedDigits(s, min, max);
    }
  }

  /** Every value of an unsigned type is parsed back from its decimal spelling. */
  lemma ParseDecimal(n: nat, bound: nat)
    requires n < bound
    ensures ParseUnsigned(Decimal(n), bound) == Some(n)
  {
    DecimalRoundTrip(n);
  }
}
