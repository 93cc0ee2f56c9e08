/** The JavaScript string and number primitives the services rely on:
    `toLowerCase`, `trim`, `split`, `replace` of a literal, `Number(...)`,
    `parseInt(...)` and the decimal rendering of an integer in a template
    literal.  Characters are Unicode scalar values; only ASCII letters are
    case-folded. */
module Text {
  import opened Wrappers

  predicate IsDigit(c: char) { '0' <= c <= '9' }
  predicate IsAsciiUpper(c: char) { 'A' <= c <= 'Z' }
  predicate IsAsciiLower(c: char) { 'a' <= c <= 'z' }
  predicate IsAsciiLetter(c: char) { IsAsciiUpper(c) || IsAsciiLower(c) }

  /** JavaScript's WhiteSpace and LineTerminator characters: the set matched
      by `\s` in a regular expression and removed by `String.prototype.trim`. */
  predicate IsJsSpace(c: char) {
    if c <= ' ' then
      c == '\t' || c == '\n' || c == '\U{000B}' || c == '\U{000C}' || c == '\r' || c == ' '
    else
      '\U{00A0}' <= c &&
      (c == '\U{00A0}' || c == '\U{1680}' || ('\U{2000}' <= c <= '\U{200A}')
       || c == '\U{2028}' || c == '\U{2029}' || c == '\U{202F}' || c == '\U{205F}'
       || c == '\U{3000}' || c == '\U{FEFF}')
  }

  predicate AllDigits(s: string) { forall i :: 0 <= i < |s| ==> IsDigit(s[i]) }
  predicate NoSpace(s: string) { forall i :: 0 <= i < |s| ==> !IsJsSpace(s[i]) }

  function LowerChar(c: char): char {
    if IsAsciiUpper(c) then (c as int + 32) as char else c
  }

  /** `toLowerCase` restricted to ASCII letters. */
  function Lower(s: string): (r: string)
    ensures |r| == |s|
    ensures forall i :: 0 <= i < |s| ==> r[i] == LowerChar(s[i])
    ensures forall i :: 0 <= i < |r| ==> !IsAsciiUpper(r[i])
  {
    seq(|s|, i requires 0 <= i < |s| => LowerChar(s[i]))
  }

  /** Removes the leading white space. */
  function TrimStart(s: string): (r: string)
    ensures |r| <= |s| && r == s[|s| - |r|..]
    decreases |s|
  {
    if |s| > 0 && IsJsSpace(s[0]) then TrimStart(s[1..]) else s
  }

  /** Removes the trailing white space. */
  function TrimEnd(s: string): (r: string)
    ensures |r| <= |s| && r == s[..|r|]
    decreases |s|
  {
    if |s| > 0 && IsJsSpace(s[|s| - 1]) then TrimEnd(s[..|s| - 1]) else s
  }

  /** `String.prototype.trim`. */
  function Trim(s: string): (r: string)
    ensures |r| <= |s|
  {
    TrimEnd(TrimStart(s))
  }

  /** Trimming keeps a contiguous slice of the string. */
  lemma TrimSlice(s: string)
    ensures var k := |s| - |TrimStart(s)|;
      k + |Trim(s)| <= |s| && Trim(s) == s[k..k + |Trim(s)|]
  {
    var u := TrimStart(s);
    var k := |s| - |u|;
    assert u == s[k..];
    assert Trim(s) == u[..|Trim(s)|];
  }

  predicate NoUpper(s: string) { forall i :: 0 <= i < |s| ==> !IsAsciiUpper(s[i]) }

  /** Trimming a string without upper-case letters leaves none. */
  lemma TrimNoUpper(s: string)
    requires NoUpper(s)
    ensures NoUpper(Trim(s))
  {
    var k := |s| - |TrimStart(s)|;
    TrimSlice(s);
    forall i | 0 <= i < |Trim(s)| ensures !IsAsciiUpper(Trim(s)[i]) {
      assert Trim(s)[i] == s[k + i];
    }
  }

  /** Lower-casing is the identity on a string without upper-case letters. */
  lemma LowerOfNoUpper(s: string)
    requires NoUpper(s)
    ensures Lower(s) == s
  {
  }

  /** `s.slice(0, n)` for a non-negative `n`. */
  function Take(s: string, n: nat): (r: string)
    ensures |r| <= n && |r| <= |s|
    ensures r == s[..|r|]
    ensures |s| <= n ==> r == s
    ensures |s| > n ==> r == s[..n]
  {
    if |s| <= n then s else s[..n]
  }

  function DigitChar(d: nat): (c: char)
    requires d < 10
    ensures IsDigit(c)
  {
    ('0' as int + d) as char
  }

  function DigitValue(c: char): nat
    requires IsDigit(c)
  {
    c as int - '0' as int
  }

  /** The value of a string of decimal digits (empty string: 0). */
  function DigitsValue(s: string): nat
    requires AllDigits(s)
  {
    if s == [] then 0 else 10 * DigitsValue(s[..|s| - 1]) + DigitValue(s[|s| - 1])
  }

  /** The decimal rendering of a natural number, as a template literal shows it. */
  function NatToString(n: nat): (r: string)
    ensures |r| >= 1 && AllDigits(r)
    ensures r[0] == '0' ==> n == 0 && r == "0"
    decreases n
  {
    if n < 10 then [DigitChar(n)] else NatToString(n / 10) + [DigitChar(n % 10)]
  }

  /** The decimal rendering of an integer, with a leading '-' when negative. */
  function IntToString(i: int): string {
    if i < 0 then "-" + NatToString(-i) else NatToString(i)
  }

  /** Reading back a rendered natural number gives the number. */
  lemma {:induction false} NatToStringRoundTrip(n: nat)
    ensures DigitsValue(NatToString(n)) == n
    decreases n
  {
    if n >= 10 {
      NatToStringRoundTrip(n / 10);
      var s := NatToString(n);
      assert s[..|s| - 1] == NatToString(n / 10);
    }
  }

  /** Two-digit zero-padded rendering (as in "07"). */
  function Pad2(n: nat): (r: string)
    requires n < 100
    ensures |r| == 2 && AllDigits(r)
  {
    [DigitChar(n / 10), DigitChar(n % 10)]
  }

  lemma Pad2Value(n: nat)
    requires n < 100
    ensures DigitsValue(Pad2(n)) == n
  {
    var r := Pad2(n);
    assert r[..1] == [DigitChar(n / 10)] && r[..1][..0] == [];
    assert DigitsValue(r[..1]) == n / 10;
  }

  /** `Number(s)` for the strings the services produce: after trimming, the
      empty string is 0 and a string of decimal digits is its value; any other
      string is taken as NaN (None).  A string of digits has nothing to trim,
      so it is read directly. */
  function JsNumber(s: string): (r: Option<int>)
    ensures r.Some? ==> r.value >= 0
    ensures AllDigits(s) && |s| > 0 ==> r == Some(DigitsValue(s))
    decreases |s|
  {
    if |s| > 0 && AllDigits(s) then Some(DigitsValue(s))
    else if |s| > 0 && IsJsSpace(s[0]) then JsNumber(s[1..])
    else if |s| > 0 && IsJsSpace(s[|s| - 1]) then JsNumber(s[..|s| - 1])
    else if s == "" then Some(0)
    else None
  }

  /** The longest prefix of `s` made of decimal digits. */
  function LeadingDigits(s: string): (r: string)
    ensures AllDigits(r) && |r| <= |s| && r == s[..|r|]
    ensures |r| < |s| ==> !IsDigit(s[|r|])
    decreases |s|
  {
    if |s| > 0 && IsDigit(s[0]) then [s[0]] + LeadingDigits(s[1..]) else ""
  }

  /** `parseInt(s)` in base 10: leading white space, an optional sign, then
      the longest run of digits; no digits at all is NaN (None). */
  function ParseIntPrefix(s: string): (r: Option<int>)
    ensures r.Some? ==> exists k :: 0 <= k < |s| && IsDigit(s[k])
  {
    var t := TrimStart(s);
    var negative := |t| > 0 && t[0] == '-';
    var body := if |t| > 0 && (t[0] == '-' || t[0] == '+') then t[1..] else t;
    var digits := LeadingDigits(body);
    if digits == "" then None
    else
      assert IsDigit(s[|s| - |body|]);
      var v: int := DigitsValue(digits);
      Some(if negative then -v else v)
  }

  lemma ParseIntOfRendered(n: nat)
    ensures ParseIntPrefix(NatToString(n)) == Some(n)
  {
    var s := NatToString(n);
    assert s[0] != '-' && s[0] != '+' && !IsJsSpace(s[0]);
    assert TrimStart(s) == s;
    LeadingAllDigits(s);
    NatToStringRoundTrip(n);
  }

  lemma {:induction false} LeadingAllDigits(s: string)
    requires AllDigits(s)
    ensures LeadingDigits(s) == s
    decreases |s|
  {
    if |s| > 0 { LeadingAllDigits(s[1..]); }
  }

  /** Joins parts with a separator character: the inverse of `Split`. */
  function Join(parts: seq<string>, sep: char): string
    requires |parts| >= 1
  {
    if |parts| == 1 then parts[0] else parts[0] + [sep] + Join(parts[1..], sep)
  }

  /** `s.split(sep)` for a one-character separator. */
  function Split(s: string, sep: char): (parts: seq<string>)
    ensures |parts| >= 1
    decreases |s|
  {
    if |s| == 0 then [""]
    else
      var rest := Split(s[1..], sep);
      if s[0] == sep then [""] + rest
      else [[s[0]] + rest[0]] + rest[1..]
  }

  /** Joining the parts of a split gives back the string, and no part holds
      the separator. */
  lemma {:induction false} SplitJoin(s: string, sep: char)
    ensures Join(Split(s, sep), sep) == s
    ensures forall k :: 0 <= k < |Split(s, sep)| ==> sep !in Split(s, sep)[k]
    decreases |s|
  {
    if |s| > 0 {
      var rest := Split(s[1..], sep);
      SplitJoin(s[1..], sep);
      var parts := Split(s, sep);
      if s[0] == sep {
        assert parts[1..] == rest;
        assert [sep] + s[1..] == s;
      } else {
        assert parts[1..] == rest[1..];
        assert |rest| > 1 ==> Join(parts, sep) == [s[0]] + (rest[0] + [sep] + Join(rest[1..], sep));
        assert [s[0]] + s[1..] == s;
        assert forall k :: 1 <= k < |parts| ==> parts[k] == rest[k];
      }
    }
  }

  /** Splitting a string that does not contain the separator gives the string. */
  lemma {:induction false} SplitNoSep(a: string, sep: char)
    requires sep !in a
    ensures Split(a, sep) == [a]
    decreases |a|
  {
    if |a| > 0 {
      SplitNoSep(a[1..], sep);
      assert [a[0]] + a[1..] == a;
    }
  }

  /** Splitting at the first separator. */
  lemma {:induction false} SplitFirst(a: string, sep: char, b: string)
    requires sep !in a
    ensures Split(a + [sep] + b, sep) == [a] + Split(b, sep)
    decreases |a|
  {
    if |a| == 0 {
      assert a + [sep] + b == [sep] + b;
      assert ([sep] + b)[1..] == b;
    } else {
      SplitFirst(a[1..], sep, b);
      assert (a + [sep] + b)[1..] == a[1..] + [sep] + b;
      assert [a[0]] + a[1..] == a;
    }
  }

  /** `s.replace(pat, rep)` for a literal pattern: only the first occurrence
      is replaced. */
  function ReplaceFirst(s: string, pat: string, rep: string): string
    decreases |s|
  {
    if |pat| == 0 then rep + s
    else if |s| < |pat| then s
    else if s[..|pat|] == pat then rep + s[|pat|..]
    else [s[0]] + ReplaceFirst(s[1..], pat, rep)
  }

  /** `pat` occurs in `s` starting at index `i`. */
  predicate OccursAt(s: string, pat: string, i: nat) {
    i + |pat| <= |s| && s[i..i + |pat|] == pat
  }

  predicate Contains(s: string, pat: string) {
    exists i: nat :: i <= |s| && OccursAt(s, pat, i)
  }

  /** With no occurrence of the pattern, `replace` leaves the string alone. */
  lemma {:induction false} ReplaceFirstAbsent(s: string, pat: string, rep: string)
    requires |pat| > 0 && !Contains(s, pat)
    ensures ReplaceFirst(s, pat, rep) == s
    decreases |s|
  {
    if |s| >= |pat| {
      assert s[0..|pat|] == s[..|pat|] && !OccursAt(s, pat, 0);
      if !Contains(s[1..], pat) {
        ReplaceFirstAbsent(s[1..], pat, rep);
        assert [s[0]] + s[1..] == s;
      } else {
        var i: nat :| i <= |s[1..]| && OccursAt(s[1..], pat, i);
        assert s[i + 1..i + 1 + |pat|] == pat;
        assert OccursAt(s, pat, i + 1);
      }
    }
  }

  /** When the pattern first occurs right after `s`, it is the occurrence
      that `replace` removes. */
  lemma {:induction false} ReplaceFirstAfter(s: string, pat: string, rep: string, t: string)
    requires |pat| > 0
    requires forall i: nat :: i < |s| ==> !OccursAt(s + pat + t, pat, i)
    ensures ReplaceFirst(s + pat + t, pat, rep) == s + rep + t
    decreases |s|
  {
    var w := s + pat + t;
    if |s| == 0 {
      assert w == pat + t;
      assert w[..|pat|] == pat && w[|pat|..] == t;
    } else {
      assert w[..|pat|] == w[0..|pat|];
      assert w[1..] == s[1..] + pat + t;
      assert !OccursAt(w, pat, 0);
      forall i: nat | i < |s[1..]|
        ensures !OccursAt(s[1..] + pat + t, pat, i)
      {
        assert (s[1..] + pat + t)[i..i + |pat|] == w[i + 1..i + 1 + |pat|];
        assert !OccursAt(w, pat, i + 1);
      }
      ReplaceFirstAfter(s[1..], pat, rep, t);
      assert [s[0]] + (s[1..] + rep + t) == s + rep + t;
    }
  }

  /** JavaScript's `%`: the remainder takes the sign of the dividend. */
  function JsRem(a: int, b: int): (r: int)
    requires b > 0
    ensures a >= 0 ==> 0 <= r < b && r == a % b
    ensures a < 0 ==> -b < r <= 0
  {
    if a >= 0 then a % b else -((-a) % b)
  }

  /** `const [h, m] = s.split(':').map(Number)`: None when either part is
      NaN or missing (a missing minutes part is `undefined`, which turns
      every later computation into NaN). */
  function HourMinute(s: string): (r: Option<(int, int)>)
    ensures r.Some? ==> r.value.0 >= 0 && r.value.1 >= 0
  {
    var parts := Split(s, ':');
    if |parts| < 2 then None
    else
      match (JsNumber(parts[0]), JsNumber(parts[1]))
      case (Some(h), Some(m)) => Some((h, m))
      case _ => None
  }

  /** A text without a colon has no hour and minute. */
  lemma HourMinuteNeedsColon(s: string)
    requires ':' !in s
    ensures HourMinute(s) == None
  {
    SplitNoSep(s, ':');
  }

  /** A minute of the day rendered as zero-padded "HH:MM". */
  function ClockText(minuteOfDay: nat): (r: string)
    requires minuteOfDay < 1440
    ensures |r| == 5 && r[2] == ':'
  {
    Pad2(minuteOfDay / 60) + ":" + Pad2(minuteOfDay % 60)
  }

  /** Splitting a rendered clock time gives back its hour and minute. */
  lemma HourMinuteOfClockText(t: nat)
    requires t < 1440
    ensures HourMinute(ClockText(t)) == Some((t / 60, t % 60))
  {
    var h, m := Pad2(t / 60), Pad2(t % 60);
    assert ':' !in h && ':' !in m by {
      assert forall i :: 0 <= i < 2 ==> IsDigit(h[i]) && IsDigit(m[i]);
    }
    SplitFirst(h, ':', m);
    SplitNoSep(m, ':');
    Pad2Value(t / 60);
    Pad2Value(t % 60);
    assert ClockText(t) == h + [':'] + m;
  }

  /** A pattern cannot start inside `s` when its first character is absent from `s`. */
  lemma NoEarlierOccurrence(s: string, pat: string, t: string)
    requires |pat| > 0
    requires forall i :: 0 <= i < |s| ==> s[i] != pat[0]
    ensures forall i: nat :: i < |s| ==> !OccursAt(s + pat + t, pat, i)
  {
    forall i: nat | i < |s| ensures !OccursAt(s + pat + t, pat, i) {
      var w := s + pat + t;
      assert w[i] == s[i];
      assert w[i..i + |pat|][0] == w[i] != pat[0];
    }
  }
}
