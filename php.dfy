/**
 * The few PHP string primitives the proxy relies on, with their PHP 8 semantics:
 * truthiness, `strpos` with a one-character needle, `explode`/`implode`, and `intval`.
 */
module Php {
  import opened Wrappers

  /** A PHP string is falsy exactly when it is "" or "0". */
  predicate Truthy(s: string) {
    s != "" && s != "0"
  }

  /** PHP's `empty()` applied to an optional string (a missing array key reads as null). */
  predicate EmptyString(v: Option<string>) {
    v.None? || !Truthy(v.value)
  }

  /** PHP's `empty()` applied to an optional integer. */
  predicate EmptyInt(v: Option<int>) {
    v.None? || v.value == 0
  }

  /** `strpos(s, c)` for a single character: the index of the first occurrence, if any. */
  function IndexOf(s: string, c: char): (r: Option<nat>)
    ensures r.Some? ==> r.value < |s| && s[r.value] == c && c !in s[..r.value]
    ensures r.None? <==> c !in s
    decreases |s|
  {
    if s == [] then None
    else if s[0] == c then Some(0)
    else match IndexOf(s[1..], c)
      case None => None
      case Some(i) =>
        assert s[..i + 1] == [s[0]] + s[1..][..i];
        Some(i + 1)
  }

  /** The first occurrence of `c` is determined by any index that holds `c` with no `c` before it. */
  lemma IndexOfUnique(s: string, c: char, k: nat)
    requires k < |s| && s[k] == c && c !in s[..k]
    ensures IndexOf(s, c) == Some(k)
  {
    assert s[k] in s;
  }

  /** `explode(sep, s)`: the pieces of `s` between occurrences of `sep`. */
  function Split(s: string, sep: char): (parts: seq<string>)
    ensures |parts| >= 1
    ensures forall i :: 0 <= i < |parts| ==> sep !in parts[i]
    decreases |s|
  {
    match IndexOf(s, sep)
    case None => [s]
    case Some(i) => [s[..i]] + Split(s[i + 1..], sep)
  }

  /** `implode(sep, parts)`. */
  function Join(parts: seq<string>, sep: string): (s: string)
    decreases |parts|
  {
    if |parts| == 0 then ""
    else if |parts| == 1 then parts[0]
    else parts[0] + sep + Join(parts[1..], sep)
  }

  /** Imploding the pieces of an explode gives back the original string. */
  lemma {:induction false} JoinSplit(s: string, sep: char)
    ensures Join(Split(s, sep), [sep]) == s
    decreases |s|
  {
    match IndexOf(s, sep)
    case None =>
    case Some(i) =>
      var tail := Split(s[i + 1..], sep);
      var parts := [s[..i]] + tail;
      assert parts[1..] == tail;
      JoinSplit(s[i + 1..], sep);
      calc {
        Join(Split(s, sep), [sep]);
        Join(parts, [sep]);
        s[..i] + [sep] + Join(tail, [sep]);
        s[..i] + [sep] + s[i + 1..];
        s;
      }
  }

  /** Exploding an implode of separator-free pieces gives back the pieces. */
  lemma {:induction false} SplitJoin(parts: seq<string>, sep: char)
    requires |parts| >= 1
    requires forall i :: 0 <= i < |parts| ==> sep !in parts[i]
    ensures Split(Join(parts, [sep]), sep) == parts
    decreases |parts|
  {
    var p0 := parts[0];
    if |parts| > 1 {
      var rest := Join(parts[1..], [sep]);
      var s := p0 + [sep] + rest;
      assert Join(parts, [sep]) == s;
      assert s[..|p0|] == p0;
      assert s[|p0|] == sep;
      IndexOfUnique(s, sep, |p0|);
      assert s[|p0| + 1..] == rest;
      SplitJoin(parts[1..], sep);
      assert Split(s, sep) == [p0] + Split(rest, sep);
      assert parts == [p0] + parts[1..];
    } else {
      assert Join(parts, [sep]) == p0;
      assert sep !in p0;
    }
  }

  predicate IsDigit(ch: char) {
    '0' <= ch <= '9'
  }

  predicate AllDigits(s: string) {
    forall i :: 0 <= i < |s| ==> IsDigit(s[i])
  }

  /** The decimal value of a string of digits ("" has value 0). */
  function DigitsValue(d: string): (v: nat)
    requires AllDigits(d)
    decreases |d|
  {
    if d == [] then 0
    else DigitsValue(d[..|d| - 1]) * 10 + (d[|d| - 1] as int - '0' as int)
  }

  /** The longest prefix of `s` made of digits. */
  function LeadingDigits(s: string): (d: string)
    ensures AllDigits(d) && d <= s
    ensures |d| < |s| ==> !IsDigit(s[|d|])
    decreases |s|
  {
    if s != [] && IsDigit(s[0]) then [s[0]] + LeadingDigits(s[1..]) else []
  }

  /** The characters PHP skips before a number: space, \t, \n, \r, \v and \f. */
  predicate IsSpace(ch: char) {
    ch == ' ' || ch == '\t' || ch == '\n' || ch == '\r' || ch as int == 11 || ch as int == 12
  }

  function SkipSpace(s: string): (t: string)
    ensures |t| <= |s| && t == s[|s| - |t|..]
    ensures t != [] ==> !IsSpace(t[0])
    decreases |s|
  {
    if s != [] && IsSpace(s[0]) then SkipSpace(s[1..]) else s
  }

  /**
   * `intval` on a string: leading whitespace, an optional sign, then the longest run of
   * digits; text that does not start like a number gives 0.
   */
  function IntVal(s: string): (v: int) {
    var t := SkipSpace(s);
    if t != [] && t[0] == '-' then -(DigitsValue(LeadingDigits(t[1..])) as int)
    else if t != [] && t[0] == '+' then DigitsValue(LeadingDigits(t[1..]))
    else DigitsValue(LeadingDigits(t))
  }

  lemma {:induction false} LeadingDigitsOfDigits(s: string)
    requires AllDigits(s)
    ensures LeadingDigits(s) == s
    decreases |s|
  {
    if s != [] {
      LeadingDigitsOfDigits(s[1..]);
    }
  }

  /** On a string of digits `intval` is the decimal value. */
  lemma IntValOfDigits(s: string)
    requires AllDigits(s)
    ensures IntVal(s) == DigitsValue(s)
  {
    assert SkipSpace(s) == s;
    LeadingDigitsOfDigits(s);
  }

  /** Text that does not start like a number (no space, sign or digit first) has `intval` 0. */
  lemma IntValNonNumeric(s: string)
    requires s == [] || !(IsDigit(s[0]) || IsSpace(s[0]) || s[0] == '+' || s[0] == '-')
    ensures IntVal(s) == 0
  {
  }

  /** `intval` stops at the first character that is not a digit. */
  lemma IntValStopsAtNonDigit(d: string, rest: string)
    requires AllDigits(d) && d != []
    requires rest == [] || !IsDigit(rest[0])
    ensures IntVal(d + rest) == DigitsValue(d)
  {
    assert SkipSpace(d + rest) == d + rest;
    LeadingDigitsPrefix(d, rest);
  }

  lemma {:induction false} LeadingDigitsPrefix(d: string, rest: string)
    requires AllDigits(d)
    requires rest == [] || !IsDigit(rest[0])
    ensures LeadingDigits(d + rest) == d
    decreases |d|
  {
    if d != [] {
      assert (d + rest)[1..] == d[1..] + rest;
      LeadingDigitsPrefix(d[1..], rest);
    } else {
      assert d + rest == rest;
    }
  }
}
