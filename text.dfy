/**
 * The Python string operations the bot relies on when it writes and reads
 * callback data, payloads and message texts: `str()` of an integer and of a
 * two-place `Decimal`, `int()` of a string, `str.split`, `str.join`,
 * `str.strip`, `str.lower`/`str.upper`, `str.isdigit`, `in` and slicing.
 */
module Text {
  import opened Wrappers

  /** The empty sequence is neutral for concatenation. */
  lemma AppendEmpty<T>(s: seq<T>)
    ensures s + [] == s && [] + s == s
  {
  }

  /** A prefix one element longer. */
  lemma TakeStep<T>(s: seq<T>, i: nat)
    requires i < |s|
    ensures s[..i + 1] == s[..i] + [s[i]]
  {
  }

  predicate IsDigit(c: char) { '0' <= c <= '9' }

  /** `s.isdigit()`, for ASCII digits: non-empty and made of digits only. */
  predicate IsDigits(s: string)
  {
    |s| > 0 && forall i :: 0 <= i < |s| ==> IsDigit(s[i])
  }

  predicate AllDigits(s: string)
  {
    forall i :: 0 <= i < |s| ==> IsDigit(s[i])
  }

  function DigitChar(d: nat): (c: char)
    requires d < 10
    ensures IsDigit(c)
  {
    ('0' as int + d) as char
  }

  function DigitValue(c: char): (d: nat)
    requires IsDigit(c)
    ensures d < 10 && DigitChar(d) == c
  {
    c as int - '0' as int
  }

  /** `str(n)` for a non-negative integer: its decimal digits, without leading zeros. */
  function NatToString(n: nat): (s: string)
    ensures IsDigits(s)
    ensures |s| > 1 ==> s[0] != '0'
    decreases n
  {
    if n < 10 then [DigitChar(n)] else NatToString(n / 10) + [DigitChar(n % 10)]
  }

  /** The value of a string of decimal digits, most significant digit first. */
  function DigitsValue(s: string): nat
    requires AllDigits(s)
    decreases |s|
  {
    if s == [] then 0 else DigitsValue(s[..|s| - 1]) * 10 + DigitValue(s[|s| - 1])
  }

  /** Reading back the digits that `str(n)` writes gives `n`. */
  lemma {:induction false} NatToStringValue(n: nat)
    ensures DigitsValue(NatToString(n)) == n
    decreases n
  {
    var s := NatToString(n);
    if n >= 10 {
      NatToStringValue(n / 10);
      assert s[..|s| - 1] == NatToString(n / 10);
    }
  }

  /** `str(i)` for any integer: a minus sign before the digits of a negative value. */
  function IntToString(i: int): (s: string)
    ensures |s| > 0 && IsDigit(s[|s| - 1]) && '_' !in s
    ensures s[0] == '-' <==> i < 0
  {
    if i < 0 then "-" + NatToString(-i) else NatToString(i)
  }

  /** Python truthiness of an optional id: `None` and `0` are false. */
  predicate Truthy(id: Option<nat>)
  {
    id.Some? && id.value != 0
  }

  /** `f"{id or ''}"` for an optional id. */
  function OrEmpty(id: Option<nat>): (s: string)
    ensures s == "" <==> !Truthy(id)
  {
    if Truthy(id) then NatToString(id.value) else ""
  }

  /** `str(d)` for a `Decimal` with two decimal places holding `kopecks` hundredths. */
  function DecimalString(kopecks: nat): (s: string)
  {
    var cents := kopecks % 100;
    NatToString(kopecks / 100) + "." + [DigitChar(cents / 10), DigitChar(cents % 10)]
  }

  /** `c.isspace()`: the characters `str.strip()` removes when it is given no argument. */
  predicate IsSpace(c: char)
  {
    c == ' ' || '\t' <= c <= '\r' || '\U{1c}' <= c <= '\U{1f}' || c == '\U{85}' || c == '\U{a0}'
    || c == '\U{1680}' || '\U{2000}' <= c <= '\U{200a}' || c == '\U{2028}' || c == '\U{2029}'
    || c == '\U{202f}' || c == '\U{205f}' || c == '\U{3000}'
  }

  /** `s.lstrip()`: drops the leading white space and nothing else. */
  function StripLeft(s: string): (r: string)
    ensures |r| <= |s| && r == s[|s| - |r|..]
    ensures forall i :: 0 <= i < |s| - |r| ==> IsSpace(s[i])
    ensures r == [] || !IsSpace(r[0])
    decreases |s|
  {
    if |s| > 0 && IsSpace(s[0]) then StripLeft(s[1..]) else s
  }

  /** `s.rstrip()`: drops the trailing white space and nothing else. */
  function StripRight(s: string): (r: string)
    ensures |r| <= |s| && r == s[..|r|]
    ensures forall i :: |r| <= i < |s| ==> IsSpace(s[i])
    ensures r == [] || !IsSpace(r[|r| - 1])
    decreases |s|
  {
    if |s| > 0 && IsSpace(s[|s| - 1]) then StripRight(s[..|s| - 1]) else s
  }

  /** `s.strip()` */
  function Strip(s: string): string
  {
    StripRight(StripLeft(s))
  }

  /** A string that neither starts nor ends with white space is its own `strip()`. */
  lemma StripTrimmed(s: string)
    requires s == [] || (!IsSpace(s[0]) && !IsSpace(s[|s| - 1]))
    ensures Strip(s) == s
  {
  }

  /** The digits of `s`, in order, with every other character dropped. */
  function DigitsOf(s: string): (r: string)
    ensures AllDigits(r)
    decreases |s|
  {
    if s == [] then [] else (if IsDigit(s[0]) then [s[0]] else []) + DigitsOf(s[1..])
  }

  lemma {:induction false} DigitsOfDigits(s: string)
    requires AllDigits(s)
    ensures DigitsOf(s) == s
    decreases |s|
  {
    if s != [] {
      DigitsOfDigits(s[1..]);
    }
  }

  /** The unsigned part `int()` accepts: digits, single underscores allowed between two digits. */
  predicate IsIntBody(b: string)
  {
    |b| > 0 && IsDigit(b[0]) &&
    forall i :: 0 <= i < |b| ==> IsDigit(b[i]) || (b[i] == '_' && i + 1 < |b| && IsDigit(b[i + 1]))
  }

  function ParseUnsigned(b: string): Option<nat>
  {
    if IsIntBody(b) then Some(DigitsValue(DigitsOf(b))) else None
  }

  /**
   * `int(s)` for a string: surrounding white space is ignored, then an
   * optional sign and a decimal body; anything else raises `ValueError`,
   * which is `None` here.
   */
  function PyInt(s: string): Option<int>
  {
    var t := Strip(s);
    if |t| > 0 && (t[0] == '-' || t[0] == '+') then
      match ParseUnsigned(t[1..])
      case Some(v) =>
        var n: int := if t[0] == '-' then -(v as int) else v;
        Some(n)
      case None => None
    else
      match ParseUnsigned(t)
      case Some(v) => Some(v)
      case None => None
  }

  lemma ParseUnsignedDigits(s: string)
    requires IsDigits(s)
    ensures ParseUnsigned(s) == Some(DigitsValue(s))
  {
    DigitsOfDigits(s);
  }

  /** `int()` of a digit string is the value of those digits. */
  lemma PyIntOfDigits(s: string)
    requires IsDigits(s)
    ensures PyInt(s) == Some(DigitsValue(s))
  {
    assert Strip(s) == s by {
      StripTrimmed(s);
    }
    ParseUnsignedDigits(s);
    PyIntOfUnsigned(s, DigitsValue(s));
  }

  /** A stripped text with no sign that is a whole number reads as that number. */
  lemma PyIntOfUnsigned(t: string, v: nat)
    requires Strip(t) == t && |t| > 0 && t[0] != '-' && t[0] != '+' && ParseUnsigned(t) == Some(v)
    ensures PyInt(t) == Some(v)
  {
  }

  /** `int(str(n)) == n` for a natural number. */
  lemma PyIntOfNatToString(n: nat)
    ensures PyInt(NatToString(n)) == Some(n)
  {
    PyIntOfDigits(NatToString(n));
    NatToStringValue(n);
  }

  /** `int(str(i)) == i` for every integer. */
  lemma PyIntOfIntToString(i: int)
    ensures PyInt(IntToString(i)) == Some(i)
  {
    if i < 0 {
      var n: nat := -i;
      var s := IntToString(i);
      assert s == "-" + NatToString(n) && s[1..] == NatToString(n);
      PyIntOfNegated(s);
      NatToStringValue(n);
    } else {
      PyIntOfNatToString(i);
    }
  }

  /** A minus sign before digits reads as the negated value. */
  lemma PyIntOfNegated(t: string)
    requires |t| > 1 && t[0] == '-' && IsDigits(t[1..])
    ensures PyInt(t) == Some(-(DigitsValue(t[1..]) as int))
  {
    assert Strip(t) == t by {
      assert t[|t| - 1] == t[1..][|t| - 2];
      StripTrimmed(t);
    }
    ParseUnsignedDigits(t[1..]);
    PyIntOfMinus(t, DigitsValue(t[1..]));
  }

  /** A stripped text of a minus sign and a whole number reads as its negation. */
  lemma PyIntOfMinus(t: string, v: nat)
    requires Strip(t) == t && |t| > 0 && t[0] == '-' && ParseUnsigned(t[1..]) == Some(v)
    ensures PyInt(t) == Some(-(v as int))
  {
  }

  /** The position of the first `c` in `s`. */
  function IndexOf(s: string, c: char): (i: nat)
    requires c in s
    ensures i < |s| && s[i] == c && c !in s[..i]
    decreases |s|
  {
    if s[0] == c then 0 else 1 + IndexOf(s[1..], c)
  }

  /** `s.split(sep)` for a one-character separator. */
  function Split(s: string, sep: char): (parts: seq<string>)
    ensures |parts| > 0
    decreases |s|
  {
    if sep in s then
      var i := IndexOf(s, sep);
      [s[..i]] + Split(s[i + 1..], sep)
    else
      [s]
  }

  /** `sep.join(parts)` */
  function Join(parts: seq<string>, sep: string): string
    decreases |parts|
  {
    if |parts| == 0 then ""
    else if |parts| == 1 then parts[0]
    else parts[0] + sep + Join(parts[1..], sep)
  }

  /** Splitting loses nothing: the pieces hold no separator and joining them gives `s` back. */
  lemma {:induction false} JoinSplit(s: string, sep: char)
    ensures Join(Split(s, sep), [sep]) == s
    ensures forall k :: 0 <= k < |Split(s, sep)| ==> sep !in Split(s, sep)[k]
    decreases |s|
  {
    if sep in s {
      var i := IndexOf(s, sep);
      var rest := s[i + 1..];
      JoinSplit(rest, sep);
      assert Split(s, sep) == [s[..i]] + Split(rest, sep);
      assert s == s[..i] + [sep] + rest;
    }
  }

  /** Joining pieces that hold no separator and splitting again gives the pieces back. */
  lemma {:induction false} SplitJoin(parts: seq<string>, sep: char)
    requires |parts| > 0 && forall k :: 0 <= k < |parts| ==> sep !in parts[k]
    ensures Split(Join(parts, [sep]), sep) == parts
    decreases |parts|
  {
    if |parts| > 1 {
      var rest := Join(parts[1..], [sep]);
      SplitJoin(parts[1..], sep);
      SplitAt(parts[0], sep, rest);
      assert Join(parts, [sep]) == parts[0] + [sep] + rest;
      assert parts == [parts[0]] + parts[1..];
    }
  }

  /** The first piece of `a + sep + b` is `a` when `a` holds no separator. */
  lemma SplitAt(a: string, sep: char, b: string)
    requires sep !in a
    ensures Split(a + [sep] + b, sep) == [a] + Split(b, sep)
  {
    var s := a + [sep] + b;
    assert s[|a|] == sep;
    var i := IndexOf(s, sep);
    assert s[..i] == a;
    assert s[i + 1..] == b;
  }

  /** A string with exactly one separator splits into the two sides. */
  lemma SplitTwo(a: string, sep: char, b: string)
    requires sep !in a && sep !in b
    ensures Split(a + [sep] + b, sep) == [a, b]
  {
    SplitAt(a, sep, b);
    assert Split(b, sep) == [b];
  }

  /** A string with exactly two separators splits into the three pieces. */
  lemma SplitThree(a: string, sep: char, b: string, c: string)
    requires sep !in a && sep !in b && sep !in c
    ensures Split(a + [sep] + (b + [sep] + c), sep) == [a, b, c]
  {
    SplitAt(a, sep, b + [sep] + c);
    SplitTwo(b, sep, c);
    assert [a] + [b, c] == [a, b, c];
  }

  /** `s.split(sep, 1)` unpacked into two names: `None` where Python raises `ValueError`. */
  function SplitOnce(s: string, sep: char): (r: Option<(string, string)>)
    ensures r.None? <==> sep !in s
    ensures r.Some? ==> sep !in r.value.0 && r.value.0 + [sep] + r.value.1 == s
  {
    if sep in s then
      var i := IndexOf(s, sep);
      assert s == s[..i] + [sep] + s[i + 1..];
      Some((s[..i], s[i + 1..]))
    else
      None
  }

  /** Splitting once at the first separator recovers both halves. */
  lemma SplitOnceAt(a: string, sep: char, b: string)
    requires sep !in a
    ensures SplitOnce(a + [sep] + b, sep) == Some((a, b))
  {
    var s := a + [sep] + b;
    assert s[|a|] == sep;
    var r := SplitOnce(s, sep);
    assert r.value.0 == a;
  }

  predicate StartsWith(s: string, prefix: string)
  {
    |prefix| <= |s| && s[..|prefix|] == prefix
  }

  /** `a + b + c` starts with `a`, and with `b` when `a` is empty. */
  lemma StartsWithThree(a: string, b: string, c: string)
    ensures StartsWith(a + b + c, a)
    ensures a == "" ==> StartsWith(a + b + c, b)
  {
    assert (a + b + c)[..|a|] == a;
    if a == "" {
      assert a + b + c == b + c;
      assert (b + c)[..|b|] == b;
    }
  }

  /** `sub in s` for strings. */
  predicate Contains(s: string, sub: string)
    decreases |s|
  {
    StartsWith(s, sub) || (|s| > 0 && Contains(s[1..], sub))
  }

  /** `s[:n]` */
  function Take(s: string, n: nat): (r: string)
    ensures |r| <= n && StartsWith(s, r)
    ensures |s| <= n ==> r == s
  {
    if |s| <= n then s else s[..n]
  }

  /** `str.lower` of one character, for ASCII, Latin-1 and basic Cyrillic letters; any other character is kept. */
  function LowerChar(c: char): char
  {
    if 'A' <= c <= 'Z' || 'А' <= c <= 'Я' || ('À' <= c <= 'Þ' && c != '×') then (c as int + 32) as char
    else if 'Ѐ' <= c <= 'Џ' then (c as int + 80) as char
    else c
  }

  /** `str.upper` of one character, for the same letters as `LowerChar`. */
  function UpperChar(c: char): char
  {
    if 'a' <= c <= 'z' || 'а' <= c <= 'я' || ('à' <= c <= 'þ' && c != '÷') then (c as int - 32) as char
    else if 'ѐ' <= c <= 'џ' then (c as int - 80) as char
    else c
  }

  /** `s.lower()`, for the letters `LowerChar` maps. */
  function Lower(s: string): (r: string)
  {
    seq(|s|, i requires 0 <= i < |s| => LowerChar(s[i]))
  }

  /** `s.upper()`, for the letters `UpperChar` maps. */
  function Upper(s: string): (r: string)
  {
    seq(|s|, i requires 0 <= i < |s| => UpperChar(s[i]))
  }

  /** Upper-casing twice is upper-casing once. */
  lemma UpperIdempotent(s: string)
    ensures Upper(Upper(s)) == Upper(s)
  {
    assert forall i :: 0 <= i < |s| ==> UpperChar(UpperChar(s[i])) == UpperChar(s[i]);
  }
}
