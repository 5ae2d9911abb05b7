/** The handful of Python `str` operations the engine's parsers rely on: `strip`,
    `lower`, `startswith`, `split(sep, 1)`, `lstrip(ch)`, `isdigit`, `int` and `str`
    of a number, and `sep.join`. */
module Text {
  import opened Wrappers

  type String = seq<char>

  /** Python's `str.isspace()` for one character: the ASCII controls TAB..CR and
      FS..US, the space, NEL, NBSP and the Unicode space separators. */
  predicate IsSpace(c: char) {
    c == ' ' || ('\t' <= c <= '\r') || ('\U{1C}' <= c <= '\U{1F}')
    || c == '\U{85}' || c == '\U{A0}' || c == '\U{1680}'
    || ('\U{2000}' <= c <= '\U{200A}') || c == '\U{2028}' || c == '\U{2029}'
    || c == '\U{202F}' || c == '\U{205F}' || c == '\U{3000}'
  }

  predicate IsUpper(c: char) { 'A' <= c <= 'Z' }

  function LowerChar(c: char): char {
    if IsUpper(c) then (c as int + 32) as char else c
  }

  /** `s.lower()` over ASCII letters. */
  function Lower(s: String): (r: String)
    ensures |r| == |s|
    ensures forall i :: 0 <= i < |s| ==> r[i] == LowerChar(s[i])
  {
    if |s| == 0 then [] else [LowerChar(s[0])] + Lower(s[1..])
  }

  /** Lowering twice is lowering once, so a lowered key compares equal to itself. */
  lemma LowerIdempotent(s: String)
    ensures Lower(Lower(s)) == Lower(s)
  {
    assert forall i :: 0 <= i < |s| ==> Lower(Lower(s))[i] == Lower(s)[i];
  }

  /** Lowering keeps prefixes: `p` a prefix of `s` makes `Lower(p)` a prefix of `Lower(s)`. */
  lemma LowerPrefix(p: String, s: String)
    requires p <= s
    ensures Lower(p) <= Lower(s)
  {
    assert Lower(s)[..|p|] == Lower(p);
  }

  /** `s.lstrip()`: drop leading whitespace. */
  function LStrip(s: String): String {
    if |s| > 0 && IsSpace(s[0]) then LStrip(s[1..]) else s
  }

  /** What `lstrip()` keeps is a suffix not starting with whitespace, and all it
      drops is whitespace. */
  lemma {:induction false} LStripSpec(s: String)
    ensures |LStrip(s)| <= |s| && LStrip(s) == s[|s| - |LStrip(s)|..]
    ensures forall i :: 0 <= i < |s| - |LStrip(s)| ==> IsSpace(s[i])
    ensures LStrip(s) == [] || !IsSpace(LStrip(s)[0])
  {
    if |s| > 0 && IsSpace(s[0]) {
      var t := s[1..];
      LStripSpec(t);
      assert LStrip(s) == LStrip(t);
      assert t[|t| - |LStrip(t)|..] == s[|s| - |LStrip(s)|..];
      forall i | 0 <= i < |s| - |LStrip(s)|
        ensures IsSpace(s[i])
      {
        if i > 0 {
          assert s[i] == t[i - 1];
        }
      }
    }
  }

  /** `s.rstrip()`: drop trailing whitespace. */
  function RStrip(s: String): String {
    if |s| > 0 && IsSpace(s[|s| - 1]) then RStrip(s[..|s| - 1]) else s
  }

  /** What `rstrip()` keeps is a prefix not ending with whitespace, and all it
      drops is whitespace. */
  lemma {:induction false} RStripSpec(s: String)
    ensures |RStrip(s)| <= |s| && RStrip(s) == s[..|RStrip(s)|]
    ensures forall i :: |RStrip(s)| <= i < |s| ==> IsSpace(s[i])
    ensures RStrip(s) == [] || !IsSpace(RStrip(s)[|RStrip(s)| - 1])
  {
    if |s| > 0 && IsSpace(s[|s| - 1]) {
      var t := s[..|s| - 1];
      RStripSpec(t);
      assert RStrip(s) == RStrip(t);
      assert t[..|RStrip(t)|] == s[..|RStrip(s)|];
      forall i | |RStrip(s)| <= i < |s|
        ensures IsSpace(s[i])
      {
        if i < |s| - 1 {
          assert s[i] == t[i];
        }
      }
    }
  }

  /** How many leading whitespace characters `s.strip()` cuts off. */
  function StripStart(s: String): nat {
    LStripSpec(s);
    |s| - |LStrip(s)|
  }

  /** `s.strip()`: `s.lstrip()` then `s.rstrip()`. */
  function Strip(s: String): String {
    RStrip(LStrip(s))
  }

  /** `s.strip()` is the slice of `s` after the leading whitespace. */
  lemma StripSlice(s: String)
    ensures StripStart(s) + |Strip(s)| <= |s| && Strip(s) == s[StripStart(s)..StripStart(s) + |Strip(s)|]
  {
    var l := LStrip(s);
    LStripSpec(s);
    RStripSpec(l);
  }

  /** What `s.strip()` cuts off at the end is whitespace. */
  lemma StripTail(s: String)
    ensures forall i :: StripStart(s) + |Strip(s)| <= i < |s| ==> IsSpace(s[i])
  {
    var l := LStrip(s);
    var r := RStrip(l);
    var k := StripStart(s);
    LStripSpec(s);
    RStripSpec(l);
    forall i | k + |r| <= i < |s|
      ensures IsSpace(s[i])
    {
      assert s[i] == l[i - k];
    }
  }

  /** `s.strip()` neither starts nor ends with whitespace. */
  lemma StripEnds(s: String)
    ensures Strip(s) == [] || (!IsSpace(Strip(s)[0]) && !IsSpace(Strip(s)[|Strip(s)| - 1]))
  {
    var l := LStrip(s);
    var r := RStrip(l);
    LStripSpec(s);
    RStripSpec(l);
    if r != [] {
      assert r[0] == l[0];
    }
  }

  /** `s.strip()` is a slice of `s` that neither starts nor ends with whitespace,
      everything cut off before and after it being whitespace. */
  lemma StripSpec(s: String)
    ensures StripStart(s) + |Strip(s)| <= |s| && Strip(s) == s[StripStart(s)..StripStart(s) + |Strip(s)|]
    ensures forall i :: 0 <= i < StripStart(s) ==> IsSpace(s[i])
    ensures forall i :: StripStart(s) + |Strip(s)| <= i < |s| ==> IsSpace(s[i])
    ensures Strip(s) == [] || (!IsSpace(Strip(s)[0]) && !IsSpace(Strip(s)[|Strip(s)| - 1]))
  {
    LStripSpec(s);
    StripSlice(s);
    StripTail(s);
    StripEnds(s);
  }

  /** `s.strip() == ""` exactly when every character of `s` is whitespace. */
  lemma {:induction false} StripEmptyIffBlank(s: String)
    ensures Strip(s) == [] <==> forall i :: 0 <= i < |s| ==> IsSpace(s[i])
  {
    var l := LStrip(s);
    LStripSpec(s);
    RStripSpec(l);
    if l != [] {
      assert !IsSpace(l[0]);
      assert RStrip(l) != [];
      assert !IsSpace(s[|s| - |l|]);
    }
  }

  /** `s.strip() == s` exactly when `s` is empty or its first and last characters
      are not whitespace. */
  lemma {:induction false} StripUnchangedIff(s: String)
    ensures Strip(s) == s <==> (s == [] || (!IsSpace(s[0]) && !IsSpace(s[|s| - 1])))
  {
    var r := Strip(s);
    StripSpec(s);
    if r == s && s != [] {
      assert !IsSpace(r[0]) && !IsSpace(r[|r| - 1]);
    }
    if s != [] && !IsSpace(s[0]) && !IsSpace(s[|s| - 1]) {
      assert LStrip(s) == s;
      assert RStrip(s) == s;
    }
  }

  /** Stripping twice is stripping once. */
  lemma StripIdempotent(s: String)
    ensures Strip(Strip(s)) == Strip(s)
  {
    StripEnds(s);
    StripUnchangedIff(Strip(s));
  }

  /** The index of the first occurrence of `c` in `s`, if any. */
  function IndexOf(s: String, c: char): (r: Option<nat>)
    ensures r.None? <==> c !in s
    ensures r.Some? ==> r.value < |s| && s[r.value] == c && c !in s[..r.value]
  {
    if |s| == 0 then None
    else if s[0] == c then Some(0)
    else
      match IndexOf(s[1..], c)
      case None => None
      case Some(i) =>
        assert s[1..][..i] == s[1..i + 1];
        Some(i + 1)
  }

  /** `s.split(c, 1)` when `c in s`, else `(s, "")`: the text before the first
      `c` and the text after it. */
  function SplitFirst(s: String, c: char): (r: (String, String))
    ensures c !in r.0
    ensures c in s ==> r.0 + [c] + r.1 == s
    ensures c !in s ==> r == (s, [])
  {
    match IndexOf(s, c)
    case None => (s, [])
    case Some(i) =>
      assert s[..i] + [c] + s[i + 1..] == s;
      (s[..i], s[i + 1..])
  }

  /** The first `c` after a head free of `c` is found right after the head. */
  lemma {:induction false} IndexOfAfter(head: String, tail: String, c: char)
    requires c !in head
    ensures IndexOf(head + [c] + tail, c) == Some(|head|)
  {
    var s := head + [c] + tail;
    if head != [] {
      assert s[0] == head[0];
      assert s[1..] == head[1..] + [c] + tail;
      IndexOfAfter(head[1..], tail, c);
    }
  }

  /** Splitting `head + c + tail` at its first `c`, when the head holds none,
      gives back the head and the tail. */
  lemma SplitFirstAt(head: String, tail: String, c: char)
    requires c !in head
    ensures SplitFirst(head + [c] + tail, c) == (head, tail)
  {
    IndexOfAfter(head, tail, c);
    var s := head + [c] + tail;
    assert s[..|head|] == head && s[|head| + 1..] == tail;
  }

  /** `s.lstrip(c)` for one character `c`. */
  function LStripChar(s: String, c: char): String {
    if |s| > 0 && s[0] == c then LStripChar(s[1..], c) else s
  }

  /** What `lstrip(c)` leaves is a suffix not starting with `c`, and all it
      drops is `c`. */
  lemma {:induction false} LStripCharSpec(s: String, c: char)
    ensures |LStripChar(s, c)| <= |s| && LStripChar(s, c) == s[|s| - |LStripChar(s, c)|..]
    ensures forall i :: 0 <= i < |s| - |LStripChar(s, c)| ==> s[i] == c
    ensures LStripChar(s, c) == [] || LStripChar(s, c)[0] != c
  {
    if |s| > 0 && s[0] == c {
      LStripCharSpec(s[1..], c);
      assert s[1..][|s| - 1 - |LStripChar(s, c)|..] == s[|s| - |LStripChar(s, c)|..];
    }
  }

  /** `sep.join(parts)`. */
  function Join(parts: seq<String>, sep: String): String {
    if |parts| == 0 then []
    else if |parts| == 1 then parts[0]
    else parts[0] + sep + Join(parts[1..], sep)
  }

  predicate IsDigit(c: char) { '0' <= c <= '9' }

  /** `s.isdigit()` over ASCII digits: non-empty and nothing but digits. */
  predicate IsDigitString(s: String) {
    |s| > 0 && forall i :: 0 <= i < |s| ==> IsDigit(s[i])
  }

  function DigitValue(c: char): nat
    requires IsDigit(c)
  {
    c as int - '0' as int
  }

  /** `int(s)` for a string of digits, leading zeros allowed. */
  function DigitsValue(s: String): (n: nat)
    requires forall i :: 0 <= i < |s| ==> IsDigit(s[i])
  {
    if |s| == 0 then 0 else DigitsValue(s[..|s| - 1]) * 10 + DigitValue(s[|s| - 1])
  }

  function DigitChar(d: nat): (c: char)
    requires d < 10
    ensures IsDigit(c) && DigitValue(c) == d
  {
    ('0' as int + d) as char
  }

  /** `str(n)` for a natural number. */
  function Decimal(n: nat): (r: String)
    ensures |r| > 0
  {
    if n < 10 then [DigitChar(n)] else Decimal(n / 10) + [DigitChar(n % 10)]
  }

  /** `str(i)` for any integer. */
  function IntText(i: int): String {
    if i < 0 then "-" + Decimal(-i) else Decimal(i)
  }

  /** `int(str(n)) == n`: the decimal text of a number is a digit string that reads
      back as that number. */
  lemma {:induction false} DecimalRoundTrip(n: nat)
    ensures IsDigitString(Decimal(n))
    ensures DigitsValue(Decimal(n)) == n
  {
    if n >= 10 {
      DecimalRoundTrip(n / 10);
      var d := Decimal(n);
      assert d[..|d| - 1] == Decimal(n / 10);
    }
  }

  /** A leading zero does not change the value `int` reads. */
  lemma {:induction false} LeadingZeroValue(s: String)
    requires forall i :: 0 <= i < |s| ==> IsDigit(s[i])
    ensures DigitsValue("0" + s) == DigitsValue(s)
  {
    if |s| > 0 {
      var t := "0" + s;
      assert t[..|t| - 1] == "0" + s[..|s| - 1];
      LeadingZeroValue(s[..|s| - 1]);
    }
  }
}
