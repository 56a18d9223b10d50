/**
 * Text helpers the Python code relies on: `str.strip()` with Python's notion of
 * whitespace, and the textual encodings `str(...)` / parse used when aggregates
 * are written to dictionaries (UUIDs, amounts, timestamps).
 *
 * The encodings are decimal digit strings: an injective stand-in for the real
 * formats (hyphenated hex for UUIDs, ISO 8601 for timestamps, `str(Decimal)`).
 */
module Text {
  import opened Common

  /** Characters for which Python's `str.isspace()` holds. */
  predicate IsSpace(c: char) {
    c == ' ' || ('\t' <= c <= '\r') || ('\U{1C}' <= c <= '\U{1F}')
    || c == '\U{85}' || c == '\U{A0}' || c == '\U{1680}'
    || ('\U{2000}' <= c <= '\U{200A}') || c == '\U{2028}' || c == '\U{2029}'
    || c == '\U{202F}' || c == '\U{205F}' || c == '\U{3000}'
  }

  /** Empty or all whitespace: the strings for which `not s or not s.strip()` holds. */
  predicate IsBlank(s: string) {
    forall k :: 0 <= k < |s| ==> IsSpace(s[k])
  }

  /** Leading whitespace removed; the result is a suffix of `s`. */
  function TrimStart(s: string): (r: string)
    ensures |r| <= |s| && r == s[|s| - |r|..]
    ensures r == [] || !IsSpace(r[0])
  {
    if s != [] && IsSpace(s[0]) then TrimStart(s[1..]) else s
  }

  /** What `TrimStart` cuts off is whitespace. */
  lemma {:induction false} TrimStartCutsBlank(s: string)
    ensures IsBlank(s[..|s| - |TrimStart(s)|])
  {
    if s != [] && IsSpace(s[0]) {
      var r := TrimStart(s[1..]);
      TrimStartCutsBlank(s[1..]);
      var cut := s[..|s| - |r|];
      forall k | 0 <= k < |cut| ensures IsSpace(cut[k]) {
        if k > 0 {
          assert cut[k] == s[1..][..|s| - 1 - |r|][k - 1];
        }
      }
    }
  }

  /** Trailing whitespace removed; the result is a prefix of `s`. */
  function TrimEnd(s: string): (r: string)
    ensures |r| <= |s| && r == s[..|r|]
    ensures r == [] || !IsSpace(r[|r| - 1])
  {
    if s != [] && IsSpace(s[|s| - 1]) then TrimEnd(s[..|s| - 1]) else s
  }

  /** What `TrimEnd` cuts off is whitespace. */
  lemma {:induction false} TrimEndCutsBlank(s: string)
    ensures IsBlank(s[|TrimEnd(s)|..])
  {
    if s != [] && IsSpace(s[|s| - 1]) {
      var r := TrimEnd(s[..|s| - 1]);
      TrimEndCutsBlank(s[..|s| - 1]);
      var cut := s[|r|..];
      forall k | 0 <= k < |cut| ensures IsSpace(cut[k]) {
        if k < |cut| - 1 {
          assert cut[k] == s[..|s| - 1][|r|..][k];
        }
      }
    }
  }

  /** Python's `s.strip()`. */
  function Strip(s: string): string {
    TrimEnd(TrimStart(s))
  }

  /** `s.strip()` is empty exactly when `s` is blank. */
  lemma StripEmptyIffBlank(s: string)
    ensures Strip(s) == [] <==> IsBlank(s)
  {
    var t := TrimStart(s);
    var u := TrimEnd(t);
    TrimStartCutsBlank(s);
    TrimEndCutsBlank(t);
    assert t != [] ==> t[0] == s[|s| - |t|];
    assert t == [] ==> s[..|s| - |t|] == s;
    assert u == [] ==> t[|u|..] == t;
  }

  /** What `s.strip()` keeps: a slice of `s` with only whitespace cut off
      around it, which neither starts nor ends with whitespace. */
  lemma StripIsTrimmedSlice(s: string)
    ensures exists i, j :: 0 <= i <= j <= |s| && Strip(s) == s[i..j]
                           && IsBlank(s[..i]) && IsBlank(s[j..])
    ensures Strip(s) != [] ==> !IsSpace(Strip(s)[0]) && !IsSpace(Strip(s)[|Strip(s)| - 1])
  {
    var t := TrimStart(s);
    var u := TrimEnd(t);
    TrimStartCutsBlank(s);
    TrimEndCutsBlank(t);
    var i := |s| - |t|;
    var j := i + |u|;
    assert u == s[i..j] by {
      assert t == s[i..];
      assert u == t[..|u|];
    }
    assert IsBlank(s[j..]) by {
      assert s[j..] == t[|u|..];
    }
    assert IsBlank(s[..i]);
    if u != [] {
      assert u[0] == t[0];
    }
  }

  /** The result of a successful name validation is not blank. */
  lemma StripOfNonBlank(s: string)
    requires !IsBlank(s)
    ensures !IsBlank(Strip(s))
  {
    StripEmptyIffBlank(s);
    StripIsTrimmedSlice(s);
    assert !IsSpace(Strip(s)[0]);
  }

  /** Stripping twice is stripping once. */
  lemma StripIdempotent(s: string)
    ensures Strip(Strip(s)) == Strip(s)
  {
    StripIsTrimmedSlice(s);
    var r := Strip(s);
    if r != [] {
      assert TrimStart(r) == r;
      assert TrimEnd(r) == r;
    }
  }

  // ---------------------------------------------------------------------
  // Decimal digit encodings

  predicate IsDigit(c: char) { '0' <= c <= '9' }

  function DigitChar(d: nat): (c: char)
    requires d < 10
    ensures IsDigit(c)
  {
    ('0' as int + d) as char
  }

  function DigitValue(c: char): (d: nat)
    requires IsDigit(c)
    ensures d < 10 && DigitChar(d) == c
  {
    c as int - '0' as int
  }

  /** The decimal text of `n`, most significant digit first. */
  function NatText(n: nat): (r: string)
    ensures |r| > 0
    ensures forall k :: 0 <= k < |r| ==> IsDigit(r[k])
  {
    if n < 10 then [DigitChar(n)] else NatText(n / 10) + [DigitChar(n % 10)]
  }

  /** Reads a non-empty string of decimal digits; anything else is rejected. */
  function ParseNat(s: string): (r: Option<nat>)
  {
    if s == [] then None
    else
      var last := s[|s| - 1];
      if !IsDigit(last) then None
      else if |s| == 1 then Some(DigitValue(last))
      else match ParseNat(s[..|s| - 1])
        case None => None
        case Some(v) => Some(10 * v + DigitValue(last))
  }

  lemma {:induction false} NatTextRoundTrip(n: nat)
    ensures ParseNat(NatText(n)) == Some(n)
  {
    if n >= 10 {
      NatTextRoundTrip(n / 10);
      var s := NatText(n);
      assert s[..|s| - 1] == NatText(n / 10);
      assert DigitValue(s[|s| - 1]) == n % 10;
    }
  }

  /** The text of a signed amount: a minus sign before the digits of its magnitude. */
  function IntText(i: int): (r: string)
    ensures |r| > 0
  {
    if i < 0 then "-" + NatText(-i) else NatText(i)
  }

  function ParseInt(s: string): Option<int>
  {
    if |s| > 0 && s[0] == '-' then
      match ParseNat(s[1..])
      case None => None
      case Some(v) => Some(-(v as int))
    else
      match ParseNat(s)
      case None => None
      case Some(v) => Some(v)
  }

  lemma IntTextRoundTrip(i: int)
    ensures ParseInt(IntText(i)) == Some(i)
  {
    if i < 0 {
      assert IntText(i)[1..] == NatText(-i);
      NatTextRoundTrip(-i);
    } else {
      assert IsDigit(NatText(i)[0]);
      NatTextRoundTrip(i);
    }
  }

  /** `str(uuid)`. */
  function UuidText(u: Uuid): string { NatText(u) }

  /** `UUID(s)`: fails on text that is not the text of a 128-bit value. */
  function ParseUuid(s: string): Option<Uuid>
  {
    match ParseNat(s)
    case Some(n) => if n < UuidBound then Some(n as Uuid) else None
    case None => None
  }

  lemma UuidTextRoundTrip(u: Uuid)
    ensures ParseUuid(UuidText(u)) == Some(u)
  {
    NatTextRoundTrip(u);
  }

  /** Distinct ids have distinct texts, so documents keyed by `str(id)` never
      collide. */
  lemma UuidTextInjective(a: Uuid, b: Uuid)
    ensures UuidText(a) == UuidText(b) ==> a == b
  {
    UuidTextRoundTrip(a);
    UuidTextRoundTrip(b);
  }

  /** `dt.isoformat()`. */
  function TimeText(t: Timestamp): string { NatText(t) }

  /** `datetime.fromisoformat(s)`. */
  function ParseTime(s: string): Option<Timestamp> { ParseNat(s) }

  lemma TimeTextRoundTrip(t: Timestamp)
    ensures ParseTime(TimeText(t)) == Some(t)
  {
    NatTextRoundTrip(t);
  }
  /** `str.lower()` restricted to ASCII: `A`..`Z` become `a`..`z`. */
  function LowerChar(c: char): char {
    if 'A' <= c <= 'Z' then (c as int + 32) as char else c
  }

  function LowerAscii(s: string): (r: string)
    ensures |r| == |s| && forall k :: 0 <= k < |s| ==> r[k] == LowerChar(s[k])
  {
    if s == [] then [] else [LowerChar(s[0])] + LowerAscii(s[1..])
  }

  /** Text already in lower case is left as it is. */
  lemma LowerOfLower(s: string)
    requires forall k :: 0 <= k < |s| ==> !('A' <= s[k] <= 'Z')
    ensures LowerAscii(s) == s
  {
  }
}
