/** The Python string built-ins the to-do code relies on: `strip`, `split`, `join`,
    `lower`/`upper`/`title`/`capitalize` (ASCII letters), `str(int)` and `int(str)`. */
module PyText {
  import opened Outcomes

  /** Python's `str.isspace()` for one character. */
  predicate IsSpace(c: char) {
    || c == ' ' || ('\t' <= c <= '\r') || ('\U{1C}' <= c <= '\U{1F}')
    || c == '\U{85}' || c == '\U{A0}' || c == '\U{1680}' || ('\U{2000}' <= c <= '\U{200A}')
    || c == '\U{2028}' || c == '\U{2029}' || c == '\U{202F}' || c == '\U{205F}' || c == '\U{3000}'
  }

  predicate AllSpace(s: string) {
    forall i :: 0 <= i < |s| ==> IsSpace(s[i])
  }

  /** Neither end of `s` is whitespace (vacuously true of ""). */
  predicate Trimmed(s: string) {
    s == [] || (!IsSpace(s[0]) && !IsSpace(s[|s| - 1]))
  }

  predicate IsDigit(c: char) {
    '0' <= c <= '9'
  }

  predicate AllDigits(s: string) {
    forall i :: 0 <= i < |s| ==> IsDigit(s[i])
  }

  predicate IsUpperAscii(c: char) {
    'A' <= c <= 'Z'
  }

  predicate IsLowerAscii(c: char) {
    'a' <= c <= 'z'
  }

  /** A cased character in the sense of `str.title()` (ASCII letters only). */
  predicate IsLetter(c: char) {
    IsUpperAscii(c) || IsLowerAscii(c)
  }

  // ---------------------------------------------------------------- stripping

  /** `s.lstrip()`: drops the leading whitespace and nothing else. */
  function LStrip(s: string): (r: string)
    ensures |r| <= |s| && r == s[|s| - |r|..]
    ensures AllSpace(s[..|s| - |r|])
    ensures r != [] ==> !IsSpace(r[0])
  {
    if s != [] && IsSpace(s[0]) then
      var r := LStrip(s[1..]);
      assert s[..|s| - |r|] == [s[0]] + s[1..][..|s| - 1 - |r|];
      r
    else s
  }

  /** `s.rstrip()`: drops the trailing whitespace and nothing else. */
  function RStrip(s: string): (r: string)
    ensures |r| <= |s| && r == s[..|r|]
    ensures AllSpace(s[|r|..])
    ensures r != [] ==> !IsSpace(r[|r| - 1])
  {
    if s != [] && IsSpace(s[|s| - 1]) then
      var r := RStrip(s[..|s| - 1]);
      assert s[|r|..] == s[..|s| - 1][|r|..] + [s[|s| - 1]];
      r
    else s
  }

  /** `s.strip()`. */
  function Strip(s: string): (r: string)
    ensures Trimmed(r)
    ensures r == [] <==> AllSpace(s)
  {
    var l := LStrip(s);
    var r := RStrip(l);
    assert r == [] ==> AllSpace(s) by {
      if r == [] {
        assert l == [] by { assert l[|r|..] == l; }
        assert s == s[..|s| - |l|];
      }
    }
    assert r != [] ==> !IsSpace(r[0]) by {
      if r != [] { assert r[0] == l[0]; }
    }
    r
  }

  /** Stripping a string whose ends are not whitespace changes nothing. */
  lemma StripTrimmed(s: string)
    requires Trimmed(s)
    ensures Strip(s) == s
  {
    assert LStrip(s) == s;
    assert RStrip(s) == s;
  }

  /** `s.strip()` is idempotent. */
  lemma StripIdempotent(s: string)
    ensures Strip(Strip(s)) == Strip(s)
  {
    StripTrimmed(Strip(s));
  }

  /** The first element of `s.split()`, or None where `s.split()[0]` raises IndexError
      (`s` empty or only whitespace). */
  function FirstToken(s: string): (r: Option<string>)
    ensures r.None? <==> AllSpace(s)
    ensures r.Some? ==> r.value != [] && forall i :: 0 <= i < |r.value| ==> !IsSpace(r.value[i])
  {
    var l := LStrip(s);
    if l == [] then
      assert s == s[..|s| - |l|];
      None
    else
      Some(TakeWord(l))
  }

  /** The longest prefix of `s` without whitespace. */
  function TakeWord(s: string): (r: string)
    ensures |r| <= |s| && r == s[..|r|]
    ensures forall i :: 0 <= i < |r| ==> !IsSpace(r[i])
    ensures |r| < |s| ==> IsSpace(s[|r|])
  {
    if s == [] || IsSpace(s[0]) then [] else [s[0]] + TakeWord(s[1..])
  }

  /** A word without whitespace is its own first token. */
  lemma FirstTokenOfWord(w: string)
    requires w != [] && forall i :: 0 <= i < |w| ==> !IsSpace(w[i])
    ensures FirstToken(w) == Some(w)
  {
    assert LStrip(w) == w;
    TakeWordAll(w);
  }

  lemma {:induction false} TakeWordAll(w: string)
    requires forall i :: 0 <= i < |w| ==> !IsSpace(w[i])
    ensures TakeWord(w) == w
  {
    if w != [] {
      TakeWordAll(w[1..]);
    }
  }

  // --------------------------------------------------------- split and join

  /** `s.split(sep)` for a one-character separator: never empty, "" gives [""]. */
  function SplitOn(s: string, sep: char): (r: seq<string>)
    ensures |r| > 0
  {
    if s == [] then [""]
    else
      var rest := SplitOn(s[1..], sep);
      if s[0] == sep then [""] + rest else [[s[0]] + rest[0]] + rest[1..]
  }

  /** `sep.join(parts)`. */
  function Join(parts: seq<string>, sep: char): string
  {
    if parts == [] then ""
    else if |parts| == 1 then parts[0]
    else parts[0] + [sep] + Join(parts[1..], sep)
  }

  lemma {:induction false} SplitNoSep(a: string, sep: char)
    requires sep !in a
    ensures SplitOn(a, sep) == [a]
  {
    if a != [] {
      SplitNoSep(a[1..], sep);
      assert [a[0]] + a[1..] == a;
    }
  }

  lemma {:induction false} SplitAfterPiece(a: string, b: string, sep: char)
    requires sep !in a
    ensures SplitOn(a + [sep] + b, sep) == [a] + SplitOn(b, sep)
  {
    if a == [] {
      assert a + [sep] + b == [sep] + b;
      assert ([sep] + b)[1..] == b;
    } else {
      assert (a + [sep] + b)[1..] == a[1..] + [sep] + b;
      SplitAfterPiece(a[1..], b, sep);
      assert [a[0]] + a[1..] == a;
    }
  }

  /** Splitting on the separator undoes joining pieces that do not contain it. */
  lemma {:induction false} SplitJoin(parts: seq<string>, sep: char)
    requires parts != []
    requires forall i :: 0 <= i < |parts| ==> sep !in parts[i]
    ensures SplitOn(Join(parts, sep), sep) == parts
  {
    if |parts| == 1 {
      SplitNoSep(parts[0], sep);
    } else {
      SplitJoin(parts[1..], sep);
      SplitAfterPiece(parts[0], Join(parts[1..], sep), sep);
      assert [parts[0]] + parts[1..] == parts;
    }
  }

  // ------------------------------------------------------------------ casing

  function LowerChar(c: char): char {
    if IsUpperAscii(c) then (c as int + 32) as char else c
  }

  function UpperChar(c: char): char {
    if IsLowerAscii(c) then (c as int - 32) as char else c
  }

  /** `s.lower()` on ASCII letters. */
  function Lower(s: string): (r: string)
    ensures |r| == |s|
    ensures forall i :: 0 <= i < |s| ==> !IsUpperAscii(r[i]) && IsLetter(r[i]) == IsLetter(s[i])
  {
    if s == [] then [] else [LowerChar(s[0])] + Lower(s[1..])
  }

  /** `s.lower()` is idempotent. */
  lemma {:induction false} LowerIdempotent(s: string)
    ensures Lower(Lower(s)) == Lower(s)
  {
    if s != [] {
      LowerIdempotent(s[1..]);
    }
  }

  /** `s.upper()` on ASCII letters. */
  function Upper(s: string): (r: string)
    ensures |r| == |s|
    ensures forall i :: 0 <= i < |s| ==> !IsLowerAscii(r[i]) && IsLetter(r[i]) == IsLetter(s[i])
  {
    if s == [] then [] else [UpperChar(s[0])] + Upper(s[1..])
  }

  /** `s.title()` on ASCII letters: a letter is upper-cased when the character before it is
      not a letter, lower-cased otherwise; other characters are kept. */
  function Title(s: string): string {
    TitleAfter(s, false)
  }

  function TitleAfter(s: string, prevLetter: bool): (r: string)
    ensures |r| == |s|
    ensures forall i :: 0 <= i < |s| ==> IsLetter(r[i]) == IsLetter(s[i])
  {
    if s == [] then []
    else
      var c := s[0];
      var c' := if !IsLetter(c) then c else if prevLetter then LowerChar(c) else UpperChar(c);
      [c'] + TitleAfter(s[1..], IsLetter(c))
  }

  /** A title-cased word starts with an upper-case letter and continues in lower case. */
  lemma {:induction false} TitleShape(s: string, prevLetter: bool, i: nat)
    requires i < |s| && IsLetter(s[i])
    ensures var r := TitleAfter(s, prevLetter);
      if (if i == 0 then prevLetter else IsLetter(s[i - 1])) then IsLowerAscii(r[i]) else IsUpperAscii(r[i])
  {
    if i > 0 {
      TitleShape(s[1..], IsLetter(s[0]), i - 1);
    }
  }

  /** `s.title()` is idempotent. */
  lemma {:induction false} TitleIdempotent(s: string, prevLetter: bool)
    ensures TitleAfter(TitleAfter(s, prevLetter), prevLetter) == TitleAfter(s, prevLetter)
  {
    if s != [] {
      TitleIdempotent(s[1..], IsLetter(s[0]));
    }
  }

  /** `s.capitalize()` on ASCII letters: first character upper-cased, the rest lower-cased. */
  function Capitalize(s: string): (r: string)
    ensures |r| == |s|
  {
    if s == [] then [] else [UpperChar(s[0])] + Lower(s[1..])
  }

  // ----------------------------------------------------------------- numbers

  function DigitChar(d: nat): (c: char)
    requires d < 10
    ensures IsDigit(c)
  {
    ('0' as int + d) as char
  }

  function DigitValue(c: char): (d: nat)
    requires IsDigit(c)
    ensures d < 10 && DigitChar(d) == c
  {
    c as int - '0' as int
  }

  /** `str(n)` for a natural number: decimal digits, no leading zeros. */
  function NatToString(n: nat): (r: string)
    ensures r != [] && AllDigits(r)
  {
    if n < 10 then [DigitChar(n)] else NatToString(n / 10) + [DigitChar(n % 10)]
  }

  /** `str(i)` for an int. */
  function IntToString(i: int): (r: string)
    ensures r != [] && Trimmed(r)
    ensures forall k :: 0 <= k < |r| ==> !IsSpace(r[k])
  {
    if i < 0 then "-" + NatToString(-i) else NatToString(i)
  }

  /** The value of a string of decimal digits. */
  function DigitsValue(ds: string): nat
    requires AllDigits(ds)
  {
    if ds == [] then 0 else DigitsValue(ds[..|ds| - 1]) * 10 + DigitValue(ds[|ds| - 1])
  }

  lemma {:induction false} NatToStringValue(n: nat)
    ensures DigitsValue(NatToString(n)) == n
  {
    if n >= 10 {
      NatToStringValue(n / 10);
      var s := NatToString(n);
      assert s[..|s| - 1] == NatToString(n / 10);
    }
  }

  /** Digits with single underscores between them, as `int()` accepts ("1_000"). */
  predicate UnderscoredDigits(s: string) {
    && s != []
    && IsDigit(s[0]) && IsDigit(s[|s| - 1])
    && (forall i :: 0 <= i < |s| ==> IsDigit(s[i]) || s[i] == '_')
    && (forall i :: 0 <= i < |s| - 1 ==> s[i] == '_' ==> s[i + 1] != '_')
  }

  function RemoveUnderscores(s: string): (r: string)
    requires forall i :: 0 <= i < |s| ==> IsDigit(s[i]) || s[i] == '_'
    ensures AllDigits(r)
  {
    if s == [] then []
    else if s[0] == '_' then RemoveUnderscores(s[1..])
    else [s[0]] + RemoveUnderscores(s[1..])
  }

  lemma {:induction false} RemoveUnderscoresOfDigits(s: string)
    requires AllDigits(s)
    ensures RemoveUnderscores(s) == s
  {
    if s != [] {
      RemoveUnderscoresOfDigits(s[1..]);
    }
  }

  /** CPython's default limit on the digits of an integer read from or written as decimal
      text; longer text makes `int()` (and `str()`) raise ValueError. */
  const MaxStrDigits: nat := 4300

  /** An unsigned digit string as `int()` reads it; underscores do not count towards the limit. */
  function ParseUnsigned(s: string): Option<nat> {
    if UnderscoredDigits(s) && |RemoveUnderscores(s)| <= MaxStrDigits then Some(DigitsValue(RemoveUnderscores(s)))
    else None
  }

  /** Python's `int(s)` for base-10 ASCII input: surrounding whitespace, an optional sign,
      digits with single underscores between them. None where `int(s)` raises ValueError. */
  function ParseInt(s: string): Option<int> {
    ParseSigned(Strip(s))
  }

  /** `int()` on an already stripped string. */
  function ParseSigned(t: string): Option<int> {
    if t == [] then None
    else if t[0] == '-' then
      match ParseUnsigned(t[1..])
      case None => None
      case Some(n) => Some(-(n as int))
    else if t[0] == '+' then
      match ParseUnsigned(t[1..])
      case None => None
      case Some(n) => Some(n)
    else
      match ParseUnsigned(t)
      case None => None
      case Some(n) => Some(n)
  }

  lemma ParseUnsignedNatToString(n: nat)
    requires |NatToString(n)| <= MaxStrDigits
    ensures ParseUnsigned(NatToString(n)) == Some(n)
  {
    var s := NatToString(n);
    RemoveUnderscoresOfDigits(s);
    NatToStringValue(n);
  }

  /** The digits of `str(i)`, without its sign. */
  function Magnitude(i: int): nat {
    if i < 0 then -i else i
  }

  /** `int(str(i)) == i`, for every `i` whose `str()` does not itself exceed the digit limit. */
  lemma ParseIntToString(i: int)
    requires |NatToString(Magnitude(i))| <= MaxStrDigits
    ensures ParseInt(IntToString(i)) == Some(i)
  {
    StripTrimmed(IntToString(i));
    ParseSignedIntToString(i);
  }

  /** `str(i)` has the sign and digits `int()` reads back. */
  lemma ParseSignedIntToString(i: int)
    requires |NatToString(Magnitude(i))| <= MaxStrDigits
    ensures ParseSigned(IntToString(i)) == Some(i)
  {
    if i < 0 {
      ParseSignedNegative(-i);
    } else {
      ParseSignedNat(i);
    }
  }

  lemma ParseSignedNegative(n: nat)
    requires |NatToString(n)| <= MaxStrDigits
    ensures ParseSigned("-" + NatToString(n)) == Some(-(n as int))
  {
    var t := NatToString(n);
    assert ("-" + t)[0] == '-' && ("-" + t)[1..] == t;
    ParseUnsignedNatToString(n);
  }

  lemma ParseSignedNat(n: nat)
    requires |NatToString(n)| <= MaxStrDigits
    ensures ParseSigned(NatToString(n)) == Some(n)
  {
    var t := NatToString(n);
    assert IsDigit(t[0]);
    ParseUnsignedNatToString(n);
  }

  /** A plain run of more digits than the limit is refused, whatever its value: `int()`
      raises ValueError on it even where the number itself is small ("000…03"). */
  lemma ParseIntTooLong(s: string)
    requires AllDigits(s) && |s| > MaxStrDigits
    ensures ParseInt(s) == None
  {
    assert Trimmed(s) by {
      assert !IsSpace(s[0]) && !IsSpace(s[|s| - 1]);
    }
    StripTrimmed(s);
    RemoveUnderscoresOfDigits(s);
  }

  function Pow10(k: nat): (p: nat)
    ensures p >= 1
  {
    if k == 0 then 1 else 10 * Pow10(k - 1)
  }

  /** A number below 10^k prints in at most k digits. */
  lemma {:induction false} NatToStringLength(n: nat, k: nat)
    requires 0 < k && n < Pow10(k)
    ensures |NatToString(n)| <= k
  {
    if n >= 10 {
      assert k >= 2;
      assert n / 10 < Pow10(k - 1);
      NatToStringLength(n / 10, k - 1);
    }
  }
}
