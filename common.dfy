/** Values shared by every part of the model: optional and fallible results,
    JSON values as Python's json module builds them, HTTP errors as FastAPI
    raises them, and the few string predicates Python's str offers. */
module Common {

  datatype Option<T> = None | Some(value: T)

  datatype Result<T, E> = Ok(value: T) | Err(error: E)

  /** A JSON value. Python keeps int and float apart, so does the model. */
  datatype Json =
    | JNull
    | JBool(b: bool)
    | JInt(i: int)
    | JFloat(f: real)
    | JStr(s: string)
    | JArr(items: seq<Json>)
    | JObj(fields: map<string, Json>)

  /** An HTTPException: status code, detail text and whether the
      `WWW-Authenticate: Bearer` challenge header is attached. */
  datatype HttpError = HttpError(status: int, detail: string, bearerChallenge: bool)

  function Error(status: int, detail: string): HttpError
  {
    HttpError(status, detail, false)
  }

  predicate IsAsciiDigit(c: char)
  {
    '0' <= c <= '9'
  }

  /** Python's `str.isdigit` restricted to ASCII: false on the empty string. */
  predicate IsDigitString(s: string)
  {
    |s| > 0 && forall i :: 0 <= i < |s| ==> IsAsciiDigit(s[i])
  }

  /** `t` occurs in `s` starting at index `i`. */
  predicate OccursAt(s: string, t: string, i: int)
  {
    0 <= i && i + |t| <= |s| && s[i..i + |t|] == t
  }

  /** Python's `t in s` for strings. */
  predicate Contains(s: string, t: string)
  {
    exists i :: 0 <= i <= |s| - |t| && OccursAt(s, t, i)
  }

  lemma ContainsMiddle(a: string, t: string, b: string)
    ensures Contains(a + t + b, t)
  {
    var s := a + t + b;
    assert s[|a|..|a| + |t|] == t;
    assert OccursAt(s, t, |a|);
  }

  /** A character absent from `s` rules out every occurrence of a `t` that holds it. */
  lemma NotContainsByChar(s: string, t: string, k: nat)
    requires k < |t|
    requires forall j :: 0 <= j < |s| ==> s[j] != t[k]
    ensures !Contains(s, t)
  {
    forall i | 0 <= i <= |s| - |t|
      ensures !OccursAt(s, t, i)
    {
      assert s[i..i + |t|][k] == s[i + k] != t[k];
    }
  }

  /** Python's `str.isspace` for one character: the characters whose
      bidirectional class is WS, B or S, or whose category is Zs. */
  predicate IsSpace(c: char)
  {
    c == ' ' || ('\t' <= c <= '\r') || ('\U{1C}' <= c <= '\U{1F}') || c == '\U{85}' ||
    c == '\U{A0}' || c == '\U{1680}' || ('\U{2000}' <= c <= '\U{200A}') ||
    c == '\U{2028}' || c == '\U{2029}' || c == '\U{202F}' || c == '\U{205F}' || c == '\U{3000}'
  }

  function LeadingSpaces(s: string): (n: nat)
    ensures n <= |s|
    ensures forall j :: 0 <= j < n ==> IsSpace(s[j])
    ensures n < |s| ==> !IsSpace(s[n])
  {
    if |s| > 0 && IsSpace(s[0]) then 1 + LeadingSpaces(s[1..]) else 0
  }

  function TrailingSpaces(s: string): (n: nat)
    ensures n <= |s|
    ensures forall j :: |s| - n <= j < |s| ==> IsSpace(s[j])
    ensures n < |s| ==> !IsSpace(s[|s| - n - 1])
  {
    if |s| > 0 && IsSpace(s[|s| - 1]) then 1 + TrailingSpaces(s[..|s| - 1]) else 0
  }

  /** Python's `str.strip()` with no argument. */
  function Strip(s: string): (r: string)
    ensures exists i, j :: (0 <= i <= j <= |s| && r == s[i..j] &&
      (forall k :: 0 <= k < i ==> IsSpace(s[k])) &&
      (forall k :: j <= k < |s| ==> IsSpace(s[k])))
    ensures r != [] ==> !IsSpace(r[0]) && !IsSpace(r[|r| - 1])
  {
    var lead := LeadingSpaces(s);
    var rest := s[lead..];
    var trail := TrailingSpaces(rest);
    assert forall k :: lead + |rest| - trail <= k < |s| ==> s[k] == rest[k - lead];
    s[lead..|s| - trail]
  }

  lemma {:induction false} StripIdempotent(s: string)
    ensures Strip(Strip(s)) == Strip(s)
  {
    var r := Strip(s);
    if r != [] {
      assert LeadingSpaces(r) == 0;
      assert TrailingSpaces(r) == 0;
    }
  }

  function DigitChar(d: nat): (c: char)
    requires d < 10
    ensures IsAsciiDigit(c)
  {
    ('0' as int + d) as char
  }

  /** The value of a decimal digit; the inverse of `DigitChar`. */
  function DigitValue(c: char): (d: nat)
    requires IsAsciiDigit(c)
    ensures d < 10 && DigitChar(d) == c
  {
    (c as int - '0' as int) as nat
  }

  /** A character of the body of an integer literal: a digit or an underscore. */
  predicate IsLiteralChar(c: char)
  {
    IsAsciiDigit(c) || c == '_'
  }

  /** The decimal value of a string of digits and underscores, the
      underscores skipped. */
  function DigitsValue(s: string): nat
    requires forall i :: 0 <= i < |s| ==> IsLiteralChar(s[i])
  {
    if s == [] then 0
    else
      var last := s[|s| - 1];
      assert IsLiteralChar(last);
      if last == '_' then DigitsValue(s[..|s| - 1])
      else 10 * DigitsValue(s[..|s| - 1]) + DigitValue(last)
  }

  /** Python's `str(n)` for a non-negative integer: its decimal digits, with
      no leading zero. */
  function NatToString(n: nat): (r: string)
    ensures IsDigitString(r)
    ensures n < 10 ==> r == [DigitChar(n)]
    ensures DigitsValue(r) == n
    ensures |r| > 1 ==> r[0] != '0'
  {
    if n < 10 then [DigitChar(n)]
    else
      var front := NatToString(n / 10);
      assert (front + [DigitChar(n % 10)])[..|front|] == front;
      front + [DigitChar(n % 10)]
  }

  /** Different numbers print differently. */
  lemma NatToStringInjective(a: nat, b: nat)
    requires NatToString(a) == NatToString(b)
    ensures a == b
  {
  }

  /** The body of a Python integer literal: digits, an underscore allowed
      only between two digits. */
  predicate IsIntegerBody(t: string)
  {
    && |t| > 0 && IsAsciiDigit(t[0]) && IsAsciiDigit(t[|t| - 1])
    && (forall i :: 0 <= i < |t| ==> IsLiteralChar(t[i]))
    && (forall i :: 0 <= i < |t| - 1 && t[i] == '_' ==> IsAsciiDigit(t[i + 1]))
  }

  /** An optional sign, then an integer body. */
  function ParseSigned(t: string): Option<int>
  {
    if |t| > 0 && (t[0] == '+' || t[0] == '-') then
      var body := t[1..];
      if IsIntegerBody(body) then Some(if t[0] == '-' then -(DigitsValue(body) as int) else DigitsValue(body))
      else None
    else if IsIntegerBody(t) then Some(DigitsValue(t))
    else None
  }

  /** Python's `int(s)` on a string: surrounding whitespace dropped, an
      optional sign, then an integer body. `None` stands for the
      ValueError any other text raises. */
  function ParseInt(s: string): Option<int>
  {
    ParseSigned(Strip(s))
  }

  /** A string with no whitespace at either end is its own strip. */
  lemma StripUnspaced(s: string)
    requires s != [] && !IsSpace(s[0]) && !IsSpace(s[|s| - 1])
    ensures Strip(s) == s
  {
    assert LeadingSpaces(s) == 0;
    assert TrailingSpaces(s) == 0;
  }

  /** A printed number is an integer body. */
  lemma PrintedIsIntegerBody(n: nat)
    ensures IsIntegerBody(NatToString(n))
    ensures !IsSpace(NatToString(n)[0]) && !IsSpace(NatToString(n)[|NatToString(n)| - 1])
  {
  }

  /** `int(str(n)) == n`. */
  lemma {:induction false} ParseIntNatToString(n: nat)
    ensures ParseInt(NatToString(n)) == Some(n)
  {
    var r := NatToString(n);
    PrintedIsIntegerBody(n);
    StripUnspaced(r);
  }

  /** `int("-" + str(n)) == -n` and `int("+" + str(n)) == n`. */
  lemma {:induction false} ParseIntSigned(n: nat, sign: char)
    requires sign == '-' || sign == '+'
    ensures ParseInt([sign] + NatToString(n)) == Some(if sign == '-' then -(n as int) else n)
  {
    var r := NatToString(n);
    var t := [sign] + r;
    PrintedIsIntegerBody(n);
    assert t[0] == sign && t[|t| - 1] == r[|r| - 1];
    StripUnspaced(t);
    assert t[1..] == r;
    assert IsIntegerBody(t[1..]);
    assert ParseSigned(t) == Some(if sign == '-' then -(n as int) else n);
  }
}
