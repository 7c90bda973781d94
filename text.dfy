/** The few Python string and integer built-ins the generators rely on,
    restricted to ASCII: `str.lower`, `str.upper`, `str.strip`, `str.title`,
    `str(int)` and `int(str)` on optionally signed decimal literals. */
module Text {
  import opened Wrappers

  predicate IsUpper(c: char) { 'A' <= c <= 'Z' }
  predicate IsLower(c: char) { 'a' <= c <= 'z' }
  /** ASCII letters are exactly the characters Python calls "cased". */
  predicate IsLetter(c: char) { IsUpper(c) || IsLower(c) }
  predicate IsDigit(c: char) { '0' <= c <= '9' }

  /** The ASCII characters for which Python's `str.isspace` holds:
      tab, line feed, vertical tab, form feed, carriage return,
      the four separators 0x1c-0x1f and the space. */
  predicate IsSpace(c: char) { 9 <= c as int <= 13 || 28 <= c as int <= 32 }

  function LowerChar(c: char): (r: char)
    ensures IsLetter(r) <==> IsLetter(c)
    ensures !IsUpper(r)
    ensures !IsUpper(c) ==> r == c
  {
    if IsUpper(c) then (c as int + 32) as char else c
  }

  function UpperChar(c: char): (r: char)
    ensures IsLetter(r) <==> IsLetter(c)
    ensures !IsLower(r)
    ensures !IsLower(c) ==> r == c
  {
    if IsLower(c) then (c as int - 32) as char else c
  }

  /** Lower-cases the ASCII letters of a string. */
  function Lower(s: string): (r: string)
    ensures |r| == |s|
    ensures forall i :: 0 <= i < |s| ==> r[i] == LowerChar(s[i])
  {
    seq(|s|, i requires 0 <= i < |s| => LowerChar(s[i]))
  }

  /** Upper-cases the ASCII letters of a string. */
  function Upper(s: string): (r: string)
    ensures |r| == |s|
    ensures forall i :: 0 <= i < |s| ==> r[i] == UpperChar(s[i])
  {
    seq(|s|, i requires 0 <= i < |s| => UpperChar(s[i]))
  }

  /** Lower-casing twice is lower-casing once. */
  lemma LowerIdempotent(s: string)
    ensures Lower(Lower(s)) == Lower(s)
  {
    forall i | 0 <= i < |s|
      ensures Lower(Lower(s))[i] == Lower(s)[i]
    {
      var c := s[i];
      if IsUpper(c) {
        assert IsLower(LowerChar(c));
      }
    }
  }

  /** `s.lstrip()`: drops the leading white space and nothing else. */
  function StripLeft(s: string): (r: string)
    ensures |r| <= |s| && r == s[|s| - |r|..]
    ensures forall j :: 0 <= j < |s| - |r| ==> IsSpace(s[j])
    ensures r == [] || !IsSpace(r[0])
  {
    if |s| > 0 && IsSpace(s[0]) then StripLeft(s[1..]) else s
  }

  /** `s.rstrip()`: drops the trailing white space and nothing else. */
  function StripRight(s: string): (r: string)
    ensures |r| <= |s| && r == s[..|r|]
    ensures forall j :: |r| <= j < |s| ==> IsSpace(s[j])
    ensures r == [] || !IsSpace(r[|r| - 1])
  {
    if |s| > 0 && IsSpace(s[|s| - 1]) then StripRight(s[..|s| - 1]) else s
  }

  /** Removes leading and trailing whitespace. */
  function Strip(s: string): string
  {
    StripRight(StripLeft(s))
  }

  /** What `strip` leaves neither starts nor ends with white space. */
  lemma StripEnds(s: string)
    ensures var r := Strip(s); r == [] || (!IsSpace(r[0]) && !IsSpace(r[|r| - 1]))
  {
    var l := StripLeft(s);
    var r := StripRight(l);
    if r != [] {
      assert r[0] == l[0];
    }
  }

  /** `strip` removes exactly a white-space prefix of length `i` and a
      white-space suffix, and nothing from the middle. */
  lemma StripIsTrim(s: string) returns (i: nat)
    ensures var r := Strip(s);
      i + |r| <= |s| && r == s[i..i + |r|]
      && (forall j :: 0 <= j < i ==> IsSpace(s[j]))
      && (forall j :: i + |r| <= j < |s| ==> IsSpace(s[j]))
  {
    var l := StripLeft(s);
    i := |s| - |l|;
  }

  /** A string that neither starts nor ends with white space is left alone. */
  lemma StripNoop(s: string)
    requires s == [] || (!IsSpace(s[0]) && !IsSpace(s[|s| - 1]))
    ensures Strip(s) == s
  {
  }

  /** Stripping twice is stripping once. */
  lemma StripIdempotent(s: string)
    ensures Strip(Strip(s)) == Strip(s)
  {
    StripEnds(s);
    StripNoop(Strip(s));
  }

  /** Python's `str.title` loop, started with the given "previous character
      was cased" flag: a letter after a letter is lower-cased, any other
      letter is upper-cased, and every other character is kept. */
  function TitleFrom(s: string, prevCased: bool): (r: string)
    ensures |r| == |s|
    ensures forall i :: 0 <= i < |s| ==>
      r[i] == if (if i == 0 then prevCased else IsLetter(s[i - 1])) then LowerChar(s[i]) else UpperChar(s[i])
  {
    if s == [] then []
    else [if prevCased then LowerChar(s[0]) else UpperChar(s[0])] + TitleFrom(s[1..], IsLetter(s[0]))
  }

  /** `s.title()`: each character is upper-cased when it does not follow a
      letter, and lower-cased when it does. */
  function Title(s: string): (r: string)
    ensures |r| == |s|
    ensures forall i :: 0 <= i < |s| ==>
      r[i] == if i > 0 && IsLetter(s[i - 1]) then LowerChar(s[i]) else UpperChar(s[i])
  {
    TitleFrom(s, false)
  }

  /** Title-casing twice is title-casing once. */
  lemma TitleIdempotent(s: string)
    ensures Title(Title(s)) == Title(s)
  {
    var t := Title(s);
    forall i | 0 <= i < |s|
      ensures Title(t)[i] == t[i]
    {
      if i > 0 {
        var p := s[i - 1];
        assert t[i - 1] == if i - 1 > 0 && IsLetter(s[i - 2]) then LowerChar(p) else UpperChar(p);
        assert IsLetter(t[i - 1]) <==> IsLetter(p);
      }
      var c := s[i];
      if IsUpper(c) {
        assert IsLower(LowerChar(c));
        assert UpperChar(UpperChar(c)) == UpperChar(c);
      } else if IsLower(c) {
        assert IsUpper(UpperChar(c));
        assert LowerChar(LowerChar(c)) == LowerChar(c);
      }
    }
  }

  /** Title-casing keeps white space where it is. */
  lemma TitleKeepsSpace(s: string, i: nat)
    requires i < |s|
    ensures IsSpace(Title(s)[i]) <==> IsSpace(s[i])
  {
    var c := s[i];
    assert Title(s)[i] == if i > 0 && IsLetter(s[i - 1]) then LowerChar(c) else UpperChar(c);
  }

  /** The normalisation applied to every item field: `s.strip().title()`. */
  function StripTitle(s: string): string
  {
    Title(Strip(s))
  }

  /** Normalising an already normalised field changes nothing. */
  lemma StripTitleIdempotent(s: string)
    ensures StripTitle(StripTitle(s)) == StripTitle(s)
  {
    var m := Strip(s);
    var t := Title(m);
    StripEnds(s);
    if t != [] {
      TitleKeepsSpace(m, 0);
      TitleKeepsSpace(m, |m| - 1);
    }
    StripNoop(t);
    TitleIdempotent(m);
  }

  predicate AllDigits(s: string) { forall i :: 0 <= i < |s| ==> IsDigit(s[i]) }

  function DigitChar(d: nat): (c: char)
    requires d < 10
    ensures IsDigit(c)
  {
    ('0' as int + d) as char
  }

  function DigitValue(c: char): (d: nat)
    requires IsDigit(c)
    ensures d < 10 && DigitChar(d) == c
  {
    c as int - '0' as int
  }

  /** The value of a string of decimal digits, most significant first. */
  function DigitsValue(ds: string): nat
    requires AllDigits(ds)
  {
    if ds == [] then 0 else 10 * DigitsValue(ds[..|ds| - 1]) + DigitValue(ds[|ds| - 1])
  }

  /** `str(n)` for a non-negative integer: a non-empty digit string
      without leading zeros that reads back as `n`. */
  function NatToDecimal(n: nat): (s: string)
    ensures |s| > 0 && AllDigits(s)
    ensures s[0] == '0' ==> n == 0 && |s| == 1
    ensures DigitsValue(s) == n
  {
    if n < 10 then [DigitChar(n)]
    else
      var prefix := NatToDecimal(n / 10);
      var s := prefix + [DigitChar(n % 10)];
      assert s[..|s| - 1] == prefix;
      s
  }

  /** `str(i)` for any integer. */
  function IntToDecimal(i: int): (s: string)
    ensures |s| > 0
    ensures s[0] == '-' <==> i < 0
  {
    if i < 0 then "-" + NatToDecimal(-i) else NatToDecimal(i)
  }

  /** The literals `int(s)` accepts here: an optional sign, then one or
      more ASCII digits. */
  predicate IsIntLiteral(s: string)
  {
    if |s| > 0 && (s[0] == '-' || s[0] == '+') then |s| > 1 && AllDigits(s[1..])
    else |s| > 0 && AllDigits(s)
  }

  /** `int(s)`; `None` stands for the `ValueError` Python raises. */
  function ParseInt(s: string): (r: Option<int>)
    ensures r.Some? <==> IsIntLiteral(s)
  {
    if |s| > 0 && (s[0] == '-' || s[0] == '+') then
      var ds := s[1..];
      if |ds| > 0 && AllDigits(ds) then
        var v: int := DigitsValue(ds);
        Some(if s[0] == '-' then -v else v)
      else None
    else if |s| > 0 && AllDigits(s) then Some(DigitsValue(s))
    else None
  }

  /** `int(str(i)) == i` for every integer. */
  lemma ParseIntRoundTrip(i: int)
    ensures ParseInt(IntToDecimal(i)) == Some(i)
  {
    if i < 0 {
      var s := IntToDecimal(i);
      assert s[1..] == NatToDecimal(-i);
    }
  }

  /** `str` is injective on integers. */
  lemma IntToDecimalInjective(i: int, j: int)
    requires IntToDecimal(i) == IntToDecimal(j)
    ensures i == j
  {
    ParseIntRoundTrip(i);
    ParseIntRoundTrip(j);
  }

  /** A JSON scalar that Python's `int()` is applied to: an integer or a string. */
  datatype IntLike = IntValue(i: int) | StrValue(s: string)

  /** `int(v)`: the identity on integers, parsing on strings. */
  function ToInt(v: IntLike): (r: Option<int>)
    ensures v.IntValue? ==> r == Some(v.i)
    ensures v.StrValue? ==> (r.Some? <==> IsIntLiteral(v.s))
  {
    match v
    case IntValue(i) => Some(i)
    case StrValue(s) => ParseInt(s)
  }

  /** The text form of an integer-like value. */
  function ToStr(v: IntLike): string
  {
    match v
    case IntValue(i) => IntToDecimal(i)
    case StrValue(s) => s
  }

  /** `int(str(v))` is `v` for an integer `v`. */
  lemma ToStrRoundTrip(v: IntLike)
    ensures v.IntValue? ==> ParseInt(ToStr(v)) == Some(v.i)
  {
    if v.IntValue? {
      ParseIntRoundTrip(v.i);
    }
  }

  /** Python truthiness of the value: `0` and `""` are false. */
  predicate Truthy(v: IntLike)
  {
    match v
    case IntValue(i) => i != 0
    case StrValue(s) => s != ""
  }

  /** Python's `a or b` for an optional string: `b` when `a` is `None` or empty. */
  function StrOr(a: Option<string>, b: string): (r: string)
    ensures a.Some? && a.value != "" ==> r == a.value
    ensures a.None? || a.value == "" ==> r == b
  {
    if a.Some? && a.value != "" then a.value else b
  }
}
