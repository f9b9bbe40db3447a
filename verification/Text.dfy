/** The string operations the source relies on, restricted to ASCII:
    `str.lower`, `str.title`, `str.replace` of one character, the decimal
    rendering of a `nat` by `str()`/`format`, and `str()` of a bool and of
    an optional value (`None` prints as "None"). */
module Text {
  import opened Common

  predicate IsUpper(c: char) { 'A' <= c <= 'Z' }

  predicate IsLower(c: char) { 'a' <= c <= 'z' }

  /** A character Python's `str.title` treats as cased. */
  predicate IsLetter(c: char) { IsUpper(c) || IsLower(c) }

  predicate IsDigit(c: char) { '0' <= c <= '9' }

  function LowerChar(c: char): (r: char)
    ensures !IsUpper(r)
    ensures IsLetter(r) <==> IsLetter(c)
    ensures !IsLetter(c) ==> r == c
  {
    if IsUpper(c) then (c as int - 'A' as int + 'a' as int) as char else c
  }

  function UpperChar(c: char): (r: char)
    ensures !IsLower(r)
    ensures IsLetter(r) <==> IsLetter(c)
    ensures !IsLetter(c) ==> r == c
    ensures LowerChar(r) == LowerChar(c)
  {
    if IsLower(c) then (c as int - 'a' as int + 'A' as int) as char else c
  }

  /** `s.lower()`. */
  function Lower(s: string): (r: string)
    ensures |r| == |s|
    ensures forall i :: 0 <= i < |r| ==> !IsUpper(r[i])
    ensures forall i :: 0 <= i < |r| ==> (IsLetter(r[i]) <==> IsLetter(s[i]))
    ensures forall i :: 0 <= i < |r| && !IsLetter(s[i]) ==> r[i] == s[i]
    ensures forall i :: 0 <= i < |r| ==> r[i] == LowerChar(s[i])
  {
    if s == [] then [] else [LowerChar(s[0])] + Lower(s[1..])
  }

  /** `s.title()`: a letter that follows a letter is lowered, any other
      letter is raised; other characters are kept. */
  function Title(s: string): (r: string)
  {
    TitleAfter(s, false)
  }

  function TitleAfter(s: string, previousCased: bool): (r: string)
    ensures |r| == |s|
    ensures forall i :: 0 <= i < |r| && !IsLetter(s[i]) ==> r[i] == s[i]
    ensures forall i :: 0 <= i < |r| ==> LowerChar(r[i]) == LowerChar(s[i])
  {
    if s == [] then []
    else
      [if previousCased then LowerChar(s[0]) else UpperChar(s[0])]
      + TitleAfter(s[1..], IsLetter(s[0]))
  }

  /** Title-casing a title-cased string changes nothing. */
  lemma {:induction false} TitleIdempotent(s: string, previousCased: bool)
    ensures TitleAfter(TitleAfter(s, previousCased), previousCased) == TitleAfter(s, previousCased)
  {
    if s != [] {
      var t := TitleAfter(s, previousCased);
      assert t[1..] == TitleAfter(s[1..], IsLetter(s[0]));
      assert IsLetter(t[0]) <==> IsLetter(s[0]);
      TitleIdempotent(s[1..], IsLetter(s[0]));
    }
  }

  /** In a title-cased string every letter that starts a run of letters is
      upper case and every other letter is lower case. */
  lemma {:induction false} TitleShape(s: string, previousCased: bool, i: nat)
    requires i < |s| && IsLetter(s[i])
    ensures var r := TitleAfter(s, previousCased);
            var startsRun := if i == 0 then !previousCased else !IsLetter(s[i - 1]);
            (startsRun ==> IsUpper(r[i])) && (!startsRun ==> IsLower(r[i]))
  {
    if i > 0 {
      TitleShape(s[1..], IsLetter(s[0]), i - 1);
    }
  }

  /** `s.replace(from, to)` for one character. */
  function ReplaceChar(s: string, from: char, to: char): (r: string)
    ensures |r| == |s|
    ensures from != to ==> from !in r
    ensures forall i :: 0 <= i < |s| ==> r[i] == (if s[i] == from then to else s[i])
  {
    if s == [] then [] else [if s[0] == from then to else s[0]] + ReplaceChar(s[1..], from, to)
  }

  /** `s.replace(c, '')`. */
  function RemoveChar(s: string, c: char): (r: string)
    ensures c !in r
    ensures |r| <= |s|
    ensures c !in s ==> r == s
    ensures forall x :: x in r ==> x in s
    ensures |s| == 1 ==> r == (if s[0] == c then [] else s)
  {
    if s == [] then [] else (if s[0] == c then [] else [s[0]]) + RemoveChar(s[1..], c)
  }

  /** Removing works piece by piece, so the characters that stay keep their
      order: `(a + b).replace(c, '')` is `a.replace(c, '') + b.replace(c, '')`. */
  lemma {:induction false} RemoveCharAppend(a: string, b: string, c: char)
    ensures RemoveChar(a + b, c) == RemoveChar(a, c) + RemoveChar(b, c)
  {
    if a == [] {
      assert a + b == b;
    } else {
      var head := if a[0] == c then [] else [a[0]];
      calc {
        RemoveChar(a + b, c);
      == { assert (a + b)[0] == a[0] && (a + b)[1..] == a[1..] + b; RemoveCharFirst(a + b, c); }
        head + RemoveChar(a[1..] + b, c);
      == { RemoveCharAppend(a[1..], b, c); }
        head + (RemoveChar(a[1..], c) + RemoveChar(b, c));
      == { RemoveCharFirst(a, c); }
        RemoveChar(a, c) + RemoveChar(b, c);
      }
    }
  }

  lemma RemoveCharFirst(s: string, c: char)
    requires s != []
    ensures RemoveChar(s, c) == (if s[0] == c then [] else [s[0]]) + RemoveChar(s[1..], c)
  {
  }

  function DigitChar(d: nat): (c: char)
    requires d < 10
    ensures IsDigit(c)
  {
    ('0' as int + d) as char
  }

  function DigitValue(c: char): (d: nat)
    requires IsDigit(c)
    ensures d < 10 && DigitChar(d) == c
  {
    c as int - '0' as int
  }

  /** `str(n)` for a natural number. */
  function Decimal(n: nat): (r: string)
    ensures |r| > 0
    ensures forall i :: 0 <= i < |r| ==> IsDigit(r[i])
    ensures r[0] == '0' ==> n == 0
  {
    if n < 10 then [DigitChar(n)] else Decimal(n / 10) + [DigitChar(n % 10)]
  }

  /** Reads a string of digits back as a number (the inverse of Decimal). */
  function ParseDecimal(s: string): (n: nat)
    requires forall i :: 0 <= i < |s| ==> IsDigit(s[i])
  {
    if s == [] then 0 else ParseDecimal(s[..|s| - 1]) * 10 + DigitValue(s[|s| - 1])
  }

  lemma {:induction false} DecimalRoundTrip(n: nat)
    ensures ParseDecimal(Decimal(n)) == n
  {
    if n >= 10 {
      var s := Decimal(n);
      assert s[..|s| - 1] == Decimal(n / 10);
      DecimalRoundTrip(n / 10);
    }
  }

  /** Distinct numbers print differently. */
  lemma DecimalInjective(m: nat, n: nat)
    requires Decimal(m) == Decimal(n)
    ensures m == n
  {
    DecimalRoundTrip(m);
    DecimalRoundTrip(n);
  }

  /** `str(b)` for a Python bool. */
  function BoolStr(b: bool): (r: string)
    ensures b ==> r == "True"
    ensures !b ==> r == "False"
    ensures r == "True" <==> b
  {
    if b then "True" else "False"
  }

  /** `str(v)` for a value that may be None. */
  function OptionStr(v: Option<string>): (r: string)
    ensures v.Some? ==> r == v.value
    ensures v.None? ==> r == "None"
  {
    match v
    case None => "None"
    case Some(s) => s
  }

  /** `separator.join(parts)`. */
  function Join(parts: seq<string>, separator: string): (r: string)
    ensures parts == [] ==> r == ""
    ensures |parts| == 1 ==> r == parts[0]
  {
    if parts == [] then ""
    else if |parts| == 1 then parts[0]
    else parts[0] + separator + Join(parts[1..], separator)
  }

  /** Joining one more part puts the separator and the part at the end. */
  lemma {:induction false} JoinAppend(parts: seq<string>, part: string, separator: string)
    requires parts != []
    ensures Join(parts + [part], separator) == Join(parts, separator) + separator + part
  {
    if |parts| > 1 {
      assert (parts + [part])[1..] == parts[1..] + [part];
      JoinAppend(parts[1..], part, separator);
    }
  }
}
