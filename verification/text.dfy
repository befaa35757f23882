/** The string operations the pages rely on: `toLowerCase`, `includes`,
    `trim`, `substring`, the string ordering used for sorting, and the
    decimal rendering of numbers that `toString` and template literals do,
    and `parseInt` in base 10. */
module Text {
  import opened Basics

  /** `toLowerCase` on one character (ASCII letters only). */
  function LowerChar(c: char): char
  {
    if 'A' <= c <= 'Z' then (c as int + 32) as char else c
  }

  function Lower(s: string): (r: string)
    ensures |r| == |s|
    ensures forall i :: 0 <= i < |s| ==> r[i] == LowerChar(s[i])
  {
    if s == [] then [] else [LowerChar(s[0])] + Lower(s[1..])
  }

  predicate IsPrefix(p: string, s: string)
  {
    |p| <= |s| && s[..|p|] == p
  }

  /** `s.includes(q)`, searching from the left. */
  predicate Includes(s: string, q: string)
    decreases |s|
  {
    IsPrefix(q, s) || (|s| > 0 && Includes(s[1..], q))
  }

  /** `q` occurs in `s` starting at index `i`. */
  ghost predicate OccursAt(s: string, q: string, i: int)
  {
    0 <= i && i + |q| <= |s| && s[i..i + |q|] == q
  }

  lemma {:induction false} OccursIncludes(s: string, q: string, i: int)
    requires OccursAt(s, q, i)
    ensures Includes(s, q)
    decreases |s|
  {
    if i == 0 {
      assert s[..|q|] == q;
    } else {
      assert s[1..][i - 1..i - 1 + |q|] == s[i..i + |q|];
      OccursIncludes(s[1..], q, i - 1);
    }
  }

  lemma {:induction false} IncludesOccurs(s: string, q: string)
    requires Includes(s, q)
    ensures exists i :: OccursAt(s, q, i)
    decreases |s|
  {
    if IsPrefix(q, s) {
      assert OccursAt(s, q, 0);
    } else {
      IncludesOccurs(s[1..], q);
      var i :| OccursAt(s[1..], q, i);
      assert s[i + 1..i + 1 + |q|] == s[1..][i..i + |q|];
      assert OccursAt(s, q, i + 1);
    }
  }

  /** The search agrees with the textbook definition of a substring. */
  lemma IncludesIffOccurs(s: string, q: string)
    ensures Includes(s, q) <==> exists i :: OccursAt(s, q, i)
  {
    if Includes(s, q) {
      IncludesOccurs(s, q);
    }
    forall i | OccursAt(s, q, i)
      ensures Includes(s, q)
    {
      OccursIncludes(s, q, i);
    }
  }

  /** The empty query is found in every string. */
  lemma IncludesEmpty(s: string)
    ensures Includes(s, "")
  {
    assert IsPrefix("", s);
  }

  /** The characters `String.prototype.trim` removes: white space and line
      terminators. */
  predicate IsSpace(c: char)
  {
    || c == ' ' || c == '\t' || c == '\n' || c == '\r'
    || c == '\U{000B}' || c == '\U{000C}' || c == '\U{00A0}' || c == '\U{1680}'
    || ('\U{2000}' <= c <= '\U{200A}')
    || c == '\U{2028}' || c == '\U{2029}' || c == '\U{202F}' || c == '\U{205F}'
    || c == '\U{3000}' || c == '\U{FEFF}'
  }

  /** `s.trimStart()`. */
  function TrimStart(s: string): string
  {
    if s != [] && IsSpace(s[0]) then TrimStart(s[1..]) else s
  }

  /** What `trimStart` removes is a run of white space at the front, and
      what it keeps does not start with white space. */
  lemma {:induction false} TrimStartFacts(s: string)
    ensures |TrimStart(s)| <= |s|
    ensures TrimStart(s) == s[|s| - |TrimStart(s)|..]
    ensures TrimStart(s) != [] ==> !IsSpace(TrimStart(s)[0])
    ensures forall i :: 0 <= i < |s| - |TrimStart(s)| ==> IsSpace(s[i])
    decreases |s|
  {
    if s != [] && IsSpace(s[0]) {
      TrimStartFacts(s[1..]);
    }
  }

  function TrimEnd(s: string): (r: string)
    ensures |r| <= |s|
    ensures r == s[..|r|]
    ensures r != [] ==> !IsSpace(r[|r| - 1])
    ensures forall i :: |r| <= i < |s| ==> IsSpace(s[i])
  {
    if s != [] && IsSpace(s[|s| - 1]) then TrimEnd(s[..|s| - 1]) else s
  }

  /** `s.trim()`. */
  function Trim(s: string): string
  {
    TrimEnd(TrimStart(s))
  }

  /** A trimmed string is empty exactly when the string is all white space. */
  lemma TrimEmptyIffBlank(s: string)
    ensures Trim(s) == "" <==> forall i :: 0 <= i < |s| ==> IsSpace(s[i])
  {
    var t := TrimStart(s);
    TrimStartFacts(s);
    if t != [] {
      assert t[0] == s[|s| - |t|];
      assert TrimEnd(t) != [] by {
        assert !IsSpace(t[0]);
      }
    }
  }

  /** `s.substring(0, n)`. */
  function Prefix(s: string, n: nat): (r: string)
    ensures |r| == if n <= |s| then n else |s|
    ensures IsPrefix(r, s)
  {
    if n <= |s| then s[..n] else s
  }

  /** The sign of a string comparison: negative, zero or positive as `a`
      comes before, equals or comes after `b` in code-unit order. */
  function Compare(a: string, b: string): int
    decreases |a|
  {
    if a == [] && b == [] then 0
    else if a == [] then -1
    else if b == [] then 1
    else if a[0] < b[0] then -1
    else if a[0] > b[0] then 1
    else Compare(a[1..], b[1..])
  }

  lemma {:induction false} CompareAntisymmetric(a: string, b: string)
    ensures Compare(a, b) == -Compare(b, a)
    decreases |a|
  {
    if a != [] && b != [] && a[0] == b[0] {
      CompareAntisymmetric(a[1..], b[1..]);
    }
  }

  lemma {:induction false} CompareZeroIffEqual(a: string, b: string)
    ensures Compare(a, b) == 0 <==> a == b
    decreases |a|
  {
    if a != [] && b != [] && a[0] == b[0] {
      CompareZeroIffEqual(a[1..], b[1..]);
      assert a == [a[0]] + a[1..] && b == [b[0]] + b[1..];
    }
  }

  lemma {:induction false} CompareTransitive(a: string, b: string, c: string)
    requires Compare(a, b) <= 0 && Compare(b, c) <= 0
    ensures Compare(a, c) <= 0
    decreases |a|
  {
    if a != [] && b != [] && c != [] && a[0] == b[0] && b[0] == c[0] {
      CompareTransitive(a[1..], b[1..], c[1..]);
    }
  }

  function Digit(d: int): char
    requires 0 <= d < 10
  {
    "0123456789"[d]
  }

  function NatText(n: nat): (r: string)
    ensures |r| > 0
  {
    if n < 10 then [Digit(n)] else NatText(n / 10) + [Digit(n % 10)]
  }

  /** `String(n)` for an integer. */
  function IntText(n: int): (r: string)
    ensures |r| > 0
  {
    if n < 0 then "-" + NatText(-n) else NatText(n)
  }

  /** `String(x)` for an amount `x` given in minor units: the whole part,
      then a fraction without trailing zeros. */
  function MoneyText(cents: int): (r: string)
    ensures |r| > 0
  {
    var a := if cents < 0 then -cents else cents;
    var sign := if cents < 0 then "-" else "";
    var whole := NatText(a / 100);
    var frac := a % 100;
    sign + whole
      + (if frac == 0 then ""
         else if frac % 10 == 0 then "." + [Digit(frac / 10)]
         else "." + [Digit(frac / 10), Digit(frac % 10)])
  }

  predicate IsDigit(c: char)
  {
    '0' <= c <= '9'
  }

  function DigitValue(c: char): nat
    requires IsDigit(c)
  {
    c as int - '0' as int
  }

  /** The longest prefix of `s` made of decimal digits. */
  function DigitRun(s: string): (r: string)
    ensures IsPrefix(r, s)
    ensures forall i :: 0 <= i < |r| ==> IsDigit(r[i])
    ensures |r| < |s| ==> !IsDigit(s[|r|])
  {
    if s != [] && IsDigit(s[0]) then [s[0]] + DigitRun(s[1..]) else []
  }

  /** The value of a string of decimal digits, most significant first. */
  function DigitsValue(ds: string): nat
    requires forall i :: 0 <= i < |ds| ==> IsDigit(ds[i])
  {
    if ds == [] then 0
    else DigitsValue(ds[..|ds| - 1]) * 10 + DigitValue(ds[|ds| - 1])
  }

  /** What follows an optional leading sign. */
  function Unsigned(t: string): (r: string)
    ensures t != [] && (t[0] == '-' || t[0] == '+') ==> r == t[1..]
    ensures t == [] || (t[0] != '-' && t[0] != '+') ==> r == t
  {
    if t != [] && (t[0] == '-' || t[0] == '+') then t[1..] else t
  }

  /** `parseInt(s)` in base 10: leading white space, an optional sign, then
      the longest run of digits; `None` (NaN) when there is no digit. */
  function ParseInt(s: string): (r: Option<int>)
    ensures r.None? <==> DigitRun(Unsigned(TrimStart(s))) == []
  {
    ParseSigned(TrimStart(s))
  }

  /** The same, once the leading white space is gone. */
  function ParseSigned(t: string): (r: Option<int>)
    ensures r.None? <==> DigitRun(Unsigned(t)) == []
  {
    var ds := DigitRun(Unsigned(t));
    if ds == [] then None
    else if t[0] == '-' then Some(-(DigitsValue(ds) as int))
    else Some(DigitsValue(ds))
  }

  lemma TrimStartNoSpace(s: string)
    requires s != [] && !IsSpace(s[0])
    ensures TrimStart(s) == s
  {
  }

  lemma {:induction false} NatTextDigits(n: nat)
    ensures forall i :: 0 <= i < |NatText(n)| ==> IsDigit(NatText(n)[i])
    ensures DigitsValue(NatText(n)) == n
  {
    if n >= 10 {
      NatTextDigits(n / 10);
      var t := NatText(n / 10) + [Digit(n % 10)];
      assert t[..|t| - 1] == NatText(n / 10);
    }
  }

  lemma {:induction false} DigitRunOfDigits(ds: string)
    requires forall i :: 0 <= i < |ds| ==> IsDigit(ds[i])
    ensures DigitRun(ds) == ds
  {
    if ds != [] {
      DigitRunOfDigits(ds[1..]);
    }
  }

  /** `parseInt(String(n)) == n`, and `parseInt('')` is NaN. */
  lemma ParseIntText(n: int)
    ensures ParseInt(IntText(n)) == Some(n)
    ensures ParseInt("") == None
  {
    if n < 0 {
      ParseNegative(n);
    } else {
      ParseDigits(n);
    }
  }

  lemma ParseDigits(m: nat)
    ensures ParseInt(NatText(m)) == Some(m)
  {
    NatTextDigits(m);
    ParseUnsigned(NatText(m));
  }

  lemma ParseNegative(n: int)
    requires n < 0
    ensures ParseInt(IntText(n)) == Some(n)
  {
    NatTextDigits(-n);
    MinusSplits(NatText(-n));
    ParseMinus(IntText(n), NatText(-n));
  }

  /** A run of digits parses to its value. */
  lemma ParseUnsigned(ds: string)
    requires ds != [] && forall i :: 0 <= i < |ds| ==> IsDigit(ds[i])
    ensures ParseInt(ds) == Some(DigitsValue(ds) as int)
  {
    TrimStartNoSpace(ds);
    DigitRunOfDigits(ds);
    assert Unsigned(ds) == ds;
  }

  /** A minus sign before a run of digits negates its value. */
  lemma ParseMinus(s: string, ds: string)
    requires ds != [] && forall i :: 0 <= i < |ds| ==> IsDigit(ds[i])
    requires s != [] && s[0] == '-' && s[1..] == ds
    ensures ParseInt(s) == Some(-(DigitsValue(ds) as int))
  {
    TrimStartNoSpace(s);
    SignedMinus(s, ds, DigitsValue(ds));
  }

  lemma SignedMinus(s: string, ds: string, v: int)
    requires ds != [] && forall i :: 0 <= i < |ds| ==> IsDigit(ds[i])
    requires s != [] && s[0] == '-' && Unsigned(s) == ds
    requires v == DigitsValue(ds)
    ensures ParseSigned(s) == Some(-v)
  {
    DigitRunOfDigits(ds);
  }

  /** A minus sign put before a text is its first character, and the text
      is what follows it. */
  lemma MinusSplits(ds: string)
    ensures var s := "-" + ds; s != [] && s[0] == '-' && s[1..] == ds
  {
  }
}

/** `s.trim() || null`, and `s.trim() || fallback`. */
module Normalize {
  import opened Basics
  import opened Text

  function TrimOrNull(s: string): (r: Option<string>)
    ensures r == None <==> forall i :: 0 <= i < |s| ==> IsSpace(s[i])
    ensures r.Some? ==> r.value == Trim(s) && r.value != ""
  {
    TrimEmptyIffBlank(s);
    if Trim(s) == "" then None else Some(Trim(s))
  }

  function TrimOr(s: string, fallback: string): (r: string)
    ensures r == fallback <==> Trim(s) == "" || Trim(s) == fallback
    ensures Trim(s) != "" ==> r == Trim(s)
  {
    if Trim(s) == "" then fallback else Trim(s)
  }
}
