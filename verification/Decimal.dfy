/** Decimal-string counters.  Cursors, revisions and epochs are stored as digit
    strings and advanced without ever becoming machine numbers; this module
    shows that the two string operations refine arithmetic on naturals, which
    is what lets the other modules count with integers that start at zero. */
module Decimal {

  ghost predicate Digits(s: string) {
    forall i | 0 <= i < |s| :: '0' <= s[i] <= '9'
  }

  /** No leading zero, except the single digit zero. */
  ghost predicate Canonical(s: string) {
    && Digits(s)
    && |s| > 0
    && (s[0] == '0' ==> |s| == 1)
  }

  function Digit(c: char): int {
    c as int - '0' as int
  }

  function DigitChar(d: nat): char
    requires d < 10
  {
    ('0' as int + d) as char
  }

  ghost function Init(s: string): string
    requires |s| > 0
  {
    s[..|s| - 1]
  }

  ghost function Last(s: string): char
    requires |s| > 0
  {
    s[|s| - 1]
  }

  ghost function Value(s: string): int {
    if |s| == 0 then 0 else 10 * Value(Init(s)) + Digit(Last(s))
  }

  function Pow10(n: nat): (p: nat)
    ensures p >= 1
  {
    if n == 0 then 1 else 10 * Pow10(n - 1)
  }

  /** The longest epoch a grant may carry. */
  const MAX_EPOCH_DIGITS: nat := 32

  /** Grade-school successor, most significant digits on the left. */
  ghost function Successor(s: string): string
    requires Digits(s)
  {
    if |s| == 0 then [DigitChar(1)]
    else if Last(s) == '9' then Successor(Init(s)) + [DigitChar(0)]
    else Init(s) + [DigitChar(Digit(Last(s)) + 1)]
  }

  lemma {:induction false} SuccessorIsCanonical(s: string)
    requires Digits(s)
    ensures Digits(Successor(s)) && Successor(s) != ""
    ensures Canonical(s) ==> Canonical(Successor(s)) && Successor(s)[0] != '0'
    decreases |s|
  {
    if |s| > 0 {
      SuccessorIsCanonical(Init(s));
      if Last(s) == '9' {
        assert |s| > 1 ==> Init(s)[0] == s[0];
      } else {
        assert |s| > 1 ==> Successor(s)[0] == s[0];
      }
    }
  }

  /** The successor is a canonical string again, and its value is one more. */
  lemma {:induction false} SuccessorAddsOne(s: string)
    requires Digits(s)
    ensures Digits(Successor(s)) && Successor(s) != ""
    ensures Value(Successor(s)) == Value(s) + 1
    ensures Canonical(s) ==> Canonical(Successor(s)) && Successor(s)[0] != '0'
    decreases |s|
  {
    SuccessorIsCanonical(s);
    hide Canonical;
    var t := Successor(s);
    if |s| > 0 {
      SuccessorAddsOne(Init(s));
      assert Init(t) == if Last(s) == '9' then Successor(Init(s)) else Init(s);
    }
  }

  /** `inc`: the carry loop from the last digit to the first. */
  method Inc(s: string) returns (out: string)
    requires Digits(s)
    ensures out == Successor(s)
  {
    var carry := 1;
    out := "";
    var i := |s|;
    StartsAndEnds(s);
    hide Rest, Successor;
    while i > 0
      invariant 0 <= i <= |s|
      invariant carry == 0 || carry == 1
      invariant Successor(s) == Rest(s, i, carry) + out
    {
      i := i - 1;
      CarryStep(s, i, carry, out);
      var d := Digit(s[i]) + carry;
      if d == 10 {
        d := 0;
        carry := 1;
      } else {
        carry := 0;
      }
      out := [DigitChar(d)] + out;
    }
    if carry == 1 {
      out := [DigitChar(1)] + out;
    }
  }

  lemma StartsAndEnds(s: string)
    requires Digits(s)
    ensures Successor(s) == Rest(s, |s|, 1) + ""
    ensures Rest(s, 0, 1) == [DigitChar(1)] && Rest(s, 0, 0) == ""
  {
    assert s[..|s|] == s;
  }

  lemma CarryStep(s: string, i: nat, carry: int, low: string)
    requires i < |s| && Digits(s) && (carry == 0 || carry == 1)
    ensures var d := Digit(s[i]) + carry;
            Rest(s, i + 1, carry) + low ==
              if d == 10 then Rest(s, i, 1) + ([DigitChar(0)] + low) else Rest(s, i, 0) + ([DigitChar(d)] + low)
  {
    RestStep(s, i);
    hide Rest;
    Regroup(Rest(s, i, 1), DigitChar(0), low);
    Regroup(Rest(s, i, 0), DigitChar(Digit(s[i])), low);
    if s[i] != '9' { Regroup(Rest(s, i, 0), DigitChar(Digit(s[i]) + 1), low); }
  }

  lemma Regroup(a: string, d: char, low: string)
    ensures a + [d] + low == a + ([d] + low)
  {
  }

  /** What the loop still has to write to the left of position i. */
  ghost function Rest(s: string, i: nat, carry: int): string
    requires i <= |s| && Digits(s)
  {
    if carry == 1 then Successor(s[..i]) else s[..i]
  }

  lemma RestStep(s: string, i: nat)
    requires i < |s| && Digits(s)
    ensures Rest(s, i + 1, 0) == Rest(s, i, 0) + [DigitChar(Digit(s[i]))]
    ensures Rest(s, i + 1, 1) == if s[i] == '9' then Rest(s, i, 1) + [DigitChar(0)]
                                 else Rest(s, i, 0) + [DigitChar(Digit(s[i]) + 1)]
  {
    assert Init(s[..i + 1]) == s[..i] && Last(s[..i + 1]) == s[i];
  }

  /** Byte order on equally long strings. */
  predicate LexLess(a: string, b: string)
    requires |a| == |b|
  {
    |a| > 0 && (a[0] < b[0] || (a[0] == b[0] && LexLess(a[1..], b[1..])))
  }

  /** `less`: the shorter string is smaller, ties in byte order. */
  predicate Less(a: string, b: string) {
    |a| < |b| || (|a| == |b| && LexLess(a, b))
  }

  /** Byte order may be decided from the right as well as from the left. */
  lemma {:induction false} LexLessFromTheRight(a: string, b: string)
    requires |a| == |b| > 0
    ensures LexLess(a, b) <==> LexLess(Init(a), Init(b)) || (Init(a) == Init(b) && Last(a) < Last(b))
    decreases |a|
  {
    if |a| > 1 {
      LexLessFromTheRight(a[1..], b[1..]);
      assert Init(a)[1..] == Init(a[1..]) && Init(b)[1..] == Init(b[1..]);
      assert Init(a) == [a[0]] + Init(a[1..]) && Init(b) == [b[0]] + Init(b[1..]);
    }
  }

  lemma {:induction false} LexLessIsNumeric(a: string, b: string)
    requires |a| == |b| && Digits(a) && Digits(b)
    ensures LexLess(a, b) <==> Value(a) < Value(b)
    ensures Value(a) == Value(b) ==> a == b
    decreases |a|
  {
    if |a| > 0 {
      LexLessFromTheRight(a, b);
      LexLessIsNumeric(Init(a), Init(b));
      LexLessIsNumeric(Init(b), Init(a));
      assert a == Init(a) + [Last(a)] && b == Init(b) + [Last(b)];
    }
  }

  lemma {:induction false} Pow10Monotone(m: nat, n: nat)
    requires m <= n
    ensures Pow10(m) <= Pow10(n)
    decreases n
  {
    if m < n {
      Pow10Monotone(m, n - 1);
    }
  }

  /** The number of digits brackets the value. */
  lemma {:induction false} DigitsBracketValue(s: string)
    requires Digits(s)
    ensures 0 <= Value(s) < Pow10(|s|)
    ensures Canonical(s) && s[0] != '0' ==> Pow10(|s| - 1) <= Value(s)
    decreases |s|
  {
    if |s| > 0 {
      DigitsBracketValue(Init(s));
      assert |s| > 1 ==> Init(s)[0] == s[0];
    }
  }

  lemma ShorterIsSmaller(a: string, b: string)
    requires Canonical(a) && Canonical(b) && |a| < |b|
    ensures Value(a) < Value(b)
  {
    DigitsBracketValue(a);
    DigitsBracketValue(b);
    Pow10Monotone(|a|, |b| - 1);
  }

  /** On canonical strings `less` is exactly numeric order and equality of
      strings is exactly equality of numbers. */
  lemma LessIsNumericOrder(a: string, b: string)
    requires Canonical(a) && Canonical(b)
    ensures Less(a, b) <==> Value(a) < Value(b)
    ensures a == b <==> Value(a) == Value(b)
  {
    if |a| == |b| {
      LexLessIsNumeric(a, b);
    } else if |a| < |b| {
      ShorterIsSmaller(a, b);
    } else {
      ShorterIsSmaller(b, a);
    }
  }

  /** The canonical spelling of a natural. */
  ghost function Render(n: nat): string {
    if n < 10 then [DigitChar(n)] else Render(n / 10) + [DigitChar(n % 10)]
  }

  lemma AppendedDigit(s: string, d: nat)
    requires d < 10
    ensures Value(s + [DigitChar(d)]) == 10 * Value(s) + d
    ensures Canonical(s) && s != "0" ==> Canonical(s + [DigitChar(d)])
  {
    var t := s + [DigitChar(d)];
    assert Init(t) == s && Last(t) == DigitChar(d);
    if Canonical(s) && s != "0" {
      assert s[0] == '0' ==> s == "0";
      assert t[0] == s[0];
    }
  }

  lemma {:induction false} RenderIsCanonical(n: nat)
    ensures Canonical(Render(n)) && Value(Render(n)) == n
  {
    if n < 10 {
      AppendedDigit("", n);
      assert "" + [DigitChar(n)] == [DigitChar(n)];
    } else {
      RenderIsCanonical(n / 10);
      AppendedDigit(Render(n / 10), n % 10);
      assert Value("0") == 0 by { AppendedDigit("", 0); assert "" + ['0'] == "0"; }
    }
  }

  /** Strings and naturals are interchangeable: rendering the value of a
      canonical string gives the string back, and a limit on the number of
      digits is a numeric limit. */
  lemma RenderInvertsValue(s: string, limit: nat)
    requires Canonical(s) && limit > 0
    ensures Value(s) >= 0 && Render(Value(s)) == s
    ensures |s| > limit <==> Value(s) >= Pow10(limit)
  {
    DigitsBracketValue(s);
    RenderIsCanonical(Value(s));
    LessIsNumericOrder(Render(Value(s)), s);
    if |s| > limit {
      Pow10Monotone(limit, |s| - 1);
    } else {
      Pow10Monotone(|s|, limit);
    }
  }
}
