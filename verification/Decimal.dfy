/** Integers as decimal text, and JavaScript's `parseInt` on such text. */
module Decimal {
  import opened Wrappers

  function Digit(d: nat): char
    requires d < 10
  {
    '0' + d as char
  }

  predicate IsDigit(c: char) {
    '0' <= c <= '9'
  }

  function Digits(n: nat): (s: string)
    ensures s != [] && forall i | 0 <= i < |s| :: IsDigit(s[i])
  {
    if n < 10 then [Digit(n)] else Digits(n / 10) + [Digit(n % 10)]
  }

  /** `n.toString()` for an integer. */
  function ToText(n: int): (s: string)
    ensures s != []
  {
    if n < 0 then "-" + Digits(-n) else Digits(n)
  }

  /** The longest initial run of digits, continuing the number `soFar`; None without any digit. */
  function ParseDigits(s: string, soFar: int, any: bool): Option<int>
    decreases |s|
  {
    if s != "" && IsDigit(s[0]) then ParseDigits(s[1..], soFar * 10 + (s[0] - '0') as int, true)
    else if any then Some(soFar)
    else None
  }

  /** `parseInt(s)` on text without leading blanks or a radix prefix; None is NaN. */
  function ParseInt(s: string): Option<int> {
    if s != "" && s[0] == '-' then
      match ParseDigits(s[1..], 0, false) { case Some(n) => Some(0 - n) case None => None }
    else if s != "" && s[0] == '+' then ParseDigits(s[1..], 0, false)
    else ParseDigits(s, 0, false)
  }

  lemma {:induction false} ParseAfterDigits(n: nat, rest: string, any: bool)
    ensures ParseDigits(Digits(n) + rest, 0, any) == ParseDigits(rest, n, true)
    decreases n
  {
    if n < 10 {
      assert (Digits(n) + rest)[1..] == rest;
    } else {
      var last := [Digit(n % 10)];
      ParseAfterDigits(n / 10, last + rest, any);
      assert Digits(n) + rest == Digits(n / 10) + (last + rest);
      assert (last + rest)[1..] == rest;
    }
  }

  /** Parsing undoes printing. */
  lemma ParseOfText(n: int)
    ensures ParseInt(ToText(n)) == Some(n)
  {
    if n < 0 {
      assert ToText(n)[1..] == Digits(-n) + "";
      ParseAfterDigits(-n, "", false);
    } else {
      assert Digits(n) + "" == Digits(n);
      ParseAfterDigits(n, "", false);
      assert IsDigit(Digits(n)[0]);
    }
  }

  /** Text that is exactly what printing some integer gives. */
  predicate IsInteger(s: string) {
    ParseInt(s).Some? && ToText(ParseInt(s).value) == s
  }

  lemma TextIsInteger(n: int)
    ensures IsInteger(ToText(n))
  {
    ParseOfText(n);
  }

  predicate AllDigits(s: string) {
    forall i | 0 <= i < |s| :: IsDigit(s[i])
  }

  /** Reading one digit more. */
  lemma {:induction false} ParseOneMore(s: string, d: char, soFar: int, any: bool)
    requires AllDigits(s) && IsDigit(d) && (any || s != "")
    ensures ParseDigits(s, soFar, any).Some?
    ensures ParseDigits(s + [d], soFar, any) == Some(10 * ParseDigits(s, soFar, any).value + (d as int - '0' as int))
    decreases |s|
  {
    if s == "" {
      assert (s + [d])[1..] == "";
    } else {
      assert (s + [d])[1..] == s[1..] + [d];
      ParseOneMore(s[1..], d, soFar * 10 + (s[0] - '0') as int, true);
    }
  }

  /** Numbers are read in base ten, signed, and up to the first character that is no digit. */
  lemma ReadsBaseTen(s: string, d: char, rest: string)
    requires AllDigits(s) && s != "" && IsDigit(d) && (rest != "" ==> !IsDigit(rest[0]))
    ensures ParseInt([d]) == Some(d as int - '0' as int)
    ensures ParseInt(s).Some? && ParseInt(s + [d]) == Some(10 * ParseInt(s).value + (d as int - '0' as int))
    ensures ParseInt("-" + s) == Some(0 - ParseInt(s).value) && ParseInt("+" + s) == ParseInt(s)
    ensures ParseInt(s + rest) == ParseInt(s)
    ensures rest != "" && rest[0] != '+' && rest[0] != '-' ==> ParseInt(rest + s) == None
  {
    assert ParseDigits("", (d - '0') as int, true) == Some((d - '0') as int);
    assert IsDigit(s[0]) && [d][1..] == "" && (s + [d])[0] == s[0];
    ParseOneMore(s, d, 0, false);
    assert ("-" + s)[1..] == s && ("+" + s)[1..] == s;
    ParseUpTo(s, rest, 0, false);
    assert (s + rest)[0] == s[0];
  }

  lemma {:induction false} ParseUpTo(s: string, rest: string, soFar: int, any: bool)
    requires AllDigits(s) && (rest != "" ==> !IsDigit(rest[0]))
    ensures ParseDigits(s + rest, soFar, any) == ParseDigits(s, soFar, any)
    decreases |s|
  {
    if s == "" {
      assert s + rest == rest;
    } else {
      assert (s + rest)[1..] == s[1..] + rest;
      ParseUpTo(s[1..], rest, soFar * 10 + (s[0] - '0') as int, true);
    }
  }

  /** Printed numbers have no needless zero or sign. */
  lemma {:induction false} NoNeedlessZero(n: nat)
    ensures n > 0 ==> Digits(n)[0] != '0'
    ensures ToText(n) == Digits(n) && (n > 0 ==> ToText(0 - n) == "-" + Digits(n)) && ToText(0) == "0"
    decreases n
  {
    if n >= 10 {
      NoNeedlessZero(n / 10);
    }
  }
}
