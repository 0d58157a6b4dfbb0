/** Go's strconv, as far as the connectivity store uses it. */
module Decimal {
  import opened Prelude
  import opened Words

  predicate IsDigit(c: char) {
    '0' <= c <= '9'
  }

  function Digit(d: int): (c: char)
    requires 0 <= d < 10
    ensures IsDigit(c) && c as int - '0' as int == d
  {
    (d + '0' as int) as char
  }

  function Digits(n: nat): (s: string)
    ensures s != "" && AllDigits(s)
  {
    if n < 10 then [Digit(n)] else Digits(n / 10) + [Digit(n % 10)]
  }

  /** strconv.FormatInt(n, 10). */
  function FormatInt(n: int): string {
    if n < 0 then "-" + Digits(-n) else Digits(n)
  }

  predicate AllDigits(s: string) {
    forall i | 0 <= i < |s| :: IsDigit(s[i])
  }

  function ValueOf(s: string): nat
    requires AllDigits(s)
  {
    if s == "" then 0 else ValueOf(s[..|s| - 1]) * 10 + (s[|s| - 1] as int - '0' as int)
  }

  /** strconv.ParseInt(s, 10, 64): None for a syntax or a range error. */
  function ParseInt(s: string): (r: Option<int>)
    ensures r.Some? ==> -TWO_63 <= r.value < TWO_63
  {
    if s == "" then None else
      var negative := s[0] == '-';
      var rest := if s[0] == '-' || s[0] == '+' then s[1..] else s;
      if rest == "" || !AllDigits(rest) then None else
        var v: int := ValueOf(rest);
        if negative then (if v > TWO_63 then None else Some(-v))
        else (if v >= TWO_63 then None else Some(v))
  }

  lemma {:induction false} ValueOfDigits(n: nat)
    ensures ValueOf(Digits(n)) == n
  {
    if n >= 10 {
      ValueOfDigits(n / 10);
      var s := Digits(n);
      assert s[..|s| - 1] == Digits(n / 10);
    } else {
      assert [Digit(n)][..0] == "";
    }
  }

  /** Printing then parsing gives the number back exactly when it fits 64 signed bits. */
  lemma {:induction false} ParseOfFormat(n: int)
    ensures ParseInt(FormatInt(n)) == Some(n) <==> -TWO_63 <= n < TWO_63
  {
    var m: nat := if n < 0 then -n else n;
    ValueOfDigits(m);
    var s := FormatInt(n);
    if n < 0 {
      assert s[1..] == Digits(m);
    } else {
      assert IsDigit(s[0]);
    }
  }

  /** strconv.FormatBool. */
  function FormatBool(b: bool): string {
    if b then "true" else "false"
  }

  /** strconv.ParseBool. */
  function ParseBool(s: string): (r: Option<bool>) {
    if s == "1" || s == "t" || s == "T" || s == "true" || s == "TRUE" || s == "True" then Some(true)
    else if s == "0" || s == "f" || s == "F" || s == "false" || s == "FALSE" || s == "False" then Some(false)
    else None
  }

  lemma {:induction false} ParseOfFormatBool(b: bool)
    ensures ParseBool(FormatBool(b)) == Some(b)
  {
    assert |"true"| == 4 && |"false"| == 5;
  }
}
