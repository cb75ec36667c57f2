/** Numbers in decimal, as printing and parsing see them. */
module Decimal {
  import opened Arithmetic

  predicate IsDigit(c: char) { '0' <= c <= '9' }

  type Digits = s: string | forall i :: 0 <= i < |s| ==> IsDigit(s[i]) witness ""

  function DigitOf(d: nat): char
    requires d < 10
  {
    '0' + d as char
  }

  function ValueOf(c: char): (d: nat)
    requires IsDigit(c)
    ensures d < 10 && DigitOf(d) == c
  {
    (c - '0') as nat
  }

  function Init(s: Digits): Digits
    requires s != ""
  {
    s[..|s| - 1]
  }

  /** Most significant digit first, no leading zeros. */
  function Print(n: nat): (s: Digits)
    ensures s != ""
  {
    if n < 10 then [DigitOf(n)] else Print(n / 10) + [DigitOf(n % 10)]
  }

  function Value(s: Digits): nat {
    if s == "" then 0 else 10 * Value(Init(s)) + ValueOf(s[|s| - 1])
  }

  /** Not empty, and a leading zero only when it is all there is. */
  predicate Canonical(s: string) { s != "" && (|s| > 1 ==> s[0] != '0') }

  lemma {:induction false} PrintIsCanonical(n: nat)
    ensures Canonical(Print(n)) && (n > 0 ==> Print(n)[0] != '0')
  {
    if n < 10 {
    } else {
      PrintIsCanonical(n / 10);
    }
  }

  lemma {:induction false} ValueOfPrint(n: nat)
    ensures Value(Print(n)) == n
  {
    if n < 10 {
    } else {
      ValueOfPrint(n / 10);
      assert Init(Print(n)) == Print(n / 10);
    }
  }

  /** Canonical digits are what their value prints as. */
  lemma {:induction false} PrintOfValue(s: Digits)
    requires Canonical(s)
    ensures Print(Value(s)) == s && (s != "0" ==> Value(s) > 0)
  {
    var d := ValueOf(s[|s| - 1]);
    if |s| == 1 {
      assert Init(s) == "";
      assert s == [DigitOf(d)];
    } else {
      PrintOfValue(Init(s));
      assert s == Init(s) + [DigitOf(d)];
      var v := Value(Init(s));
      assert (10 * v + d) / 10 == v && (10 * v + d) % 10 == d;
    }
  }

  function PowerOfTen(k: nat): (p: nat)
    ensures p >= 1
  {
    if k == 0 then 1 else 10 * PowerOfTen(k - 1)
  }

  /** k digits suffice exactly below 10 to the k. */
  lemma {:induction false} PrintLength(n: nat, k: nat)
    requires k > 0
    ensures |Print(n)| <= k <==> n < PowerOfTen(k)
  {
    if n >= 10 {
      if k == 1 {
        assert PowerOfTen(1) == 10 * PowerOfTen(0);
      } else {
        PrintLength(n / 10, k - 1);
      }
    } else {
      TenAtLeast(k);
    }
  }

  lemma {:induction false} TenAtLeast(k: nat)
    requires k > 0
    ensures PowerOfTen(k) >= 10
  {
    if k == 1 {
    } else {
      TenAtLeast(k - 1);
    }
  }

  /** Up to four digits, the most significant first. */
  lemma PrintsShort(n: nat)
    requires n < 10_000
    ensures n < 10 ==> Print(n) == [DigitOf(n)]
    ensures 10 <= n < 100 ==> Print(n) == [DigitOf(n / 10), DigitOf(n % 10)]
    ensures 100 <= n < 1000 ==> Print(n) == [DigitOf(n / 100), DigitOf(n / 10 % 10), DigitOf(n % 10)]
    ensures 1000 <= n ==> Print(n) == [DigitOf(n / 1000), DigitOf(n / 100 % 10), DigitOf(n / 10 % 10), DigitOf(n % 10)]
  {
    if n >= 10 {
      PrintsShort(n / 10);
      assert n / 10 / 10 == n / 100 && n / 10 / 100 == n / 1000;
      assert Print(n) == Print(n / 10) + [DigitOf(n % 10)];
    }
  }

  /** The character of a digit, and back. */
  lemma DigitReads(d: nat, c: char)
    requires d < 10
    ensures DigitOf(d) == "0123456789"[d]
    ensures IsDigit(c) ==> "0123456789"[ValueOf(c)] == c
  {
  }

  /** The number digits stand for: each counts ten times the one after it. */
  lemma ValueOneMore(s: Digits, c: char)
    requires IsDigit(c)
    ensures Value(s + [c]) == 10 * Value(s) + (c as int - '0' as int)
  {
    assert (s + [c])[..|s|] == s;
  }
}
