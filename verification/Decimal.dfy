/** Decimal printing of integers, as `strconv.FormatInt(n, 10)` and `$n` placeholders use it. */
module Decimal {

  function Digit(d: nat): char
    requires d < 10
  {
    (d + '0' as int) as char
  }

  function Natural(n: nat): string {
    if n < 10 then [Digit(n)] else Natural(n / 10) + [Digit(n % 10)]
  }

  function FormatInt(n: int): string {
    if n < 0 then "-" + Natural(-n) else Natural(n)
  }

  function ValueOf(s: string): int {
    if s == "" then 0 else 10 * ValueOf(s[..|s| - 1]) + (s[|s| - 1] as int - '0' as int)
  }

  lemma {:induction false} NaturalReadsBack(n: nat)
    ensures Natural(n) != "" && ValueOf(Natural(n)) == n
    ensures forall c :: c in Natural(n) ==> '0' <= c <= '9'
    ensures Natural(n)[0] == '0' ==> n == 0 && Natural(n) == "0"
  {
    if n >= 10 {
      NaturalReadsBack(n / 10);
      assert (Natural(n / 10) + [Digit(n % 10)])[..|Natural(n / 10)|] == Natural(n / 10);
    } else {
      assert [Digit(n)][..0] == "";
    }
  }

  /** A leading minus sign tells a negative number, and the rest is its absolute value. */
  lemma SignShows(n: int)
    ensures FormatInt(n) != "" && (FormatInt(n)[0] == '-' <==> n < 0)
    ensures n < 0 ==> FormatInt(n)[1..] == Natural(-n)
  {
    NaturalReadsBack(if n < 0 then -n else n);
    if n >= 0 {
      assert Natural(n)[0] in Natural(n);
    }
  }

  /** Different integers print differently. */
  lemma FormatIntIsInjective(a: int, b: int)
    ensures FormatInt(a) == FormatInt(b) <==> a == b
  {
    NaturalReadsBack(if a < 0 then -a else a);
    NaturalReadsBack(if b < 0 then -b else b);
    if FormatInt(a) == FormatInt(b) {
      SignShows(a);
      SignShows(b);
    }
  }
}
