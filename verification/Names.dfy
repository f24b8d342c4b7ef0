/** The names TcpServer gives its connections: the server's name, then at most 63 characters
    of "-ip:port#id" with the id in decimal. */
module Names {
  const BUF_SIZE: nat := 64
  const INT_LIMIT: nat := 0x8000_0000

  function Digit(d: nat): char
    requires d < 10
  {
    "0123456789"[d]
  }

  function Decimal(n: nat): string {
    if n < 10 then [Digit(n)] else Decimal(n / 10) + [Digit(n % 10)]
  }

  /** snprintf into a buffer of `BUF_SIZE` characters, the last one being the terminator. */
  function Snprintf(s: string): string {
    if |s| < BUF_SIZE then s else s[..BUF_SIZE - 1]
  }

  function Suffix(ipPort: string, id: nat): string {
    "-" + ipPort + "#" + Decimal(id)
  }

  function ConnName(name: string, ipPort: string, id: nat): string {
    name + Snprintf(Suffix(ipPort, id))
  }

  lemma {:induction false} DecimalInjective(a: nat, b: nat)
    requires Decimal(a) == Decimal(b)
    ensures a == b
  {
    var da, db := Decimal(a), Decimal(b);
    assert da[|da| - 1] == Digit(a % 10) && db[|db| - 1] == Digit(b % 10);
    if a >= 10 && b >= 10 {
      assert da[..|da| - 1] == Decimal(a / 10) && db[..|db| - 1] == Decimal(b / 10);
      DecimalInjective(a / 10, b / 10);
    } else if a >= 10 {
      DecimalNonEmpty(a / 10);
    } else if b >= 10 {
      DecimalNonEmpty(b / 10);
    }
  }

  lemma DecimalNonEmpty(n: nat)
    ensures |Decimal(n)| > 0
  {
  }

  function Pow10(k: nat): nat {
    if k == 0 then 1 else 10 * Pow10(k - 1)
  }

  lemma {:induction false} DecimalLength(n: nat, k: nat)
    requires 0 < k && n < Pow10(k)
    ensures |Decimal(n)| <= k
  {
    if n >= 10 {
      assert k > 1 by { assert Pow10(1) == 10 * Pow10(0); }
      DecimalLength(n / 10, k - 1);
    }
  }

  /** An int id has at most ten digits, so the buffer is never too small for it. */
  lemma SuffixFits(ipPort: string, id: nat)
    requires |ipPort| <= 51 && id < INT_LIMIT
    ensures |Suffix(ipPort, id)| < BUF_SIZE && Snprintf(Suffix(ipPort, id)) == Suffix(ipPort, id)
  {
    assert Pow10(5) == 100000;
    assert Pow10(10) == 100000 * Pow10(5);
    DecimalLength(id, 10);
  }

  /** Different ids give different names, for every id an int can hold. */
  lemma NamesInjective(name: string, ipPort: string, a: nat, b: nat)
    requires |ipPort| <= 51 && a < INT_LIMIT && b < INT_LIMIT
    requires ConnName(name, ipPort, a) == ConnName(name, ipPort, b)
    ensures a == b
  {
    SuffixFits(ipPort, a);
    SuffixFits(ipPort, b);
    var pre := name + ("-" + ipPort + "#");
    assert ConnName(name, ipPort, a) == pre + Decimal(a);
    assert ConnName(name, ipPort, b) == pre + Decimal(b);
    assert (pre + Decimal(a))[|pre|..] == Decimal(a);
    assert (pre + Decimal(b))[|pre|..] == Decimal(b);
    DecimalInjective(a, b);
  }

  predicate IsDigit(ch: char) {
    '0' <= ch <= '9'
  }

  /** The number that a string of decimal digits denotes. */
  function Value(s: string): nat
    requires forall i :: 0 <= i < |s| ==> IsDigit(s[i])
  {
    if s == "" then 0
    else
      var last := s[|s| - 1];
      assert IsDigit(last);
      10 * Value(s[..|s| - 1]) + (last as int - '0' as int)
  }

  lemma {:induction false} DecimalReadsBack(n: nat)
    ensures var d := Decimal(n);
            && d != "" && (forall i :: 0 <= i < |d| ==> IsDigit(d[i])) && Value(d) == n
            && (d[0] == '0' ==> n == 0)
  {
    var d := Decimal(n);
    DigitValue(n % 10);
    if n >= 10 {
      DecimalReadsBack(n / 10);
      assert d[..|d| - 1] == Decimal(n / 10);
    } else {
      assert d[..0] == "";
    }
  }

  lemma DigitValue(d: nat)
    requires d < 10
    ensures IsDigit(Digit(d)) && Digit(d) as int - '0' as int == d
  {
  }

  /** A connection's name is the server's name, the address, and the id in decimal, read back
      from what follows the last '#'. */
  lemma NameReadsBack(name: string, ipPort: string, id: nat) returns (digits: string)
    requires |ipPort| <= 51 && id < INT_LIMIT
    ensures ConnName(name, ipPort, id) == name + "-" + ipPort + "#" + digits
    ensures digits != "" && (forall i :: 0 <= i < |digits| ==> IsDigit(digits[i])) && Value(digits) == id
  {
    SuffixFits(ipPort, id);
    DecimalReadsBack(id);
    digits := Decimal(id);
  }
}
