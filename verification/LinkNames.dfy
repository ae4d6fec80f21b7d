// WireGuard link names carry the listening port in decimal; packet marks are parsed back from them.

module LinkNames {
  import opened Wrappers

  const LINK_PREFIX := "wg-"
  const INT64_MAX := 0x7fff_ffff_ffff_ffff

  function Digit(d: int): char
    requires 0 <= d < 10
  {
    ('0' as int + d) as char
  }

  /** Decimal digits of a non-negative number, as "%d" prints them. */
  function Digits(n: nat): (s: string)
    ensures s != [] && forall i :: 0 <= i < |s| ==> '0' <= s[i] <= '9'
  {
    if n < 10 then [Digit(n)] else Digits(n / 10) + [Digit(n % 10)]
  }

  function Print(n: int): string {
    if n < 0 then "-" + Digits(-n) else Digits(n)
  }

  /** The value of a digit string, read from the left. */
  function Value(s: string): Option<int> {
    if s == [] then Some(0)
    else
      var c := s[|s| - 1];
      match Value(s[..|s| - 1])
      case None => None
      case Some(v) => if '0' <= c <= '9' then Some(10 * v + (c as int - '0' as int)) else None
  }

  /** strconv.Atoi: an optional sign, at least one digit, and a value of 64 bits. */
  function Atoi(s: string): Option<int> {
    var signed := s != [] && (s[0] == '-' || s[0] == '+');
    var body := if signed then s[1..] else s;
    if body == [] then None
    else
      match Value(body)
      case None => None
      case Some(v) =>
        var n := if signed && s[0] == '-' then -v else v;
        if -INT64_MAX - 1 <= n <= INT64_MAX then Some(n) else None
  }

  lemma {:induction false} ValueOfDigits(n: nat)
    ensures Value(Digits(n)) == Some(n)
  {
    if n < 10 {
      assert Digits(n)[..0] == [];
    } else {
      ValueOfDigits(n / 10);
      assert Digits(n)[..|Digits(n)| - 1] == Digits(n / 10);
    }
  }

  /** Printing and parsing an int64 round-trips. */
  lemma AtoiOfPrint(n: int)
    requires -INT64_MAX - 1 <= n <= INT64_MAX
    ensures Atoi(Print(n)) == Some(n)
  {
    ValueOfDigits(if n < 0 then -n else n);
    if n < 0 {
      assert Print(n)[1..] == Digits(-n);
    }
  }

  function InterfaceName(port: int): string {
    LINK_PREFIX + Print(port)
  }

  function PacketMark(link: string): Option<int> {
    Atoi(if LINK_PREFIX <= link then link[|LINK_PREFIX|..] else link)
  }

  /** The mark of a gateway's link is its port, so distinct ports give distinct links and distinct marks. */
  lemma MarkIsPort(port: int)
    requires -0x8000_0000 <= port < 0x8000_0000
    ensures PacketMark(InterfaceName(port)) == Some(port)
  {
    AtoiOfPrint(port);
    assert InterfaceName(port)[|LINK_PREFIX|..] == Print(port);
  }

  lemma PrintInjective(a: int, b: int)
    requires -INT64_MAX - 1 <= a <= INT64_MAX && -INT64_MAX - 1 <= b <= INT64_MAX
    requires Print(a) == Print(b)
    ensures a == b
  {
    AtoiOfPrint(a);
    AtoiOfPrint(b);
  }
}
