/** Connection names (TcpServer.cc, `newConnection`): the server's name, then what `snprintf` leaves of
    "-ip:port#id" in a buffer of 64 bytes. */
module Names {
  const INT_MAX: nat := 0x7fff_ffff
  const BUFFER_SIZE: nat := 64

  function Digit(d: nat): char
    requires d < 10
  {
    "0123456789"[d]
  }

  /** `%d` of a number that is not negative. */
  function Decimal(n: nat): string {
    if n < 10 then [Digit(n)] else Decimal(n / 10) + [Digit(n % 10)]
  }

  /** `snprintf` keeps one byte for the terminator. */
  function Truncated(s: string): string {
    if |s| < BUFFER_SIZE then s else s[..BUFFER_SIZE - 1]
  }

  function Suffix(ipPort: string, id: nat): string {
    "-" + ipPort + "#" + Decimal(id)
  }

  function ConnName(server: string, ipPort: string, id: nat): string {
    server + Truncated(Suffix(ipPort, id))
  }

  predicate IsNumeral(s: string) {
    forall i :: 0 <= i < |s| ==> '0' <= s[i] <= '9'
  }

  /** The number that a numeral denotes, read from left to right. */
  function Value(s: string): int {
    if s == [] then 0 else 10 * Value(s[..|s| - 1]) + (s[|s| - 1] as int - '0' as int)
  }

  lemma DigitReadsBack(d: nat)
    requires d < 10
    ensures '0' <= Digit(d) <= '9' && Digit(d) as int - '0' as int == d && (Digit(d) == '0' <==> d == 0)
  {
  }

  /** What is printed for a number is its decimal numeral: digits that denote it, the first not a zero unless
      it is the only one. */
  lemma {:induction false} DecimalReadsBack(n: nat)
    ensures IsNumeral(Decimal(n)) && Value(Decimal(n)) == n && |Decimal(n)| >= 1
    ensures Decimal(n)[0] == '0' <==> n == 0
    ensures n == 0 ==> Decimal(n) == "0"
  {
    var s := Decimal(n);
    DigitReadsBack(n % 10);
    if n < 10 {
      assert s[..0] == [];
    } else {
      DecimalReadsBack(n / 10);
      assert s[..|s| - 1] == Decimal(n / 10);
    }
  }

  /** With a short address text a name is the server's, a dash, the address, a hash sign and the id, uncut. */
  lemma ShortNamesAreUncut(server: string, ipPort: string, id: nat)
    requires |ipPort| <= LONGEST && id <= INT_MAX
    ensures ConnName(server, ipPort, id) == server + "-" + ipPort + "#" + Decimal(id)
    ensures Value(ConnName(server, ipPort, id)[|server| + |ipPort| + 2..]) == id
  {
    IdsHaveTenDigits(id);
    DecimalReadsBack(id);
    assert server + ("-" + ipPort + "#" + Decimal(id)) == server + "-" + ipPort + "#" + Decimal(id);
    assert ConnName(server, ipPort, id)[|server| + |ipPort| + 2..] == Decimal(id);
  }

  lemma DecimalIsInjective(m: nat, n: nat)
    requires Decimal(m) == Decimal(n)
    ensures m == n
  {
    DecimalReadsBack(m);
    DecimalReadsBack(n);
  }

  /** A number below 10^k has at most k digits. */
  lemma {:induction false} DecimalIsShort(n: nat, k: nat, bound: nat)
    requires k >= 1 && n < bound && bound == PowerOfTen(k)
    ensures |Decimal(n)| <= k
    decreases k
  {
    if n >= 10 {
      DecimalIsShort(n / 10, k - 1, PowerOfTen(k - 1));
    }
  }

  function PowerOfTen(k: nat): nat {
    if k == 0 then 1 else 10 * PowerOfTen(k - 1)
  }

  lemma IdsHaveTenDigits(id: nat)
    requires id <= INT_MAX
    ensures |Decimal(id)| <= 10
  {
    assert PowerOfTen(5) == 100_000;
    assert PowerOfTen(10) == 10_000_000_000;
    DecimalIsShort(id, 10, PowerOfTen(10));
  }

  /** The longest address text for which no name is cut. */
  const LONGEST: nat := BUFFER_SIZE - 13

  lemma NamesAreDistinct(server: string, ipPort: string, i: nat, j: nat)
    requires |ipPort| <= LONGEST && i <= INT_MAX && j <= INT_MAX
    requires ConnName(server, ipPort, i) == ConnName(server, ipPort, j)
    ensures i == j
  {
    IdsHaveTenDigits(i);
    IdsHaveTenDigits(j);
    var s, t := Suffix(ipPort, i), Suffix(ipPort, j);
    assert ConnName(server, ipPort, i)[|server|..] == s && ConnName(server, ipPort, j)[|server|..] == t;
    assert s[|ipPort| + 2..] == Decimal(i) && t[|ipPort| + 2..] == Decimal(j);
    DecimalIsInjective(i, j);
  }

  lemma LastDigitIsCut(ipPort: string)
    requires |ipPort| > LONGEST
    ensures Truncated(Suffix(ipPort, 1_000_000_000)) == Truncated(Suffix(ipPort, 1_000_000_001))
  {
    var head := "-" + ipPort + "#" + Decimal(100_000_000);
    NineDigits();
    assert Suffix(ipPort, 1_000_000_000) == head + [Digit(0)];
    assert Suffix(ipPort, 1_000_000_001) == head + [Digit(1)];
    assert Truncated(head + [Digit(0)]) == head[..BUFFER_SIZE - 1] == Truncated(head + [Digit(1)]);
  }

  lemma NineDigits()
    ensures |Decimal(100_000_000)| == 9
  {
  }

  ghost predicate Clash(server: string, ipPort: string, i: nat, j: nat) {
    && 1 <= i <= INT_MAX && 1 <= j <= INT_MAX && i != j
    && ConnName(server, ipPort, i) == ConnName(server, ipPort, j)
  }

  /** Injectivity of names, exactly: all the ids an `int` can count give different names just when the
      address text is no longer than 51 characters (an IPv4 address with its port has at most 21). */
  lemma NamesAreDistinctExactlyWhenShort(server: string, ipPort: string)
    ensures (forall i, j :: !Clash(server, ipPort, i, j)) <==> |ipPort| <= 51
  {
    if |ipPort| <= LONGEST {
      forall i, j
        ensures !Clash(server, ipPort, i, j)
      {
        if Clash(server, ipPort, i, j) {
          NamesAreDistinct(server, ipPort, i, j);
        }
      }
    } else {
      LastDigitIsCut(ipPort);
      assert Clash(server, ipPort, 1_000_000_000, 1_000_000_001);
    }
  }
}
