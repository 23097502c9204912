/** How the mock gateway prints a refund id: `re_mock_` followed by the counter in
    decimal, padded with zeros on the left to eight digits. Reading the digits back
    recovers the counter, so two different counters never print alike, also once the
    counter outgrows the eight digits. */
module GatewayRef {

  const PREFIX := "re_mock_"
  const WIDTH := 8

  function Digit(d: nat): char
    requires d < 10
  {
    '0' + d as char
  }

  function Decimal(n: nat): string {
    if n < 10 then [Digit(n)] else Decimal(n / 10) + [Digit(n % 10)]
  }

  function Zeros(n: nat): string {
    seq(n, _ => '0')
  }

  function Padded(n: nat): string {
    var digits := Decimal(n);
    if |digits| < WIDTH then Zeros(WIDTH - |digits|) + digits else digits
  }

  function FormatRef(n: nat): string {
    PREFIX + Padded(n)
  }

  /** The number a digit string denotes; any other character counts as zero. */
  function Reading(digits: string): nat {
    if digits == [] then 0
    else
      var last := digits[|digits| - 1];
      10 * Reading(digits[..|digits| - 1]) + if '0' <= last <= '9' then last as nat - '0' as nat else 0
  }

  lemma {:induction false} ReadingOfDecimal(n: nat)
    ensures Reading(Decimal(n)) == n
  {
    if n >= 10 {
      ReadingOfDecimal(n / 10);
      assert Decimal(n)[..|Decimal(n)| - 1] == Decimal(n / 10);
    } else {
      assert Decimal(n)[..0] == "";
    }
  }

  lemma {:induction false} ReadingIgnoresZeros(k: nat, digits: string)
    ensures Reading(Zeros(k) + digits) == Reading(digits)
    decreases k + |digits|
  {
    var padded := Zeros(k) + digits;
    if digits != [] {
      assert padded[..|padded| - 1] == Zeros(k) + digits[..|digits| - 1];
      ReadingIgnoresZeros(k, digits[..|digits| - 1]);
    } else if k > 0 {
      assert padded[..|padded| - 1] == Zeros(k - 1) + digits;
      ReadingIgnoresZeros(k - 1, digits);
    }
  }

  /** Reading back the text behind the prefix gives the counter it was printed from. */
  lemma FormatRefRoundTrip(n: nat)
    ensures FormatRef(n)[..|PREFIX|] == PREFIX
    ensures Reading(FormatRef(n)[|PREFIX|..]) == n
  {
    assert FormatRef(n)[|PREFIX|..] == Padded(n);
    ReadingOfDecimal(n);
    var digits := Decimal(n);
    if |digits| < WIDTH {
      ReadingIgnoresZeros(WIDTH - |digits|, digits);
    }
  }

  lemma FormatRefInjective(m: nat, n: nat)
    requires FormatRef(m) == FormatRef(n)
    ensures m == n
  {
    FormatRefRoundTrip(m);
    FormatRefRoundTrip(n);
  }
}
