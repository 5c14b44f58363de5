/** The ticket generator: a fixed prefix, the last six characters of the
    millisecond clock written in decimal, and four upper-cased characters of
    the base-36 rendering of a random number. The clock reading and the
    random rendering are parameters, so the generator is a pure function. */
module Tickets {
  import opened Text

  const Prefix := "TICKET-"

  predicate IsDigit(c: char) { '0' <= c <= '9' }

  predicate AllDigits(s: string) { forall i :: 0 <= i < |s| ==> IsDigit(s[i]) }

  function DigitChar(d: nat): char
    requires d < 10
  {
    ('0' as int + d) as char
  }

  function DigitValue(c: char): nat
    requires IsDigit(c)
  {
    c as int - '0' as int
  }

  function Min(a: int, b: int): int { if a <= b then a else b }

  function Max(a: int, b: int): int { if a <= b then b else a }

  function Pow10(k: nat): (p: nat)
    ensures p >= 1 && (k >= 1 ==> p >= 10)
  {
    if k == 0 then 1 else 10 * Pow10(k - 1)
  }

  /** `n.toString()` for a whole number `n >= 0`: its decimal digits, with no
      leading zero unless `n` is 0. */
  function Decimal(n: nat): (r: string)
    ensures |r| >= 1 && AllDigits(r)
    ensures |r| > 1 ==> r[0] != '0'
  {
    if n < 10 then [DigitChar(n)] else Decimal(n / 10) + [DigitChar(n % 10)]
  }

  /** The number a string of decimal digits denotes. */
  function Value(s: string): nat
    requires AllDigits(s)
  {
    if s == [] then 0 else Value(s[..|s| - 1]) * 10 + DigitValue(s[|s| - 1])
  }

  lemma ModTen(n: nat, p: nat)
    requires p >= 1
    ensures (n / 10 % p) * 10 + n % 10 == n % (10 * p)
  {
    var q, r := n / 10, n % 10;
    var a, b := q / p, q % p;
    assert q == p * a + b;
    calc {
      n;
      10 * q + r;
      10 * (p * a + b) + r;
      { assert 10 * (p * a) == (10 * p) * a; }
      (10 * p) * a + (10 * b + r);
    }
    ModUnique(n, 10 * p, a, 10 * b + r);
  }

  /** A quotient and remainder below the divisor are the ones `/` and `%` give. */
  lemma ModUnique(n: nat, m: nat, a: nat, b: nat)
    requires m >= 1 && n == m * a + b && b < m
    ensures n % m == b
  {
    var a', b' := n / m, n % m;
    assert n == m * a' + b';
    if a < a' {
      MulStep(m, a, a' - a);
    } else if a > a' {
      MulStep(m, a', a - a');
    }
  }

  /** Adding `d >= 1` to a factor adds at least `m` to the product. */
  lemma MulStep(m: nat, a: nat, d: nat)
    requires d >= 1
    ensures m * (a + d) >= m * a + m
  {
    assert m * (a + d) == m * a + m * d;
    assert m * d >= m * 1;
  }

  /** Decimal and Value are inverse: the digits denote the number. */
  lemma {:induction false} DecimalValue(n: nat)
    ensures Value(Decimal(n)) == n
    decreases n
  {
    var d := Decimal(n);
    if n < 10 {
      assert d[..0] == [];
    } else {
      DecimalValue(n / 10);
      assert d[..|d| - 1] == Decimal(n / 10);
    }
  }

  /** The last `k` characters of a digit string denote its value modulo
      `10^k`. */
  lemma {:induction false} ValueSuffix(s: string, k: nat)
    requires AllDigits(s) && k <= |s|
    ensures Value(s[|s| - k..]) == Value(s) % Pow10(k)
    decreases |s|
  {
    if k == 0 {
      assert s[|s|..] == [];
    } else {
      var t := s[..|s| - 1];
      var c := DigitValue(s[|s| - 1]);
      var u := s[|s| - k..];
      ValueSuffix(t, k - 1);
      assert u[..|u| - 1] == t[|t| - (k - 1)..];
      assert Value(u) == (Value(t) % Pow10(k - 1)) * 10 + c;
      var m := Value(t) * 10 + c;
      assert m / 10 == Value(t) && m % 10 == c;
      ModTen(m, Pow10(k - 1));
    }
  }

  /** The last `k` digits of `Decimal(n)` denote `n` modulo `10^k`. */
  lemma DecimalSuffix(n: nat, k: nat)
    requires k <= |Decimal(n)|
    ensures Value(Decimal(n)[|Decimal(n)| - k..]) == n % Pow10(k)
  {
    ValueSuffix(Decimal(n), k);
    DecimalValue(n);
  }

  /** A number has more than `k` decimal digits exactly when `k` is 0 or the
      number is at least `10^k`. */
  lemma {:induction false} DecimalLength(n: nat, k: nat)
    ensures |Decimal(n)| > k <==> (k == 0 || n >= Pow10(k))
    decreases n
  {
    if n >= 10 && k >= 1 {
      DecimalLength(n / 10, k - 1);
      if k >= 2 {
        assert n / 10 >= Pow10(k - 1) <==> n >= 10 * Pow10(k - 1);
      }
    }
  }

  /** A number is below 10 to the power of its digit count. */
  lemma {:induction false} DecimalBelow(n: nat)
    ensures n < Pow10(|Decimal(n)|)
    decreases n
  {
    if n >= 10 {
      DecimalBelow(n / 10);
    }
  }

  /** `s.slice(-k)` for `k > 0`: the last `k` characters, or all of `s` when
      it is shorter. */
  function SliceFromEnd(s: string, k: nat): (r: string)
    requires k >= 1
    ensures |r| == Min(k, |s|) && r == s[|s| - |r|..]
  {
    if |s| <= k then s else s[|s| - k..]
  }

  /** `s.substr(start, length)` for non-negative arguments: at most `length`
      characters from position `start`, clipped to the end of `s`. */
  function Substr(s: string, start: nat, length: nat): (r: string)
    ensures |r| == Max(0, Min(start + length, |s|) - start)
    ensures forall i :: 0 <= i < |r| ==> r[i] == s[start + i]
  {
    s[Min(start, |s|)..Min(start + length, |s|)]
  }

  /** `generateTicketNumber()`, with `Date.now()` passed as `now` and
      `Math.random().toString(36)` passed as `random`. */
  function Ticket(now: nat, random: string): string
  {
    Prefix + SliceFromEnd(Decimal(now), 6) + Upper(Substr(random, 2, 4))
  }

  /** What `Math.random().toString(36)` can produce: "0", or "0." followed
      by lower-case base-36 digits. */
  predicate RandomText(random: string)
  {
    random == "0" ||
    (|random| >= 2 && random[..2] == "0." &&
     forall i :: 2 <= i < |random| ==> IsDigit(random[i]) || IsLowerAscii(random[i]))
  }

  /** The shape `TICKET-\d{6}[A-Z0-9]{4}`. */
  predicate TicketPattern(t: string)
  {
    |t| == 17 && t[..7] == Prefix && AllDigits(t[7..13]) &&
    forall i :: 13 <= i < 17 ==> IsDigit(t[i]) || IsUpperAscii(t[i])
  }

  /** The number part of a ticket: up to six digits, exactly six once the
      clock has six digits, denoting the clock modulo one million. */
  lemma TicketClockDigits(now: nat, random: string)
    ensures var t, m := Ticket(now, random), Min(6, |Decimal(now)|);
      t[..7] == Prefix && 7 + m <= |t| &&
      AllDigits(t[7..7 + m]) && Value(t[7..7 + m]) == now % 1000000 &&
      (m == 6 <==> now >= 100000)
  {
    var d := Decimal(now);
    var m := Min(6, |d|);
    var t := Ticket(now, random);
    var part := SliceFromEnd(d, 6);
    assert t == Prefix + part + Upper(Substr(random, 2, 4));
    assert t[7..7 + m] == part;
    DecimalLength(now, 5);
    assert Pow10(5) == 100000 && Pow10(6) == 1000000;
    if |d| >= 6 {
      DecimalSuffix(now, 6);
    } else {
      assert part == d;
      DecimalValue(now);
      DecimalBelow(now);
      PowMonotone(|d|, 5);
      ModUnique(now, 1000000, 0, now);
    }
  }

  lemma {:induction false} PowMonotone(j: nat, k: nat)
    requires j <= k
    ensures Pow10(j) <= Pow10(k)
    decreases k
  {
    if j < k {
      PowMonotone(j, k - 1);
    }
  }

  /** The random part of a ticket: upper-cased base-36 digits taken from the
      characters after "0.", at most four of them. */
  lemma TicketRandomPart(now: nat, random: string)
    requires RandomText(random)
    ensures var t, m := Ticket(now, random), Min(6, |Decimal(now)|);
      |t| == 7 + m + Max(0, Min(4, |random| - 2)) &&
      forall i :: 7 + m <= i < |t| ==> IsDigit(t[i]) || IsUpperAscii(t[i])
  {
    var m := Min(6, |Decimal(now)|);
    var t := Ticket(now, random);
    var u := Substr(random, 2, 4);
    assert t == Prefix + SliceFromEnd(Decimal(now), 6) + Upper(u);
    forall i | 7 + m <= i < |t| ensures IsDigit(t[i]) || IsUpperAscii(t[i]) {
      var j := i - 7 - m;
      assert t[i] == UpperChar(u[j]);
      assert u[j] == random[2 + j];
    }
  }

  /** A ticket has the full `TICKET-\d{6}[A-Z0-9]{4}` shape exactly when the
      clock has at least six digits and the random rendering has at least
      four characters after "0."; either being short shortens the ticket. */
  lemma TicketShape(now: nat, random: string)
    requires RandomText(random)
    ensures TicketPattern(Ticket(now, random)) <==> now >= 100000 && |random| >= 6
  {
    TicketClockDigits(now, random);
    TicketRandomPart(now, random);
  }
}
