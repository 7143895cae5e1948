/**
 * PHP's `ip2long` for IPv4 text: four dot-separated decimal octets, each
 * 0..255 without a leading zero (the rules of `inet_pton` for AF_INET),
 * read as one 32-bit number with the first octet most significant.
 */
module PhpIp {
  import opened Common

  predicate AllDigits(s: string)
  {
    forall i :: 0 <= i < |s| ==> '0' <= s[i] <= '9'
  }

  /** The number a string of decimal digits spells. */
  function DecimalValue(s: string): nat
    requires AllDigits(s)
  {
    if s == [] then 0 else DecimalValue(s[..|s| - 1]) * 10 + (s[|s| - 1] as int - '0' as int)
  }

  /** One octet: digits, no leading zero, at most 255. */
  function OctetValue(s: string): (r: Option<nat>)
    ensures r.Some? ==> r.value <= 255
  {
    if s == [] || !AllDigits(s) || (|s| > 1 && s[0] == '0') then None
    else if DecimalValue(s) > 255 then None
    else Some(DecimalValue(s))
  }

  /** `ip2long($ip)`, with `None` for `false`. */
  function Ip2Long(ip: string): (r: Option<nat>)
    ensures r.Some? ==> r.value < 0x1_0000_0000
  {
    var parts := Explode('.', ip);
    if |parts| != 4 then None
    else match (OctetValue(parts[0]), OctetValue(parts[1]), OctetValue(parts[2]), OctetValue(parts[3]))
      case (Some(a), Some(b), Some(c), Some(d)) => Some(a * 0x100_0000 + b * 0x1_0000 + c * 0x100 + d)
      case _ => None
  }

  /** The dotted-quad text of four octets, as `long2ip` writes it. */
  function Quad(a: nat, b: nat, c: nat, d: nat): string
  {
    NatToString(a) + "." + NatToString(b) + "." + NatToString(c) + "." + NatToString(d)
  }

  /** The 32-bit number of four octets. */
  function QuadValue(a: nat, b: nat, c: nat, d: nat): nat
  {
    a * 0x100_0000 + b * 0x1_0000 + c * 0x100 + d
  }

  /** Decimal rendering and reading are inverse. */
  lemma {:induction false} DecimalOfNatToString(n: nat)
    ensures AllDigits(NatToString(n))
    ensures DecimalValue(NatToString(n)) == n
  {
    if n >= 10 {
      DecimalOfNatToString(n / 10);
      var s := NatToString(n);
      assert s[..|s| - 1] == NatToString(n / 10);
    }
  }

  /** The decimal digits of a number below 1000, spelled out. */
  lemma NatToStringDigits(n: nat)
    ensures n < 10 ==> NatToString(n) == [DigitChar(n)]
    ensures 10 <= n < 100 ==> NatToString(n) == [DigitChar(n / 10), DigitChar(n % 10)]
    ensures 100 <= n < 1000 ==> NatToString(n) == [DigitChar(n / 100), DigitChar(n / 10 % 10), DigitChar(n % 10)]
  {
    if 100 <= n < 1000 {
      assert NatToString(n / 10) == [DigitChar(n / 10 / 10), DigitChar(n / 10 % 10)];
    }
  }

  /** A rendered octet reads back as itself. */
  lemma OctetOfNatToString(n: nat)
    requires n <= 255
    ensures OctetValue(NatToString(n)) == Some(n)
  {
    DecimalOfNatToString(n);
    if n >= 10 {
      var s := NatToString(n);
      if n >= 100 {
        assert NatToString(n / 10) == NatToString(n / 100) + [DigitChar(n / 10 % 10)];
        assert s[0] == NatToString(n / 100)[0];
      } else {
        assert s[0] == NatToString(n / 10)[0];
      }
    }
  }

  lemma NoDotInNumber(n: nat)
    ensures '.' !in NatToString(n)
  {
    var s := NatToString(n);
    forall i | 0 <= i < |s|
      ensures s[i] != '.'
    {
      assert '0' <= s[i] <= '9';
    }
  }

  /** The quad text explodes into the four renderings. */
  lemma ExplodeQuad(a: nat, b: nat, c: nat, d: nat)
    ensures Explode('.', Quad(a, b, c, d)) == [NatToString(a), NatToString(b), NatToString(c), NatToString(d)]
  {
    var sa, sb, sc, sd := NatToString(a), NatToString(b), NatToString(c), NatToString(d);
    NoDotInNumber(a);
    NoDotInNumber(b);
    NoDotInNumber(c);
    NoDotInNumber(d);
    var tail := sc + ['.'] + sd;
    var mid := sb + ['.'] + tail;
    assert Quad(a, b, c, d) == sa + ['.'] + mid;
    ExplodeNone('.', sd);
    ExplodeSplit('.', sc, sd);
    ExplodeSplit('.', sb, tail);
    ExplodeSplit('.', sa, mid);
  }

  /** `ip2long` of text that explodes into four octets. */
  lemma Ip2LongOfOctets(ip: string, parts: seq<string>, a: nat, b: nat, c: nat, d: nat)
    requires Explode('.', ip) == parts && |parts| == 4
    requires OctetValue(parts[0]) == Some(a) && OctetValue(parts[1]) == Some(b)
    requires OctetValue(parts[2]) == Some(c) && OctetValue(parts[3]) == Some(d)
    ensures Ip2Long(ip) == Some(QuadValue(a, b, c, d))
  {
  }

  /** `ip2long` of a dotted quad of octets is the four octets as one number. */
  lemma Ip2LongQuad(a: nat, b: nat, c: nat, d: nat)
    requires a <= 255 && b <= 255 && c <= 255 && d <= 255
    ensures Ip2Long(Quad(a, b, c, d)) == Some(QuadValue(a, b, c, d))
  {
    ExplodeQuad(a, b, c, d);
    OctetOfNatToString(a);
    OctetOfNatToString(b);
    OctetOfNatToString(c);
    OctetOfNatToString(d);
    Ip2LongOfOctets(Quad(a, b, c, d), [NatToString(a), NatToString(b), NatToString(c), NatToString(d)], a, b, c, d);
  }
}
