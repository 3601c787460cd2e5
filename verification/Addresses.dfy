/** IPv4 addresses, CIDR blocks and the option type used throughout. */
module Addresses {

  datatype Option<+T> = None | Some(value: T)

  const ADDRESS_COUNT := 0x1_0000_0000

  type IPv4 = a: int | 0 <= a < ADDRESS_COUNT

  type Octet = o: int | 0 <= o < 256

  /** The address written a.b.c.d. */
  function Dotted(a: Octet, b: Octet, c: Octet, d: Octet): IPv4 {
    ((a * 256 + b) * 256 + c) * 256 + d
  }

  /** The octet at position i of the dotted form. */
  function OctetAt(addr: IPv4, i: int): Octet
    requires 0 <= i < 4
  {
    match i
    case 0 => addr / 0x100_0000
    case 1 => addr / 0x1_0000 % 256
    case 2 => addr / 0x100 % 256
    case 3 => addr % 256
  }

  /** A CIDR block: the addresses that share the first `bits` bits of `net`. */
  datatype Cidr = Cidr(net: IPv4, bits: int)

  /** The number of addresses a prefix of this length covers: 2^(32 - bits). */
  function Span(bits: int): (span: int)
    ensures span > 0
    decreases 32 - bits
  {
    if bits >= 32 then 1 else 2 * Span(bits + 1)
  }

  /** Prefix match: both addresses agree above the host part. */
  predicate Contains(block: Cidr, addr: IPv4) {
    addr / Span(block.bits) == block.net / Span(block.bits)
  }

  lemma Spans()
    ensures Span(32) == 1 && Span(16) == 0x1_0000 && Span(12) == 0x10_0000
    ensures Span(8) == 0x100_0000 && Span(4) == 0x1000_0000
  {
    assert Span(28) == 0x10;
    assert Span(24) == 0x100;
    assert Span(20) == 0x1000;
  }
}
