/** Addresses and networks as bit strings: the pure part of iplookup/tree.go. */
module IpBits {
  import opened Basics

  type Bits = seq<bool>
  type Address = seq<bv8>

  predicate WellFormed(ip: Address) { |ip| == 4 || |ip| == 16 }

  /** The 4-byte form of an IPv4 or IPv4-mapped address (RFC 4291, section 2.5.5.2). */
  function To4(ip: Address): Option<Address> {
    if |ip| == 4 then Some(ip)
    else if |ip| == 16 && (forall i :: 0 <= i < 10 ==> ip[i] == 0) && ip[10] == 0xff && ip[11] == 0xff then Some(ip[12..])
    else None
  }

  /** The bit at a position, most significant bit of each byte first. */
  function BitAt(walk: Address, pos: nat): bv8
    requires pos < 8 * |walk|
  {
    (walk[pos / 8] >> (7 - pos % 8)) & 1
  }

  function BitsOf(walk: Address): (r: Bits)
    ensures |r| == 8 * |walk|
  {
    seq(8 * |walk|, i requires 0 <= i < 8 * |walk| => BitAt(walk, i) == 1)
  }

  lemma BitIsOf(walk: Address, pos: nat)
    requires pos < 8 * |walk|
    ensures BitsOf(walk)[pos] <==> BitAt(walk, pos) != 0
  {
    BitIsBinary(walk[pos / 8] >> (7 - pos % 8));
  }

  lemma BitIsBinary(b: bv8)
    ensures b & 1 == 0 || b & 1 == 1
  {
  }

  function FamilyWalk(ip: Address): (Address, nat) {
    match To4(ip)
    case Some(v4) => (v4, 32)
    case None => (ip, 128)
  }

  /** A network address with a prefix mask of `ones` leading ones as long as the address. */
  datatype Net = Net(ip: Address, ones: nat)

  /** What parsing a CIDR text yields: the mask fits the address and the host bits are zero. */
  predicate Canonical(net: Net) {
    && WellFormed(net.ip) && net.ones <= 8 * |net.ip|
    && forall i :: net.ones <= i < 8 * |net.ip| ==> BitAt(net.ip, i) == 0
  }

  function PrefixWalk(net: Net): (Address, nat) {
    var walk := FamilyWalk(net.ip).0;
    (walk, if To4(net.ip).Some? && |net.ip| == 16 && net.ones >= 96 then net.ones - 96 else net.ones)
  }

  datatype Family = V4 | V6

  function FamilyOf(ip: Address): Family { if To4(ip).Some? then V4 else V6 }

  /** The bit string an address is looked up by. */
  function AddressBits(ip: Address): Bits { BitsOf(FamilyWalk(ip).0) }

  /** The bit string a network is stored under. */
  function NetBits(net: Net): Bits
    requires Canonical(net)
  {
    WalkFits(net);
    BitsOf(PrefixWalk(net).0)[..PrefixWalk(net).1]
  }

  // ---------------------------------------------------------------- the walk stays inside the address

  lemma AllOnesHasOnes(b: bv8)
    requires b == 0xff
    ensures (b >> 0) & 1 == 1
  {
  }

  /** An IPv4-mapped network cannot have fewer than 96 mask bits: bit 95 of its address is set. */
  lemma MappedNeedsNinetySix(net: Net)
    requires Canonical(net) && |net.ip| == 16 && To4(net.ip).Some?
    ensures net.ones >= 96
  {
    assert BitAt(net.ip, 95) == (net.ip[11] >> 0) & 1;
    AllOnesHasOnes(net.ip[11]);
  }

  /** So the walk of any network and of any address ends within the bytes it walks. */
  lemma WalkFits(net: Net)
    requires Canonical(net)
    ensures PrefixWalk(net).1 <= 8 * |PrefixWalk(net).0| <= FamilyWalk(net.ip).1
    ensures 8 * |FamilyWalk(net.ip).0| == FamilyWalk(net.ip).1
  {
    if |net.ip| == 16 && To4(net.ip).Some? { MappedNeedsNinetySix(net); }
  }

  lemma AddressFits(ip: Address)
    requires WellFormed(ip)
    ensures 8 * |FamilyWalk(ip).0| == FamilyWalk(ip).1 == |AddressBits(ip)|
  {
  }

  // ---------------------------------------------------------------- masks

  /** One byte of a prefix mask: its m leading bits are ones. */
  function MaskByte(m: nat): bv8
    requires m <= 8
  {
    (0xff as bv8) << (8 - m)
  }

  /** Byte i of a mask with `ones` leading ones. */
  function MaskAt(ones: nat, i: nat): bv8 {
    if ones >= 8 * i + 8 then MaskByte(8) else if ones <= 8 * i then MaskByte(0) else MaskByte(ones - 8 * i)
  }

  function Under(b: bv8, mask: bv8): bv8 { b & mask }

  /** The bytes agree wherever the mask of n ones is set. */
  ghost predicate SameUnder(x: Address, y: Address, n: nat) {
    |x| == |y| && forall i :: 0 <= i < |x| ==> Under(x[i], MaskAt(n, i)) == Under(y[i], MaskAt(n, i))
  }

  /** net.IPNet.Contains of the Go standard library. The mask of an IPv4-mapped network loses the 12
      bytes its address loses. */
  ghost predicate MaskedMember(net: Net, ip: Address) {
    var base := FamilyWalk(net.ip).0;
    var skip := if |net.ip| == 16 && |base| == 4 then 12 else 0;
    var a := FamilyWalk(ip).0;
    |a| == |base| && forall i :: 0 <= i < |a| ==>
      Under(base[i], MaskAt(net.ones, skip + i)) == Under(a[i], MaskAt(net.ones, skip + i))
  }

  // ---------------------------------------------------------------- one byte

  predicate Bit(b: bv8, j: nat)
    requires j < 8
  {
    (b >> (7 - j)) & 1 == 1
  }

  /** The first m bits agree. */
  predicate SameTop(a: bv8, b: bv8, m: nat)
    requires m <= 8
  {
    && (m > 0 ==> Bit(a, 0) == Bit(b, 0)) && (m > 1 ==> Bit(a, 1) == Bit(b, 1))
    && (m > 2 ==> Bit(a, 2) == Bit(b, 2)) && (m > 3 ==> Bit(a, 3) == Bit(b, 3))
    && (m > 4 ==> Bit(a, 4) == Bit(b, 4)) && (m > 5 ==> Bit(a, 5) == Bit(b, 5))
    && (m > 6 ==> Bit(a, 6) == Bit(b, 6)) && (m > 7 ==> Bit(a, 7) == Bit(b, 7))
  }

  lemma MaskedLow(a: bv8, b: bv8, m: nat)
    requires m <= 4
    ensures Under(a, MaskByte(m)) == Under(b, MaskByte(m)) <==> SameTop(a, b, m)
  {
    if m == 0 { } else if m == 1 { } else if m == 2 { } else if m == 3 { } else { assert m == 4; }
  }

  lemma MaskedMiddle(a: bv8, b: bv8, m: nat)
    requires 4 < m <= 6
    ensures Under(a, MaskByte(m)) == Under(b, MaskByte(m)) <==> SameTop(a, b, m)
  {
    if m == 5 { } else { assert m == 6; }
  }

  lemma MaskedSeven(a: bv8, b: bv8)
    ensures Under(a, MaskByte(7)) == Under(b, MaskByte(7)) <==> SameTop(a, b, 7)
  {
  }

  lemma MaskedEight(a: bv8, b: bv8)
    ensures Under(a, MaskByte(8)) == Under(b, MaskByte(8)) <==> SameTop(a, b, 8)
  {
  }

  lemma TopIsAll(a: bv8, b: bv8, m: nat)
    requires m <= 8
    ensures SameTop(a, b, m) <==> forall j :: 0 <= j < m ==> Bit(a, j) == Bit(b, j)
  {
    hide Bit;
  }

  // ---------------------------------------------------------------- whole addresses

  /** Position p is bit p % 8 of byte p / 8. */
  lemma BitsAt(walk: Address, p: nat)
    requires p < 8 * |walk|
    ensures BitsOf(walk)[p] == Bit(walk[p / 8], p % 8)
  {
  }

  /** How many of the n leading bits fall in byte i. */
  function Share(n: nat, i: nat): nat { if n >= 8 * i + 8 then 8 else if n <= 8 * i then 0 else n - 8 * i }

  lemma MaskedByte(a: bv8, b: bv8, n: nat, i: nat)
    ensures Under(a, MaskAt(n, i)) == Under(b, MaskAt(n, i)) <==> forall j :: 0 <= j < Share(n, i) ==> Bit(a, j) == Bit(b, j)
  {
    hide SameTop, MaskByte, Under, Bit;
    var m := Share(n, i);
    if m <= 4 { MaskedLow(a, b, m); } else if m <= 6 { MaskedMiddle(a, b, m); } else if m == 7 { MaskedSeven(a, b); } else { MaskedEight(a, b); }
    TopIsAll(a, b, m);
  }

  /** Byte i of both addresses agrees under the mask exactly if the first n bits that fall in it do. */
  lemma ByteIsRange(x: Address, y: Address, n: nat, i: nat)
    requires |x| == |y| && i < |x| && n <= 8 * |x|
    ensures Under(x[i], MaskAt(n, i)) == Under(y[i], MaskAt(n, i))
            <==> forall p :: 8 * i <= p < 8 * i + Share(n, i) ==> BitsOf(x)[p] == BitsOf(y)[p]
  {
    hide MaskAt, Under, Bit, BitsOf;
    MaskedByte(x[i], y[i], n, i);
    forall p | 8 * i <= p < 8 * i + 8
      ensures BitsOf(x)[p] == Bit(x[i], p - 8 * i) && BitsOf(y)[p] == Bit(y[i], p - 8 * i)
    {
      assert p / 8 == i && p % 8 == p - 8 * i;
      BitsAt(x, p);
      BitsAt(y, p);
    }
    forall j | 0 <= j < Share(n, i)
      ensures BitsOf(x)[8 * i + j] == Bit(x[i], j) && BitsOf(y)[8 * i + j] == Bit(y[i], j)
    {
    }
  }

  /** Addresses that agree under a mask of n ones are addresses whose first n bits agree. */
  lemma MaskIsPrefix(x: Address, y: Address, n: nat)
    requires |x| == |y| && n <= 8 * |x|
    ensures SameUnder(x, y, n) <==> BitsOf(x)[..n] == BitsOf(y)[..n]
  {
    hide MaskAt, Under, BitsOf;
    forall i: nat | i < |x|
      ensures Under(x[i], MaskAt(n, i)) == Under(y[i], MaskAt(n, i))
              <==> forall p :: 8 * i <= p < 8 * i + Share(n, i) ==> BitsOf(x)[p] == BitsOf(y)[p]
    {
      ByteIsRange(x, y, n, i);
    }
    if SameUnder(x, y, n) {
      forall p | 0 <= p < n ensures BitsOf(x)[p] == BitsOf(y)[p] {
        var i := p / 8;
        assert Under(x[i], MaskAt(n, i)) == Under(y[i], MaskAt(n, i));
      }
    }
    if BitsOf(x)[..n] == BitsOf(y)[..n] {
      forall p | 0 <= p < n ensures BitsOf(x)[p] == BitsOf(y)[p] {
        assert BitsOf(x)[p] == BitsOf(x)[..n][p] && BitsOf(y)[p] == BitsOf(y)[..n][p];
      }
    }
  }

  lemma MaskShifts(n: nat, skip: nat, i: nat)
    ensures MaskAt(n + 8 * skip, skip + i) == MaskAt(n, i)
  {
    hide MaskByte;
  }

  /** Looking a network's bits up along an address is masked membership, within the family: an address
      of the other family never matches. */
  lemma MembershipIsPrefix(net: Net, ip: Address)
    requires Canonical(net) && WellFormed(ip)
    ensures MaskedMember(net, ip) <==> FamilyOf(net.ip) == FamilyOf(ip) && NetBits(net) <= AddressBits(ip)
  {
    hide BitsOf, MaskAt, Under, Canonical;
    var (base, n) := PrefixWalk(net);
    var a := FamilyWalk(ip).0;
    WalkFits(net);
    Lengths(net, ip);
    if |a| == |base| {
      SkipsMask(net, a);
      MaskIsPrefix(base, a, n);
      assert NetBits(net) <= AddressBits(ip) <==> BitsOf(base)[..n] == BitsOf(a)[..n];
    }
  }

  lemma Lengths(net: Net, ip: Address)
    requires Canonical(net) && WellFormed(ip)
    ensures |FamilyWalk(ip).0| == |PrefixWalk(net).0| <==> FamilyOf(net.ip) == FamilyOf(ip)
  {
    hide BitAt;
  }

  lemma SkipsMask(net: Net, a: Address)
    requires Canonical(net)
    ensures (var base := FamilyWalk(net.ip).0;
             var skip := if |net.ip| == 16 && |base| == 4 then 12 else 0;
             |a| == |base| && forall i :: 0 <= i < |a| ==>
               Under(base[i], MaskAt(net.ones, skip + i)) == Under(a[i], MaskAt(net.ones, skip + i)))
            <==> SameUnder(PrefixWalk(net).0, a, PrefixWalk(net).1)
  {
    hide MaskAt, Under, BitAt;
    var (base, n) := PrefixWalk(net);
    var skip := if |net.ip| == 16 && |base| == 4 then 12 else 0;
    if skip == 12 { MappedNeedsNinetySix(net); }
    assert net.ones == n + 8 * skip;
    forall i: nat ensures MaskAt(net.ones, skip + i) == MaskAt(n, i) { MaskShifts(n, skip, i); }
  }
}
