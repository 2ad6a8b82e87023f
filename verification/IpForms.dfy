/** The two forms of an IPv4 address, byte by byte: four bytes, or the same four behind ten zero bytes and
    two of all ones (RFC 4291, section 2.5.5.2). Both forms are one address to the store. */
module IpForms {
  import opened Basics
  import opened IpBits
  import opened RadixShape
  import opened RadixTree
  import opened IpHelper
  import opened IpHistory

  /** ::ffff:a.b.c.d */
  function Mapped(a: Address): Address { [0, 0, 0, 0, 0, 0, 0, 0, 0, 0, 0xff, 0xff] + a }

  ghost predicate IsMapped(ip: Address) { exists a: Address :: |a| == 4 && ip == Mapped(a) }

  /** The mapped form is looked up as the four bytes are. */
  lemma MappedIsSame(a: Address)
    requires |a| == 4
    ensures FamilyOf(a) == V4 && FamilyOf(Mapped(a)) == V4 && AddressBits(Mapped(a)) == AddressBits(a) == BitsOf(a)
  {
    assert Mapped(a)[12..] == a;
  }

  /** Every other address of sixteen bytes is IPv6 and is looked up by all its bits. */
  lemma OthersAreV6(ip: Address)
    requires |ip| == 16 && !IsMapped(ip)
    ensures FamilyOf(ip) == V6 && AddressBits(ip) == BitsOf(ip)
    ensures forall n: nat :: PrefixWalk(Net(ip, n)) == (ip, n)
  {
    assert To4(ip).Some? ==> ip == Mapped(ip[12..]);
  }

  // ---------------------------------------------------------------- networks

  lemma BitBehind(a: Address, i: nat)
    requires |a| == 4 && i < 32
    ensures BitAt(Mapped(a), 96 + i) == BitAt(a, i)
  {
    assert (96 + i) / 8 == 12 + i / 8 && (96 + i) % 8 == i % 8;
    assert Mapped(a)[12 + i / 8] == a[i / 8];
  }

  /** An IPv4 network and its mapped form, 96 mask bits longer, are stored as one prefix of n bits. */
  lemma MappedNetIsSame(a: Address, n: nat)
    requires |a| == 4 && Canonical(Net(a, n))
    ensures Canonical(Net(Mapped(a), 96 + n)) && NetBits(Net(Mapped(a), 96 + n)) == NetBits(Net(a, n))
    ensures PrefixWalk(Net(Mapped(a), 96 + n)).1 == PrefixWalk(Net(a, n)).1 == n
  {
    hide BitAt;
    forall i | 96 + n <= i < 128 ensures BitAt(Mapped(a), i) == 0 { BitBehind(a, i - 96); assert BitAt(a, i - 96) == 0; }
    assert Mapped(a)[12..] == a;
  }

  // ---------------------------------------------------------------- histories

  /** The same operation, its network in either form. */
  predicate SameOp(x: Op, y: Op) {
    || x == y
    || (x.Add? && y.Add? && x.metadata == y.metadata && |x.net.ip| == 4 && y.net == Net(Mapped(x.net.ip), 96 + x.net.ones))
    || (x.Remove? && y.Remove? && |x.net.ip| == 4 && y.net == Net(Mapped(x.net.ip), 96 + x.net.ones))
  }

  ghost predicate SameOps(xs: seq<Op>, ys: seq<Op>) { |xs| == |ys| && forall i :: 0 <= i < |xs| ==> SameOp(xs[i], ys[i]) }

  lemma SameApply(s: Store, x: Op, y: Op)
    requires OpOK(x) && SameOp(x, y)
    ensures OpOK(y) && Apply(s, y) == Apply(s, x)
  {
    hide Canonical, NetBits, AddressBits;
    if x != y { MappedNetIsSame(x.net.ip, x.net.ones); MappedIsSame(x.net.ip); }
  }

  /** Writing the networks of a history in the other form stores the same. */
  lemma {:induction false} FormsStoreTheSame(xs: seq<Op>, ys: seq<Op>)
    requires OpsOK(xs) && SameOps(xs, ys)
    ensures OpsOK(ys) && After(ys) == After(xs)
  {
    hide SameOp, Apply, OpOK;
    forall i | 0 <= i < |ys| ensures OpOK(ys[i]) { SameApply(EMPTY, xs[i], ys[i]); }
    if xs != [] {
      var n := |xs| - 1;
      FormsStoreTheSame(xs[..n], ys[..n]);
      SameApply(After(xs[..n]), xs[n], ys[n]);
    }
  }

  lemma FormsWalkTheSame(a: Address)
    requires |a| == 4
    ensures FamilyWalk(Mapped(a)) == FamilyWalk(a) == (a, 32)
  {
    assert Mapped(a)[12..] == a;
  }

  /** After any history an address is covered by the same adds in either form, so a lookup answers the same. */
  lemma FormsAreCoveredTheSame(ops: seq<Op>, i: nat, a: Address)
    requires |a| == 4
    ensures Covers(ops, i, Mapped(a)) <==> Covers(ops, i, a)
  {
    hide Canonical, NetBits, FamilyOf;
    FormsWalkTheSame(a);
  }

  /** The store asked for an address in either form gives one answer. */
  method AskEither(ops: seq<Op>, a: Address) returns (found: bool, prefixLen: nat, metadata: string)
    requires OpsOK(ops) && |a| == 4
    ensures found <==> exists i: nat :: Covers(ops, i, a)
    ensures forall i: nat :: Covers(ops, i, a) ==> PrefixWalk(ops[i].net).1 <= prefixLen
    ensures found ==> exists i: nat :: Covers(ops, i, a) && PrefixWalk(ops[i].net).1 == prefixLen && ops[i].metadata == metadata
  {
    hide Covers;
    forall i: nat ensures Covers(ops, i, Mapped(a)) <==> Covers(ops, i, a) { FormsAreCoveredTheSame(ops, i, a); }
    found, prefixLen, metadata := Ask(ops, Mapped(a));
  }
}
