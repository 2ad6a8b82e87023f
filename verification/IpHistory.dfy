/** The CIDR store over whole histories of adds, removes and resets. */
module IpHistory {
  import opened Basics
  import opened IpBits
  import opened RadixShape
  import opened RadixTree
  import opened IpHelper

  datatype Op = Add(net: Net, metadata: string) | Remove(net: Net) | ResetAll

  predicate OpOK(op: Op) { op.ResetAll? || Canonical(op.net) }

  ghost predicate OpsOK(ops: seq<Op>) { forall i :: 0 <= i < |ops| ==> OpOK(ops[i]) }

  function Apply(s: Store, op: Op): Store
    requires OpOK(op)
  {
    match op
    case Add(net, metadata) => Added(s, net, metadata)
    case Remove(net) => Removed(s, net)
    case ResetAll => EMPTY
  }

  ghost function After(ops: seq<Op>): Store
    requires OpsOK(ops)
  {
    if ops == [] then EMPTY else Apply(After(ops[..|ops| - 1]), ops[|ops| - 1])
  }

  /** One operation of a history. */
  method Do(h: Helper, op: Op)
    requires h.Valid() && OpOK(op)
    modifies h, h.ipv4Tree, h.ipv6Tree, h.Nodes()
    ensures h.Valid() && h.Contents() == Apply(old(h.Contents()), op)
    ensures fresh(h.ipv4Tree) || h.ipv4Tree == old(h.ipv4Tree)
    ensures fresh(h.ipv6Tree) || h.ipv6Tree == old(h.ipv6Tree)
    ensures fresh(h.Nodes() - old(h.Nodes()))
  {
    hide Canonical, NetBits, Helper.Valid, Added, Removed;
    match op
    case Add(net, metadata) => var _ := h.AddCIDR(Some(net), metadata);
    case Remove(net) => var _, _ := h.RemoveCIDR(Some(net));
    case ResetAll => h.Reset();
  }

  /** Runs a history on a new helper. */
  method Replay(ops: seq<Op>) returns (h: Helper)
    requires OpsOK(ops)
    ensures fresh(h) && fresh(h.ipv4Tree) && fresh(h.ipv6Tree) && fresh(h.Nodes())
    ensures h.Valid() && h.Contents() == After(ops)
  {
    hide Canonical, Helper.Valid, Apply;
    h := new Helper();
    var i := 0;
    while i < |ops|
      invariant 0 <= i <= |ops| && fresh(h) && fresh(h.ipv4Tree) && fresh(h.ipv6Tree) && fresh(h.Nodes())
      invariant h.Valid() && h.Contents() == After(ops[..i])
    {
      assert ops[..i + 1][..i] == ops[..i];
      Do(h, ops[i]);
      i := i + 1;
    }
    assert ops[..i] == ops;
  }

  // ---------------------------------------------------------------- what a history stores

  ghost predicate Names(net: Net, f: Family, p: Bits) { Canonical(net) && FamilyOf(net.ip) == f && NetBits(net) == p }

  /** The operation decides what is stored under the prefix. */
  ghost predicate Decides(op: Op, f: Family, p: Bits) { op.ResetAll? || Names(op.net, f, p) }

  /** The operation is an add that nothing later replaced, removed or reset. */
  ghost predicate Stands(ops: seq<Op>, i: nat, f: Family, p: Bits) {
    i < |ops| && ops[i].Add? && Names(ops[i].net, f, p) && forall j :: i < j < |ops| ==> !Decides(ops[j], f, p)
  }

  lemma ApplyAt(s: Store, op: Op, f: Family, p: Bits)
    requires OpOK(op)
    ensures var r := Of(Apply(s, op), f);
            && (op.Add? && Names(op.net, f, p) ==> p in r && r[p] == op.metadata)
            && (!op.Add? && Decides(op, f, p) ==> p !in r)
            && (!Decides(op, f, p) ==> (p in r <==> p in Of(s, f)) && (p in r ==> r[p] == Of(s, f)[p]))
  {
    hide Canonical, NetBits, FamilyOf;
  }

  /** A prefix is stored exactly if some add of it stands, and then with that add's label. */
  lemma {:induction false} LatestLabel(ops: seq<Op>, f: Family, p: Bits)
    requires OpsOK(ops)
    ensures p in Of(After(ops), f) <==> exists i: nat :: Stands(ops, i, f, p)
    ensures forall i: nat :: Stands(ops, i, f, p) ==> p in Of(After(ops), f) && Of(After(ops), f)[p] == ops[i].metadata
  {
    hide Names, Apply, OpOK;
    if ops != [] {
      var n := |ops| - 1;
      var was := ops[..n];
      LatestLabel(was, f, p);
      ApplyAt(After(was), ops[n], f, p);
      if Decides(ops[n], f, p) {
        assert ops[n].Add? <==> Stands(ops, n, f, p);
        assert forall i: nat :: i < n ==> !Stands(ops, i, f, p);
      } else {
        forall i: nat | i < n ensures Stands(ops, i, f, p) <==> Stands(was, i, f, p) { LastDecidesNot(ops, i, f, p); }
        assert forall i: nat :: Stands(ops, i, f, p) ==> i < n && was[i] == ops[i];
      }
    }
  }

  lemma LastDecidesNot(ops: seq<Op>, i: nat, f: Family, p: Bits)
    requires i + 1 < |ops| && !Decides(ops[|ops| - 1], f, p)
    ensures Stands(ops, i, f, p) <==> Stands(ops[..|ops| - 1], i, f, p)
  {
    hide Names;
    var was := ops[..|ops| - 1];
    if Stands(ops, i, f, p) { forall j | i < j < |was| ensures !Decides(was[j], f, p) { assert was[j] == ops[j]; } }
    if Stands(was, i, f, p) {
      forall j | i < j < |ops| ensures !Decides(ops[j], f, p) { if j < |was| { assert was[j] == ops[j]; } }
    }
  }

  // ---------------------------------------------------------------- what a lookup finds

  /** The add stands and its network contains the address, by masked comparison. */
  ghost predicate Covers(ops: seq<Op>, i: nat, ip: Address) {
    && i < |ops| && ops[i].Add? && Canonical(ops[i].net)
    && Stands(ops, i, FamilyOf(ops[i].net.ip), NetBits(ops[i].net)) && MaskedMember(ops[i].net, ip)
  }

  /** After any history, a lookup finds an address exactly if the network of some standing add contains
      it, and then answers with the longest such network and its label. */
  lemma LookupIsLongestMember(ops: seq<Op>, ip: Address, found: bool, len: nat, tag: string)
    requires OpsOK(ops) && WellFormed(ip)
    requires Longest(Of(After(ops), FamilyOf(ip)), AddressBits(ip), found, len, tag)
    ensures found <==> exists i: nat :: Covers(ops, i, ip)
    ensures forall i: nat :: Covers(ops, i, ip) ==> PrefixWalk(ops[i].net).1 <= len
    ensures found ==> exists i: nat :: Covers(ops, i, ip) && PrefixWalk(ops[i].net).1 == len && ops[i].metadata == tag
  {
    hide Canonical, MaskedMember, Stands, After, AddressBits;
    forall i: nat | Covers(ops, i, ip) ensures found && PrefixWalk(ops[i].net).1 <= len { CoveredIsFound(ops, i, ip, found, len, tag); }
    if found {
      var f, p := FamilyOf(ip), AddressBits(ip)[..len];
      LatestLabel(ops, f, p);
      var i: nat :| Stands(ops, i, f, p);
      FoundIsCovered(ops, i, ip, len);
    }
  }

  lemma CoveredIsFound(ops: seq<Op>, i: nat, ip: Address, found: bool, len: nat, tag: string)
    requires OpsOK(ops) && WellFormed(ip) && Covers(ops, i, ip)
    requires Longest(Of(After(ops), FamilyOf(ip)), AddressBits(ip), found, len, tag)
    ensures found && PrefixWalk(ops[i].net).1 <= len
  {
    hide Canonical, MaskedMember, Stands, After, AddressBits, BitsOf, FamilyOf;
    var net := ops[i].net;
    MembershipIsPrefix(net, ip);
    LatestLabel(ops, FamilyOf(net.ip), NetBits(net));
    WalkFits(net);
    assert AddressBits(ip)[..|NetBits(net)|] == NetBits(net);
  }

  lemma FoundIsCovered(ops: seq<Op>, i: nat, ip: Address, len: nat)
    requires OpsOK(ops) && WellFormed(ip) && len <= |AddressBits(ip)| && Stands(ops, i, FamilyOf(ip), AddressBits(ip)[..len])
    ensures Covers(ops, i, ip) && PrefixWalk(ops[i].net).1 == len
  {
    hide Canonical, MaskedMember, After, AddressBits, BitsOf, FamilyOf;
    var net := ops[i].net;
    WalkFits(net);
    MembershipIsPrefix(net, ip);
  }

  /** Asks a helper with this history for an address: it is found exactly if the network of some standing
      add contains it, and the answer is the longest such network with its label. */
  method Ask(ops: seq<Op>, ip: Address) returns (found: bool, prefixLen: nat, metadata: string)
    requires OpsOK(ops) && WellFormed(ip)
    ensures found <==> exists i: nat :: Covers(ops, i, ip)
    ensures forall i: nat :: Covers(ops, i, ip) ==> PrefixWalk(ops[i].net).1 <= prefixLen
    ensures found ==> exists i: nat :: Covers(ops, i, ip) && PrefixWalk(ops[i].net).1 == prefixLen && ops[i].metadata == metadata
  {
    hide Canonical, MaskedMember, Stands, After, AddressBits, Covers, Longest, Helper.Valid;
    var h := Replay(ops);
    var ok;
    found, prefixLen, metadata, ok := h.Contains(Some(ip));
    LookupIsLongestMember(ops, ip, found, prefixLen, metadata);
  }

  // ---------------------------------------------------------------- removal undoes insertion

  /** Removing a prefix that was just added fresh leaves the trie node for node as it was: the same nodes
      exist, with the same marks. */
  method AddThenRemove(t: Tree, net: Net, metadata: string)
    requires t.Valid() && Canonical(net) && NetBits(net) !in t.stored
    modifies t`nodes, t`stored, t.nodes.Values
    ensures t.Valid() && Snapshot(t.Now()) == old(Snapshot(t.Now())) && t.stored == old(t.stored)
  {
    hide Canonical, NetBits, Good, Snapshot, Picture;
    TrieIsItsContents(t.Now());
    var added := t.Insert(net, metadata);
    var removed := t.Remove(net);
    assert t.stored == old(t.stored);
    TrieIsItsContents(t.Now());
  }

  /** The same of the whole helper: both tries and the count are as they were. */
  method AddThenRemoveCIDR(h: Helper, net: Net, metadata: string)
    requires h.Valid() && Canonical(net) && !Has(h.Contents(), net)
    modifies h, h.ipv4Tree, h.ipv6Tree, h.Nodes()
    ensures h.Valid() && h.ipv4Tree == old(h.ipv4Tree) && h.ipv6Tree == old(h.ipv6Tree)
    ensures Snapshot(h.ipv4Tree.Now()) == old(Snapshot(h.ipv4Tree.Now()))
    ensures Snapshot(h.ipv6Tree.Now()) == old(Snapshot(h.ipv6Tree.Now()))
    ensures h.count == old(h.count)
  {
    hide Canonical, NetBits, Snapshot, Picture, Tree.Now, FamilyOf, Helper.Valid, Added, Removed, Has;
    TriesAreTheirContents(h);
    var added := h.AddCIDR(Some(net), metadata);
    var removed, ok := h.RemoveCIDR(Some(net));
    AddedIsRemoved(old(h.Contents()), net, metadata);
    TriesAreTheirContents(h);
  }

  lemma TriesAreTheirContents(h: Helper)
    requires h.Valid()
    ensures Snapshot(h.ipv4Tree.Now()) == Picture(h.Contents().v4) && Snapshot(h.ipv6Tree.Now()) == Picture(h.Contents().v6)
  {
    hide Good, Snapshot, Picture;
    TrieIsItsContents(h.ipv4Tree.Now());
    TrieIsItsContents(h.ipv6Tree.Now());
  }

  lemma AddedIsRemoved(s: Store, net: Net, metadata: string)
    requires Canonical(net) && !Has(s, net)
    ensures Has(Added(s, net, metadata), net) && Removed(Added(s, net, metadata), net) == s
  {
    hide Canonical, NetBits, FamilyOf;
    assert Of(s, FamilyOf(net.ip))[NetBits(net) := metadata] - {NetBits(net)} == Of(s, FamilyOf(net.ip));
  }
}
