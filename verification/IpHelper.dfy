/** The CIDR store of iplookup/helper.go: one trie per address family and a count of prefixes. */
module IpHelper {
  import opened Basics
  import opened IpBits
  import opened RadixShape
  import opened RadixTree

  /** What is stored, family by family. */
  datatype Store = Store(v4: Prefixes, v6: Prefixes)

  const EMPTY := Store(map[], map[])

  function Of(s: Store, f: Family): Prefixes { if f == V4 then s.v4 else s.v6 }

  function With(s: Store, f: Family, p: Prefixes): Store { if f == V4 then s.(v4 := p) else s.(v6 := p) }

  function Added(s: Store, net: Net, metadata: string): Store
    requires Canonical(net)
  {
    With(s, FamilyOf(net.ip), Of(s, FamilyOf(net.ip))[NetBits(net) := metadata])
  }

  function Removed(s: Store, net: Net): Store
    requires Canonical(net)
  {
    With(s, FamilyOf(net.ip), Of(s, FamilyOf(net.ip)) - {NetBits(net)})
  }

  predicate Has(s: Store, net: Net)
    requires Canonical(net)
  {
    NetBits(net) in Of(s, FamilyOf(net.ip))
  }

  lemma RemovedCount(s: Prefixes, p: Bits)
    ensures |s - {p}| == |s| - if p in s then 1 else 0
  {
    assert (s - {p}).Keys == s.Keys - {p};
  }

  lemma AddedCount(s: Prefixes, p: Bits, metadata: string)
    ensures |s[p := metadata]| == |s| + if p in s then 0 else 1
  {
    assert s[p := metadata].Keys == s.Keys + {p};
  }

  /** Removal in one family's trie leaves the other family's alone. */
  method RemoveFrom(tree: Tree, ghost other: Tree, net: Net) returns (removed: bool)
    requires tree != other && tree.nodes.Values !! other.nodes.Values && tree.Valid() && other.Valid() && Canonical(net)
    modifies tree`nodes, tree`stored, tree.nodes.Values
    ensures tree.Valid() && other.Valid() && tree.nodes.Values !! other.nodes.Values
    ensures tree.nodes.Values <= old(tree.nodes.Values)
    ensures tree.stored == old(tree.stored) - {NetBits(net)} && removed == (NetBits(net) in old(tree.stored))
    ensures |tree.stored| == |old(tree.stored)| - if removed then 1 else 0
  {
    hide Tree.Valid, NetBits, Canonical;
    RemovedCount(tree.stored, NetBits(net));
    removed := tree.Remove(net);
  }

  /** So does insertion. */
  method InsertInto(tree: Tree, ghost other: Tree, net: Net, metadata: string) returns (added: bool)
    requires tree != other && tree.nodes.Values !! other.nodes.Values && tree.Valid() && other.Valid() && Canonical(net)
    modifies tree`nodes, tree`stored, tree.nodes.Values
    ensures tree.Valid() && other.Valid() && tree.nodes.Values !! other.nodes.Values
    ensures fresh(tree.nodes.Values - old(tree.nodes.Values))
    ensures tree.stored == old(tree.stored)[NetBits(net) := metadata] && added == (NetBits(net) !in old(tree.stored))
    ensures |tree.stored| == |old(tree.stored)| + if added then 1 else 0
  {
    hide Tree.Valid, NetBits, Canonical;
    AddedCount(tree.stored, NetBits(net), metadata);
    added := tree.Insert(net, metadata);
  }

  class Helper {
    var ipv4Tree: Tree
    var ipv6Tree: Tree
    var count: int

    ghost function Contents(): Store
      reads this, ipv4Tree, ipv6Tree
    {
      Store(ipv4Tree.stored, ipv6Tree.stored)
    }

    ghost function Nodes(): set<Node>
      reads this, ipv4Tree, ipv6Tree
    {
      ipv4Tree.nodes.Values + ipv6Tree.nodes.Values
    }

    ghost predicate Valid()
      reads this, ipv4Tree, ipv6Tree, Nodes()
    {
      && ipv4Tree != ipv6Tree && ipv4Tree.nodes.Values !! ipv6Tree.nodes.Values
      && ipv4Tree.Valid() && ipv6Tree.Valid()
      && count == |ipv4Tree.stored| + |ipv6Tree.stored|
    }

    constructor ()
      ensures Valid() && Contents() == EMPTY && fresh(ipv4Tree) && fresh(ipv6Tree) && fresh(Nodes())
    {
      hide Tree.Valid;
      ipv4Tree := new Tree();
      ipv6Tree := new Tree();
      count := 0;
    }

    method TreeFor(ip: Address) returns (tree: Tree)
      ensures tree == if FamilyOf(ip) == V4 then ipv4Tree else ipv6Tree
    {
      if To4(ip).Some? { return ipv4Tree; }
      return ipv6Tree;
    }

    /** Stores on the V4 trie. */
    method InsertV4(net: Net, metadata: string)
      requires Valid() && Canonical(net) && FamilyOf(net.ip) == V4
      modifies this`count, ipv4Tree`nodes, ipv4Tree`stored, ipv4Tree.nodes.Values
      ensures Valid() && fresh(Nodes() - old(Nodes())) && Contents() == Added(old(Contents()), net, metadata)
      ensures count == old(count) + if Has(old(Contents()), net) then 0 else 1
    {
      hide Tree.Valid, NetBits, FamilyOf, Canonical;
      var added := InsertInto(ipv4Tree, ipv6Tree, net, metadata);
      if added { count := count + 1; }
    }

    method RemoveV4(net: Net) returns (removed: bool)
      requires Valid() && Canonical(net) && FamilyOf(net.ip) == V4
      modifies this`count, ipv4Tree`nodes, ipv4Tree`stored, ipv4Tree.nodes.Values
      ensures Valid() && Nodes() <= old(Nodes()) && Contents() == Removed(old(Contents()), net)
      ensures removed == Has(old(Contents()), net) && count == old(count) - if removed then 1 else 0
    {
      hide Tree.Valid, NetBits, FamilyOf, Canonical;
      removed := RemoveFrom(ipv4Tree, ipv6Tree, net);
      if removed { count := count - 1; }
    }

    /** Stores on the V6 trie. */
    method InsertV6(net: Net, metadata: string)
      requires Valid() && Canonical(net) && FamilyOf(net.ip) == V6
      modifies this`count, ipv6Tree`nodes, ipv6Tree`stored, ipv6Tree.nodes.Values
      ensures Valid() && fresh(Nodes() - old(Nodes())) && Contents() == Added(old(Contents()), net, metadata)
      ensures count == old(count) + if Has(old(Contents()), net) then 0 else 1
    {
      hide Tree.Valid, NetBits, FamilyOf, Canonical;
      var added := InsertInto(ipv6Tree, ipv4Tree, net, metadata);
      if added { count := count + 1; }
    }

    method RemoveV6(net: Net) returns (removed: bool)
      requires Valid() && Canonical(net) && FamilyOf(net.ip) == V6
      modifies this`count, ipv6Tree`nodes, ipv6Tree`stored, ipv6Tree.nodes.Values
      ensures Valid() && Nodes() <= old(Nodes()) && Contents() == Removed(old(Contents()), net)
      ensures removed == Has(old(Contents()), net) && count == old(count) - if removed then 1 else 0
    {
      hide Tree.Valid, NetBits, FamilyOf, Canonical;
      removed := RemoveFrom(ipv6Tree, ipv4Tree, net);
      if removed { count := count - 1; }
    }

    /** `block` is the parsed network, or nothing if the text is no CIDR. */
    method AddCIDR(block: Option<Net>, metadata: string) returns (ok: bool)
      requires Valid() && (block.Some? ==> Canonical(block.value))
      modifies this, ipv4Tree, ipv6Tree, Nodes()
      ensures Valid() && ok == block.Some?
      ensures ipv4Tree == old(ipv4Tree) && ipv6Tree == old(ipv6Tree) && fresh(Nodes() - old(Nodes()))
      ensures Contents() == if ok then Added(old(Contents()), block.value, metadata) else old(Contents())
      ensures count == old(count) + if ok && !Has(old(Contents()), block.value) then 1 else 0
    {
      hide Valid, NetBits, Canonical;
      if block.None? { return false; }
      if To4(block.value.ip).Some? { InsertV4(block.value, metadata); } else { InsertV6(block.value, metadata); }
      ok := true;
    }

    method RemoveCIDR(block: Option<Net>) returns (removed: bool, ok: bool)
      requires Valid() && (block.Some? ==> Canonical(block.value))
      modifies this, ipv4Tree, ipv6Tree, Nodes()
      ensures Valid() && ok == block.Some?
      ensures ipv4Tree == old(ipv4Tree) && ipv6Tree == old(ipv6Tree) && Nodes() <= old(Nodes())
      ensures removed == (ok && Has(old(Contents()), block.value))
      ensures Contents() == if ok then Removed(old(Contents()), block.value) else old(Contents())
      ensures count == old(count) - if removed then 1 else 0
    {
      hide Valid, NetBits, Canonical;
      if block.None? { return false, false; }
      if To4(block.value.ip).Some? { removed := RemoveV4(block.value); } else { removed := RemoveV6(block.value); }
      ok := true;
    }

    /** The longest stored prefix of the address's own family that covers it; an error for no address. */
    method Contains(ipAddr: Option<Address>) returns (found: bool, prefixLen: nat, metadata: string, ok: bool)
      requires Valid() && (ipAddr.Some? ==> WellFormed(ipAddr.value))
      ensures ok == ipAddr.Some?
      ensures ok ==> Longest(Of(Contents(), FamilyOf(ipAddr.value)), AddressBits(ipAddr.value), found, prefixLen, metadata)
      ensures !ok ==> !found && prefixLen == 0 && metadata == ""
    {
      if ipAddr.None? { return false, 0, "", false; }
      var tree := TreeFor(ipAddr.value);
      found, prefixLen, metadata := tree.Contains(ipAddr.value);
      ok := true;
    }

    method Reset()
      requires Valid()
      modifies this
      ensures Valid() && Contents() == EMPTY && fresh(ipv4Tree) && fresh(ipv6Tree) && fresh(Nodes())
    {
      hide Tree.Valid;
      ipv4Tree := new Tree();
      ipv6Tree := new Tree();
      count := 0;
    }

    method Count() returns (n: int)
      requires Valid()
      ensures n == |Contents().v4| + |Contents().v6|
    {
      return count;
    }
  }
}
