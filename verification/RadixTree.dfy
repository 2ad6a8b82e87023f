/** The binary trie of iplookup/tree.go, updated in place, against a plain map of prefixes. */
module RadixTree {
  import opened Basics
  import opened IpBits
  import opened RadixShape

  /** The longest stored prefix that covers the bit string (RFC 4632, section 5.1), with its label. */
  ghost predicate Longest(stored: Prefixes, w: Bits, found: bool, len: nat, tag: string) {
    && (found ==> len <= |w| && w[..len] in stored && stored[w[..len]] == tag)
    && (!found ==> len == 0 && tag == "")
    && (forall n :: 0 <= n <= |w| && w[..n] in stored ==> found && n <= len)
  }

  class Tree {
    var root: Node
    ghost var nodes: map<Bits, Node>
    ghost var stored: Prefixes

    ghost function Now(): Shape
      reads this, nodes.Values
    {
      Shape(nodes, map p | p in nodes :: nodes[p].Look(), stored)
    }

    ghost predicate Rooted()
      reads this
    {
      [] in nodes && nodes[[]] == root
    }

    ghost predicate Valid()
      reads this, nodes.Values
    {
      Rooted() && Good(Now())
    }

    constructor ()
      ensures Valid() && stored == map[] && fresh(nodes.Values)
    {
      var top := new Node();
      root := top;
      nodes := map[[] := top];
      stored := map[];
    }

    method Contains(ip: Address) returns (found: bool, prefixLen: nat, metadata: string)
      requires Valid() && WellFormed(ip)
      ensures Longest(stored, AddressBits(ip), found, prefixLen, metadata)
    {
      hide BitAt, BitsOf, To4, PrunedBut, HasParent;
      AddressFits(ip);
      var (walk, maxPrefixLen) := FamilyWalk(ip);
      ghost var w := AddressBits(ip);
      found, prefixLen, metadata := false, 0, "";
      var current: Node? := root;
      var i := 0;
      while i < maxPrefixLen && current != null
        invariant 0 <= i <= maxPrefixLen == |w|
        invariant current == if w[..i] in nodes then nodes[w[..i]] else null
        invariant found ==> prefixLen < i && w[..prefixLen] in stored && stored[w[..prefixLen]] == metadata
        invariant !found ==> prefixLen == 0 && metadata == ""
        invariant forall n :: 0 <= n < i && w[..n] in stored ==> found && n <= prefixLen
      {
        assert LinksOK(Now(), w[..i]) && MarkOK(Now(), w[..i]);
        if current.isEndpoint {
          found, prefixLen, metadata := true, current.prefixLen, current.metadata;
        }
        BitIsOf(walk, i);
        var bit := BitAt(walk, i);
        assert w[..i + 1] == w[..i] + [w[i]];
        if bit == 0 { current := current.left; } else { current := current.right; }
        i := i + 1;
      }
      if current != null && current.isEndpoint {
        assert MarkOK(Now(), w[..i]);
        found, prefixLen, metadata := true, current.prefixLen, current.metadata;
      }
      forall n | 0 <= n <= |w| && w[..n] in stored ensures found && n <= prefixLen {
        if n >= i { PathsAbove(Now(), w[..n], i); assert w[..n][..i] == w[..i]; assert MarkOK(Now(), w[..i]); }
      }
    }

    // -------------------------------------------------------------- insert

    /** Hangs a new node below p. */
    method Grow(ghost p: Bits, current: Node, b: bool) returns (child: Node)
      requires Rooted() && Linked(Now()) && Marked(Now()) && PrunedBut(Now(), p)
      requires p in nodes && nodes[p] == current && p + [b] !in nodes
      modifies this`nodes, current
      ensures Rooted() && Linked(Now()) && Marked(Now()) && PrunedBut(Now(), p + [b])
      ensures fresh(child) && nodes == old(nodes)[p + [b] := child]
    {
      hide Linked, Marked, PrunedBut;
      AtEnd(p);
      ghost var s := Now();
      child := new Node();
      if b { current.right := child; } else { current.left := child; }
      nodes := nodes[p + [b] := child];
      ghost var r := Grown(s, p, b, child);
      assert nodes == r.nodes && nodes.Keys == r.cells.Keys && stored == r.stored;
      forall q | q in nodes ensures nodes[q].Look() == r.cells[q] { if q != p && q != p + [b] { assert nodes[q] != current; } }
      assert Now().cells == r.cells;
      GrownKeeps(s, p, b, child);
    }

    method Insert(net: Net, metadata: string) returns (added: bool)
      requires Valid() && Canonical(net)
      modifies this`nodes, this`stored, nodes.Values
      ensures Valid() && stored == old(stored)[NetBits(net) := metadata]
      ensures added == (NetBits(net) !in old(stored))
      ensures fresh(nodes.Values - old(nodes.Values))
    {
      hide BitAt, BitsOf, To4, Canonical, PrunedBut, Linked, Marked;
      WalkFits(net);
      var (ip, prefixLen) := PrefixWalk(net);
      ghost var w := NetBits(net);
      var current := root;
      var i := 0;
      while i < prefixLen
        invariant 0 <= i <= prefixLen == |w|
        invariant Rooted() && Linked(Now()) && Marked(Now()) && PrunedBut(Now(), w[..i])
        invariant w[..i] in nodes && nodes[w[..i]] == current
        invariant stored == old(stored) && fresh(nodes.Values - old(nodes.Values))
      {
        BitIsOf(ip, i);
        var bit := BitAt(ip, i);
        assert w[..i + 1] == w[..i] + [w[i]];
        Steps(w[..i], w[i]);
        if bit == 0 {
          if current.left == null { current := Grow(w[..i], current, false); } else { current := current.left; }
        } else {
          if current.right == null { current := Grow(w[..i], current, true); } else { current := current.right; }
        }
        i := i + 1;
      }
      assert w[..i] == w;
      added := SetEndpoint(w, current, prefixLen, metadata);
    }

    /** Makes the node at p an endpoint, or gives the endpoint there a new label. */
    method SetEndpoint(ghost p: Bits, current: Node, prefixLen: nat, metadata: string) returns (added: bool)
      requires Rooted() && Linked(Now()) && Marked(Now()) && PrunedBut(Now(), p) && p in nodes && nodes[p] == current && prefixLen == |p|
      modifies this`stored, current
      ensures Valid() && stored == old(stored)[p := metadata] && added == (p !in old(stored))
    {
      hide Linked, Marked, PrunedBut;
      ghost var s := Now();
      AtEnd(p);
      EndpointKeeps(s, p, metadata);
      if current.isEndpoint {
        current.metadata := metadata;
        added := false;
      } else {
        current.isEndpoint, current.prefixLen, current.metadata := true, prefixLen, metadata;
        added := true;
      }
      stored := stored[p := metadata];
      ghost var r := Remarked(s, p, stored);
      forall q | q in nodes ensures nodes[q].Look() == r.cells[q] { if q != p { assert nodes[q] != current; } }
      assert Now().cells == r.cells;
    }

    /** The link to follow from p on bit b. */
    lemma Steps(p: Bits, b: bool)
      requires Linked(Now()) && PrunedBut(Now(), p) && p in nodes
      ensures (if b then nodes[p].right else nodes[p].left) == Child(Now(), p, b)
      ensures PrunedBut(Now(), p + [b])
    {
      hide HasParent, Apart;
      assert LinksOK(Now(), p);
      forall q | q in nodes ensures Needed(Now(), p + [b], q) { assert Needed(Now(), p, q); }
    }

    lemma AtEnd(p: Bits)
      requires Linked(Now()) && Marked(Now()) && p in nodes
      ensures nodes[p].Look().mark == MarkFor(stored, p)
      ensures forall q :: q in nodes && q != p ==> nodes[q] != nodes[p]
    {
      hide LinksOK, HasParent;
      assert MarkOK(Now(), p);
    }

    // -------------------------------------------------------------- remove

    /** Clears the endpoint at p. */
    method ClearEndpoint(ghost p: Bits, current: Node)
      requires Valid() && p in nodes && nodes[p] == current
      modifies this`stored, current
      ensures Rooted() && Linked(Now()) && Marked(Now()) && PrunedBut(Now(), p) && stored == old(stored) - {p}
    {
      hide Linked, Marked, PrunedBut;
      ghost var s := Now();
      AtEnd(p);
      ClearedKeeps(s, p);
      current.isEndpoint, current.prefixLen, current.metadata := false, 0, "";
      stored := stored - {p};
      ghost var r := Remarked(s, p, stored);
      forall q | q in nodes ensures nodes[q].Look() == r.cells[q] { if q != p { assert nodes[q] != current; } }
      assert Now().cells == r.cells;
    }

    /** Unhangs the empty leaf below p. */
    method CutLeaf(ghost p: Bits, ghost b: bool, parent: Node, node: Node)
      requires Rooted() && Linked(Now()) && Marked(Now()) && PrunedBut(Now(), p + [b])
      requires p in nodes && nodes[p] == parent && p + [b] in nodes && nodes[p + [b]] == node
      requires node.Look() == Cell(BLANK, null, null)
      modifies this`nodes, parent
      ensures Rooted() && Linked(Now()) && Marked(Now()) && PrunedBut(Now(), p)
      ensures nodes == old(nodes) - {p + [b]}
    {
      hide Linked, Marked, PrunedBut;
      ghost var s := Now();
      AtEnd(p);
      Links(p, b);
      CutKeeps(s, p, b);
      if parent.left == node { parent.left := null; } else { parent.right := null; }
      nodes := nodes - {p + [b]};
      ghost var r := Cut(s, p, b);
      forall q | q in nodes ensures nodes[q].Look() == r.cells[q] { if q != p { assert nodes[q] != parent; } }
      assert nodes == r.nodes && Now().cells == r.cells;
    }

    lemma Links(p: Bits, b: bool)
      requires Linked(Now()) && p in nodes && p + [b] in nodes
      ensures nodes[p].left == nodes[p + [b]] <==> !b
      ensures b ==> nodes[p].right == nodes[p + [b]]
    {
      hide HasParent;
      assert LinksOK(Now(), p);
      assert p + [false] != p + [true] by { assert (p + [false])[|p|] != (p + [true])[|p|]; }
    }

    method Remove(net: Net) returns (removed: bool)
      requires Valid() && Canonical(net)
      modifies this`nodes, this`stored, nodes.Values
      ensures Valid() && stored == old(stored) - {NetBits(net)}
      ensures removed == (NetBits(net) in old(stored))
      ensures nodes.Values <= old(nodes.Values)
    {
      hide BitAt, BitsOf, To4, Canonical, Good;
      WalkFits(net);
      var (ip, prefixLen) := PrefixWalk(net);
      ghost var w := NetBits(net);
      var path: seq<Node> := [root];
      var current: Node := root;
      var i := 0;
      while i < prefixLen
        invariant 0 <= i <= prefixLen == |w| && |path| == i + 1
        invariant OnPath(w, path) && current == path[i]
        modifies {}
      {
        BitIsOf(ip, i);
        var bit := BitAt(ip, i);
        assert w[..i + 1] == w[..i] + [w[i]];
        Follows(w, i);
        var next := if bit == 0 then current.left else current.right;
        if next == null {
          assert stored - {w} == stored;
          return false;
        }
        current := next;
        path := path + [current];
        i := i + 1;
      }
      assert w[..i] == w;
      MarkThere(w);
      if !current.isEndpoint {
        assert stored - {w} == stored;
        return false;
      }
      ClearEndpoint(w, current);
      Prune(w, path);
      removed := true;
    }

    /** The path holds the nodes at the prefixes of w, shortest first. */
    ghost predicate OnPath(w: Bits, path: seq<Node>)
      reads this
    {
      |path| <= |w| + 1 && forall j :: 0 <= j < |path| ==> w[..j] in nodes && nodes[w[..j]] == path[j]
    }

    /** Where the walk cannot go on, nothing is stored. */
    lemma Follows(w: Bits, i: nat)
      requires Valid() && i < |w| && w[..i] in nodes
      ensures (if w[i] then nodes[w[..i]].right else nodes[w[..i]].left) == Child(Now(), w[..i], w[i])
      ensures w[..i + 1] !in nodes ==> w !in stored
    {
      hide PrunedBut;
      assert LinksOK(Now(), w[..i]);
      assert w[..i + 1] == w[..i] + [w[i]];
      if w in stored { PathsAbove(Now(), w, i + 1); }
    }

    lemma MarkThere(w: Bits)
      requires Valid() && w in nodes
      ensures nodes[w].isEndpoint <==> w in stored
    {
      hide PrunedBut, Linked;
      assert MarkOK(Now(), w);
    }

    /** Drops empty leaves from the end of the path toward the root. */
    method Prune(ghost w: Bits, path: seq<Node>)
      requires Rooted() && Linked(Now()) && Marked(Now()) && PrunedBut(Now(), w) && |path| == |w| + 1 && OnPath(w, path)
      modifies this`nodes, nodes.Values
      ensures Valid() && stored == old(stored) && nodes.Values <= old(nodes.Values)
    {
      hide Linked, Marked, PrunedBut;
      var i := |path| - 1;
      assert w[..i] == w;
      while i > 0
        invariant 0 <= i < |path|
        invariant Rooted() && Linked(Now()) && Marked(Now()) && PrunedBut(Now(), w[..i])
        invariant OnPath(w, path[..i + 1])
        invariant stored == old(stored) && nodes.Values <= old(nodes.Values)
      {
        var node := path[i];
        assert node == path[..i + 1][i];
        if node.isEndpoint || node.left != null || node.right != null { break; }
        var parent := path[i - 1];
        assert parent == path[..i + 1][i - 1];
        assert w[..i] == w[..i - 1] + [w[i - 1]];
        AtEnd(w[..i]);
        assert OnPath(w, path[..i]) by { Shorter(w, path, i); }
        CutLeaf(w[..i - 1], w[i - 1], parent, node);
        i := i - 1;
      }
      KeptNode(Now(), w[..i]);
    }

    lemma Shorter(w: Bits, path: seq<Node>, i: nat)
      requires i < |path| && OnPath(w, path[..i + 1])
      ensures OnPath(w, path[..i])
    {
      forall j | 0 <= j < i ensures w[..j] in nodes && nodes[w[..j]] == path[..i][j] { assert path[..i + 1][j] == path[j]; }
    }
  }
}
