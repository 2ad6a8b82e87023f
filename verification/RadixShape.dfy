/** The trie's nodes as a value: what a tree in the heap looks like, when it is well linked, correctly
    marked and pruned, and how the three kinds of write change it. */
module RadixShape {
  import opened Basics
  import opened IpBits

  type Prefixes = map<Bits, string>

  class Node {
    var isEndpoint: bool
    var prefixLen: nat
    var metadata: string
    var left: Node?
    var right: Node?

    constructor ()
      ensures !isEndpoint && prefixLen == 0 && metadata == "" && left == null && right == null
    {
      isEndpoint, prefixLen, metadata, left, right := false, 0, "", null, null;
    }

    function Look(): Cell
      reads this
    {
      Cell(Mark(isEndpoint, prefixLen, metadata), left, right)
    }
  }

  /** What a node shows: endpoint, prefix length, label. */
  datatype Mark = Mark(isEndpoint: bool, prefixLen: nat, metadata: string)

  const BLANK := Mark(false, 0, "")

  datatype Cell = Cell(mark: Mark, left: Node?, right: Node?)

  /** The node at each path, what it holds, and the prefixes it all stands for. */
  datatype Shape = Shape(nodes: map<Bits, Node>, cells: map<Bits, Cell>, stored: Prefixes)

  ghost function Child(s: Shape, p: Bits, b: bool): Node? { if p + [b] in s.nodes then s.nodes[p + [b]] else null }

  /** A node's links are the paths one bit longer. */
  ghost predicate LinksOK(s: Shape, p: Bits) {
    p in s.cells && s.cells[p].left == Child(s, p, false) && s.cells[p].right == Child(s, p, true)
  }

  ghost predicate HasParent(s: Shape, p: Bits) { p == [] || p[..|p| - 1] in s.nodes }

  ghost predicate Linked(s: Shape) {
    && [] in s.nodes && s.cells.Keys == s.nodes.Keys
    && (forall p {:trigger LinksOK(s, p)} :: p in s.nodes ==> LinksOK(s, p))
    && (forall p {:trigger HasParent(s, p)} :: p in s.nodes ==> HasParent(s, p))
    && Apart(s)
  }

  /** One object per path. */
  ghost predicate Apart(s: Shape) {
    forall p, q :: p in s.nodes && q in s.nodes && p != q ==> s.nodes[p] != s.nodes[q]
  }

  /** An endpoint carries its depth and label; other nodes carry nothing. */
  function MarkFor(stored: Prefixes, p: Bits): Mark { if p in stored then Mark(true, |p|, stored[p]) else BLANK }

  ghost predicate Marked(s: Shape) {
    && s.stored.Keys <= s.nodes.Keys
    && forall p {:trigger MarkOK(s, p)} :: p in s.nodes ==> MarkOK(s, p)
  }

  ghost predicate MarkOK(s: Shape, p: Bits) { p in s.cells && s.cells[p].mark == MarkFor(s.stored, p) }

  ghost predicate Covered(stored: Prefixes, p: Bits) { exists q :: q in stored && p <= q }

  /** Every node but the root, and save those on the way to `open`, has an endpoint at or below it. */
  ghost predicate PrunedBut(s: Shape, open: Bits) {
    forall p {:trigger Needed(s, open, p)} :: p in s.nodes ==> Needed(s, open, p)
  }

  ghost predicate Needed(s: Shape, open: Bits, p: Bits) { p <= open || Covered(s.stored, p) }

  ghost predicate Good(s: Shape) { Linked(s) && Marked(s) && PrunedBut(s, []) }

  // ---------------------------------------------------------------- paths

  lemma OneBitLonger(p: Bits, b: bool, q: Bits, c: bool)
    ensures p + [b] == q + [c] <==> p == q && b == c
  {
    if p + [b] == q + [c] {
      assert (p + [b])[..|p|] == p && (q + [c])[..|q|] == q && (p + [b])[|p|] == b;
    }
  }

  lemma {:induction false} PathsAbove(s: Shape, p: Bits, n: nat)
    requires Linked(s) && p in s.nodes && n <= |p|
    ensures p[..n] in s.nodes
    decreases |p| - n
  {
    assert HasParent(s, p);
    if n < |p| { PathsAbove(s, p[..|p| - 1], n); assert p[..|p| - 1][..n] == p[..n]; } else { assert p[..n] == p; }
  }

  lemma NothingBelow(s: Shape, p: Bits, c: bool)
    requires Linked(s) && p !in s.nodes
    ensures p + [c] !in s.nodes
  {
    assert (p + [c])[..|p|] == p;
    assert p + [c] in s.nodes ==> HasParent(s, p + [c]);
  }

  // ---------------------------------------------------------------- hanging a node

  function Hang(cell: Cell, b: bool, child: Node?): Cell { if b then cell.(right := child) else cell.(left := child) }

  function Grown(s: Shape, p: Bits, b: bool, child: Node): Shape
    requires p in s.cells
  {
    s.(nodes := s.nodes[p + [b] := child],
       cells := s.cells[p := Hang(s.cells[p], b, child)][p + [b] := Cell(BLANK, null, null)])
  }

  lemma GrownLinks(s: Shape, p: Bits, b: bool, child: Node, q: Bits)
    requires Linked(s) && p in s.nodes && p + [b] !in s.nodes
    ensures var r := Grown(s, p, b, child); q in r.nodes ==> LinksOK(r, q)
  {
    OneBitLonger(p, b, q, false);
    OneBitLonger(p, b, q, true);
    if q == p + [b] {
      NothingBelow(s, q, false);
      NothingBelow(s, q, true);
    } else if q in s.nodes {
      assert LinksOK(s, q);
    }
  }

  lemma GrownParent(s: Shape, p: Bits, b: bool, child: Node, q: Bits)
    requires Linked(s) && p in s.nodes
    ensures var r := Grown(s, p, b, child); q in r.nodes ==> HasParent(r, q)
  {
    if q == p + [b] { assert q[..|q| - 1] == p; } else if q in s.nodes { assert HasParent(s, q); }
  }

  lemma GrownKeeps(s: Shape, p: Bits, b: bool, child: Node)
    requires Linked(s) && Marked(s) && PrunedBut(s, p) && p in s.nodes && p + [b] !in s.nodes && child !in s.nodes.Values
    ensures var r := Grown(s, p, b, child); Linked(r) && Marked(r) && PrunedBut(r, p + [b])
  {
    hide LinksOK, HasParent, Needed, MarkOK;
    var r := Grown(s, p, b, child);
    forall q | q in r.nodes ensures LinksOK(r, q) { GrownLinks(s, p, b, child, q); }
    forall q | q in r.nodes ensures HasParent(r, q) { GrownParent(s, p, b, child, q); }
    forall q | q in r.nodes ensures MarkOK(r, q) { GrownMark(s, p, b, child, q); }
    forall q | q in r.nodes ensures Needed(r, p + [b], q) { GrownNeeded(s, p, b, child, q); }
  }

  lemma GrownMark(s: Shape, p: Bits, b: bool, child: Node, q: Bits)
    requires Linked(s) && Marked(s) && p in s.nodes && p + [b] !in s.nodes
    ensures var r := Grown(s, p, b, child); q in r.nodes ==> MarkOK(r, q)
  {
    hide LinksOK, HasParent;
    if q in s.nodes { assert MarkOK(s, q); }
    assert MarkOK(s, p);
  }

  lemma GrownNeeded(s: Shape, p: Bits, b: bool, child: Node, q: Bits)
    requires p in s.cells && PrunedBut(s, p)
    ensures var r := Grown(s, p, b, child); q in r.nodes ==> Needed(r, p + [b], q)
  {
    if q in s.nodes { assert Needed(s, p, q); }
  }

  // ---------------------------------------------------------------- marking an endpoint

  function Remarked(s: Shape, p: Bits, stored: Prefixes): Shape
    requires p in s.cells
  {
    s.(cells := s.cells[p := s.cells[p].(mark := MarkFor(stored, p))], stored := stored)
  }

  lemma RemarkedLinks(s: Shape, p: Bits, stored: Prefixes)
    requires Linked(s) && p in s.nodes
    ensures Linked(Remarked(s, p, stored))
  {
    var r := Remarked(s, p, stored);
    forall q | q in r.nodes ensures LinksOK(r, q) { assert LinksOK(s, q); }
    forall q | q in r.nodes ensures HasParent(r, q) { assert HasParent(s, q); }
  }

  /** Rewriting the mark at p to what is now stored there leaves every other mark right. */
  lemma RemarkedMarks(s: Shape, p: Bits, stored: Prefixes)
    requires Linked(s) && Marked(s) && p in s.nodes && stored.Keys <= s.nodes.Keys
    requires forall q :: q != p ==> MarkFor(stored, q) == MarkFor(s.stored, q)
    ensures Marked(Remarked(s, p, stored))
  {
    hide LinksOK, HasParent, MarkFor;
    var r := Remarked(s, p, stored);
    forall q | q in r.nodes ensures MarkOK(r, q) { assert MarkOK(s, q); }
  }

  lemma EndpointKeeps(s: Shape, p: Bits, tag: string)
    requires Linked(s) && Marked(s) && PrunedBut(s, p) && p in s.nodes
    ensures Good(Remarked(s, p, s.stored[p := tag]))
  {
    hide LinksOK, HasParent, Apart, MarkOK, Needed;
    var r := Remarked(s, p, s.stored[p := tag]);
    RemarkedLinks(s, p, r.stored);
    RemarkedMarks(s, p, r.stored);
    forall q | q in r.nodes ensures Needed(r, [], q) { EndpointNeeds(s, p, tag, q); }
  }

  lemma EndpointNeeds(s: Shape, p: Bits, tag: string, q: Bits)
    requires p in s.cells && Needed(s, p, q)
    ensures Needed(Remarked(s, p, s.stored[p := tag]), [], q)
  {
    var stored := s.stored[p := tag];
    if q <= p { assert p in stored; } else { var x :| x in s.stored && q <= x; assert x in stored; }
  }

  /** Clearing an endpoint leaves at most its own path to prune. */
  lemma ClearedKeeps(s: Shape, p: Bits)
    requires Good(s) && p in s.nodes
    ensures var r := Remarked(s, p, s.stored - {p}); Linked(r) && Marked(r) && PrunedBut(r, p)
  {
    hide MarkOK, Needed, LinksOK, HasParent, Apart;
    var r := Remarked(s, p, s.stored - {p});
    RemarkedLinks(s, p, r.stored);
    RemarkedMarks(s, p, r.stored);
    forall q | q in r.nodes ensures Needed(r, p, q) { ClearedNeeds(s, p, q); }
  }

  lemma ClearedNeeds(s: Shape, p: Bits, q: Bits)
    requires p in s.cells && Needed(s, [], q)
    ensures Needed(Remarked(s, p, s.stored - {p}), p, q)
  {
    if !(q <= p) {
      var x :| x in s.stored && q <= x;
      assert x != p && x in s.stored - {p};
    }
  }

  // ---------------------------------------------------------------- cutting a leaf

  function Cut(s: Shape, p: Bits, b: bool): Shape
    requires p in s.cells
  {
    s.(nodes := map q | q in s.nodes && q != p + [b] :: s.nodes[q],
       cells := map q | q in s.cells && q != p + [b] :: if q == p then Hang(s.cells[p], b, null) else s.cells[q])
  }

  lemma CutLinks(s: Shape, p: Bits, b: bool, q: Bits)
    requires Linked(s) && p in s.nodes
    ensures var r := Cut(s, p, b); q in r.nodes ==> LinksOK(r, q)
  {
    OneBitLonger(p, b, q, false);
    OneBitLonger(p, b, q, true);
    if q in s.nodes { assert LinksOK(s, q); }
  }

  lemma LeafHasNoChild(s: Shape, leaf: Bits, c: bool)
    requires LinksOK(s, leaf) && s.cells[leaf].left == null && s.cells[leaf].right == null
    ensures leaf + [c] !in s.nodes
  {
    assert Child(s, leaf, c) == null;
  }

  lemma CutParent(s: Shape, p: Bits, b: bool, q: Bits)
    requires Linked(s) && p in s.nodes && p + [b] in s.nodes
    requires s.cells[p + [b]].left == null && s.cells[p + [b]].right == null
    ensures var r := Cut(s, p, b); q in r.nodes ==> HasParent(r, q)
  {
    var leaf := p + [b];
    assert LinksOK(s, leaf);
    if q in s.nodes && q != leaf && q != [] {
      assert HasParent(s, q);
      var b := q[|q| - 1];
      assert q == q[..|q| - 1] + [b];
      LeafHasNoChild(s, leaf, b);
    }
  }

  lemma CutKeeps(s: Shape, p: Bits, b: bool)
    requires Linked(s) && Marked(s) && PrunedBut(s, p + [b]) && p in s.nodes && p + [b] in s.nodes
    requires s.cells[p + [b]] == Cell(BLANK, null, null)
    ensures var r := Cut(s, p, b); Linked(r) && Marked(r) && PrunedBut(r, p)
  {
    hide LinksOK, HasParent, MarkOK, Needed;
    var r := Cut(s, p, b);
    forall q | q in r.nodes ensures LinksOK(r, q) { CutLinks(s, p, b, q); }
    forall q | q in r.nodes ensures HasParent(r, q) { CutParent(s, p, b, q); }
    forall q | q in r.nodes ensures MarkOK(r, q) { CutMark(s, p, b, q); }
    CutStored(s, p, b);
    forall q | q in r.nodes ensures Needed(r, p, q) { CutNeeds(s, p, b, q); }
  }

  lemma CutMark(s: Shape, p: Bits, b: bool, q: Bits)
    requires p in s.cells && MarkOK(s, q) && q != p + [b]
    ensures MarkOK(Cut(s, p, b), q)
  {
  }

  lemma CutStored(s: Shape, p: Bits, b: bool)
    requires Marked(s) && p + [b] in s.nodes && p + [b] in s.cells && s.cells[p + [b]].mark == BLANK
    ensures p + [b] !in s.stored
  {
    assert MarkOK(s, p + [b]);
  }

  lemma CutNeeds(s: Shape, p: Bits, b: bool, q: Bits)
    requires p in s.cells && Needed(s, p + [b], q) && q != p + [b]
    ensures Needed(Cut(s, p, b), p, q)
  {
    if q <= p + [b] { assert q == (p + [b])[..|q|]; }
  }

  /** A node with an endpoint or a child needs no pruning, nor does anything above it. */
  lemma KeptNode(s: Shape, p: Bits)
    requires Linked(s) && Marked(s) && PrunedBut(s, p) && p in s.nodes
    requires p != [] ==> s.cells[p].mark.isEndpoint || s.cells[p].left != null || s.cells[p].right != null
    ensures PrunedBut(s, [])
  {
    if p != [] {
      hide Needed;
      assert LinksOK(s, p) && MarkOK(s, p);
      var kept := if s.cells[p].mark.isEndpoint then p
                  else if s.cells[p].left != null then p + [false] else p + [true];
      assert kept in s.nodes;
      StoredBelow(s, p, kept);
      forall q | q in s.nodes ensures Needed(s, [], q) { AboveKept(s, p, q); }
    }
  }

  lemma StoredBelow(s: Shape, p: Bits, kept: Bits)
    requires Marked(s) && PrunedBut(s, p) && kept in s.nodes && kept in s.cells && p <= kept
    requires kept == p ==> s.cells[p].mark.isEndpoint
    ensures Covered(s.stored, p)
  {
    assert MarkOK(s, kept) && Needed(s, p, kept);
    if kept == p { assert p in s.stored; }
    else { var x :| x in s.stored && kept <= x; assert p <= x; }
  }

  lemma AboveKept(s: Shape, p: Bits, q: Bits)
    requires Needed(s, p, q) && Covered(s.stored, p)
    ensures Needed(s, [], q)
  {
    if q <= p { var x :| x in s.stored && p <= x; assert q <= x; }
  }

  // ---------------------------------------------------------------- the trie is its contents

  /** The paths a pruned trie has: the root and every prefix of a stored prefix. */
  function Closure(stored: Prefixes): set<Bits> {
    {[]} + set p, n | p in stored && 0 <= n <= |p| :: p[..n]
  }

  /** The whole trie, node by node, as a function of what is stored. */
  function Picture(stored: Prefixes): map<Bits, Mark> { map p | p in Closure(stored) :: MarkFor(stored, p) }

  function Snapshot(s: Shape): map<Bits, Mark> { map p | p in s.cells :: s.cells[p].mark }

  /** After any history the trie has exactly the nodes its prefixes need and each shows exactly what
      is stored there: two tries with the same contents have the same shape. */
  lemma TrieIsItsContents(s: Shape)
    requires Good(s)
    ensures Snapshot(s) == Picture(s.stored)
  {
    hide LinksOK, HasParent, Needed;
    forall p ensures p in s.nodes <==> p in Closure(s.stored) { PathIsNeeded(s, p); }
    forall p | p in s.nodes ensures MarkOK(s, p) { }
  }

  lemma PathIsNeeded(s: Shape, p: Bits)
    requires Good(s)
    ensures p in s.nodes <==> p in Closure(s.stored)
  {
    hide LinksOK, HasParent, MarkOK;
    if p in s.nodes && p != [] {
      assert Needed(s, [], p);
      var q :| q in s.stored && p <= q;
      assert q[..|p|] == p;
    }
    if p in Closure(s.stored) && p != [] {
      var q, n :| q in s.stored && 0 <= n <= |q| && p == q[..n];
      PathsAbove(s, q, n);
    }
  }
}
