/** Public names bound to incarnations: the two-way link between alias entries and the
    incarnations they publish, and what each watcher was last told. */
module AliasLinks {
  import opened Basics

  type Name = string

  /** A published value. A typed nil is a nil pointer that still carries its type. */
  datatype Value = Nil | TypedNil(ty: nat) | Ptr(ty: nat, addr: nat) | Plain(n: int)

  predicate IsNil(v: Value) { v.Nil? || v.TypedNil? }

  /** Nil and every typed nil are one value; two pointers are compared by address only. */
  predicate Same(a: Value, b: Value) {
    if IsNil(a) || IsNil(b) then IsNil(a) && IsNil(b)
    else if a.Ptr? && b.Ptr? then a.addr == b.addr
    else a == b
  }

  /** An incarnation as seen through an alias: its identity and its write-once value. */
  datatype Ref = Ref(id: nat, value: Value)

  /** `seen` lists the values passed to `changed`, oldest first. */
  datatype Watcher = Watcher(wid: nat, last: Value, seen: seq<Value>)

  datatype Entry = Entry(incarnation: Option<Ref>, publisher: string, group: string,
                         empty: Value, watchers: seq<Watcher>)

  /** `aliases` is the forward map, `bound` the reverse link kept on each incarnation. */
  datatype Links = Links(aliases: map<Name, nat>, entries: seq<Entry>, bound: map<nat, seq<nat>>)

  datatype Outcome = Ok | NoMappedKey | HeldByOther(publisher: string)

  const NoLinks := Links(map[], [], map[])
  const FreshEntry := Entry(None, "", "", Nil, [])

  function Bound(l: Links, id: nat): seq<nat> {
    if id in l.bound then l.bound[id] else []
  }

  /** What the entry publishes now: the incarnation's value, or the empty when that is nil-like. */
  function Current(e: Entry): Value {
    if e.incarnation.Some? && !IsNil(e.incarnation.value.value) then e.incarnation.value.value else e.empty
  }

  // ---------------------------------------------------------------- operations

  function Deliver(w: Watcher, v: Value): Watcher {
    if Same(w.last, v) then w else w.(last := v, seen := w.seen + [v])
  }

  function StoreWatchers(e: Entry, current: Value): Entry {
    var v := if IsNil(current) then e.empty else current;
    e.(watchers := seq(|e.watchers|, i requires 0 <= i < |e.watchers| => Deliver(e.watchers[i], v)))
  }

  function Cleared(e: Entry): Entry {
    StoreWatchers(e.(incarnation := None, publisher := "", group := ""), e.empty)
  }

  /** Ends every binding of one incarnation. */
  function Unbind(l: Links, id: nat): Links {
    var gone := Bound(l, id);
    l.(entries := seq(|l.entries|, j requires 0 <= j < |l.entries| =>
         if j in gone then Cleared(l.entries[j]) else l.entries[j]),
       bound := l.bound[id := []])
  }

  function Detach(l: Links, e: nat): Links
    requires e < |l.entries|
  {
    match l.entries[e].incarnation
    case None => l
    case Some(r) =>
      l.(entries := l.entries[e := l.entries[e].(incarnation := None)],
         bound := l.bound[r.id := Without(Bound(l, r.id), e)])
  }

  function ClearAlias(l: Links, e: nat): Links
    requires e < |l.entries|
  {
    var d := Detach(l, e);
    d.(entries := d.entries[e := Cleared(d.entries[e])])
  }

  /** Clears a whole set of entries, in no particular order. */
  function ClearAll(l: Links, gone: set<nat>): Links {
    l.(entries := seq(|l.entries|, j requires 0 <= j < |l.entries| =>
         if j in gone then Cleared(l.entries[j]) else l.entries[j]),
       bound := map i | i in l.bound :: KeepOut(l.bound[i], gone))
  }

  function KeepOut(xs: seq<nat>, gone: set<nat>): seq<nat> {
    if xs == [] then []
    else KeepOut(xs[..|xs| - 1], gone) + (if xs[|xs| - 1] in gone then [] else [xs[|xs| - 1]])
  }

  /** The entries a publisher holds in a group, other than `except`. */
  function HeldBy(l: Links, publisher: string, group: string, except: Option<nat>): set<nat> {
    set a | a in l.aliases && 0 <= l.aliases[a] < |l.entries|
            && Some(l.aliases[a]) != except
            && l.entries[l.aliases[a]].publisher == publisher
            && l.entries[l.aliases[a]].group == group :: l.aliases[a]
  }

  function EntryOf(l: Links, alias: Name): Option<nat> {
    if alias in l.aliases then Some(l.aliases[alias]) else None
  }

  /** The entry for `alias`, created with `empty` when the name is new. */
  function WithEntry(l: Links, alias: Name, empty: Value): Links {
    if alias in l.aliases then l
    else l.(aliases := l.aliases[alias := |l.entries|],
            entries := l.entries + [FreshEntry.(empty := empty)])
  }

  function Attach(l: Links, e: nat, r: Ref): Links
    requires e < |l.entries|
  {
    if l.entries[e].incarnation == Some(r) then l
    else
      var d := Detach(l, e);
      d.(entries := d.entries[e := d.entries[e].(incarnation := Some(r))],
         bound := d.bound[r.id := Bound(d, r.id) + [e]])
  }

  /** Clears the publisher's other aliases in the group and makes sure `alias` has an entry. */
  function Prepared(l: Links, alias: Name, publisher: string, group: string): Links {
    WithEntry(ClearAll(l, HeldBy(l, publisher, group, EntryOf(l, alias))), alias, Nil)
  }

  function SetAlias(l: Links, target: Option<Ref>, alias: Name, publisher: string, group: string): (Links, Outcome)
    requires alias in l.aliases ==> l.aliases[alias] < |l.entries|
  {
    if target.None? then (l, NoMappedKey)
    else if alias in l.aliases && l.entries[l.aliases[alias]].publisher != ""
            && l.entries[l.aliases[alias]].publisher != publisher then
      (l, HeldByOther(l.entries[l.aliases[alias]].publisher))
    else
      var w := Prepared(l, alias, publisher, group);
      var e := w.aliases[alias];
      var a := Attach(w, e, target.value);
      var named := a.entries[e].(publisher := publisher, group := group);
      (a.(entries := a.entries[e := StoreWatchers(named, target.value.value)]), Ok)
  }

  function Watch(l: Links, alias: Name, empty: Value, wid: nat): Links
    requires alias in l.aliases ==> l.aliases[alias] < |l.entries|
  {
    var w := WithEntry(l, alias, empty);
    var e := w.aliases[alias];
    w.(entries := w.entries[e := Watched(w.entries[e], empty, wid)])
  }

  /** The first non-nil empty sticks; the new watcher is told what the entry publishes. */
  function Watched(e: Entry, empty: Value, wid: nat): Entry {
    var stuck := if e.empty == Nil && empty != Nil then e.(empty := empty) else e;
    stuck.(watchers := stuck.watchers + [Deliver(Watcher(wid, Nil, []), Current(stuck))])
  }

  function DropWatchers(ws: seq<Watcher>, wid: nat): seq<Watcher> {
    if ws == [] then []
    else DropWatchers(ws[..|ws| - 1], wid) + (if ws[|ws| - 1].wid == wid then [] else [ws[|ws| - 1]])
  }

  function DropWatcher(l: Links, alias: Name, wid: nat): Links
    requires alias in l.aliases ==> l.aliases[alias] < |l.entries|
  {
    if alias !in l.aliases then l
    else
      var e := l.aliases[alias];
      l.(entries := l.entries[e := l.entries[e].(watchers := DropWatchers(l.entries[e].watchers, wid))])
  }

  function ClearPublisher(l: Links, publisher: string, group: string): Links {
    if publisher == "" || group == "" then l else ClearAll(l, HeldBy(l, publisher, group, None))
  }

  // ---------------------------------------------------------------- consistency

  predicate PointsAt(l: Links, e: nat, id: nat) {
    e < |l.entries| && l.entries[e].incarnation.Some? && l.entries[e].incarnation.value.id == id
  }

  /** An incarnation's reverse link lists the entries that point at it, each once. */
  ghost predicate ListsItsEntries(l: Links, id: nat) {
    && Distinct(Bound(l, id))
    && (forall e :: e in Bound(l, id) <==> PointsAt(l, e, id))
  }

  ghost predicate TwoWay(l: Links) {
    forall id: nat :: ListsItsEntries(l, id)
  }

  /** Names map to distinct entries, and a named publisher holds one alias per group. */
  ghost predicate OnePerGroup(l: Links) {
    && (forall a :: a in l.aliases ==> l.aliases[a] < |l.entries|)
    && (forall a, b :: a in l.aliases && b in l.aliases && a != b ==> l.aliases[a] != l.aliases[b])
    && (forall a, b :: a in l.aliases && b in l.aliases && a != b && l.entries[l.aliases[a]].publisher != ""
          ==> !(l.entries[l.aliases[a]].publisher == l.entries[l.aliases[b]].publisher
                && l.entries[l.aliases[a]].group == l.entries[l.aliases[b]].group))
    && (forall e :: 0 <= e < |l.entries| && l.entries[e].incarnation.None? ==> l.entries[e].publisher == "")
  }

  /** No watcher is called twice in a row with the same value, and `last` is the newest call. */
  ghost predicate Faithful(w: Watcher) {
    && w.last == (if w.seen == [] then Nil else w.seen[|w.seen| - 1])
    && (w.seen != [] ==> !IsNil(w.seen[0]))
    && (forall i :: 0 <= i < |w.seen| - 1 ==> !Same(w.seen[i], w.seen[i + 1]))
  }

  ghost predicate AllFaithful(l: Links) {
    forall e, k :: 0 <= e < |l.entries| && 0 <= k < |l.entries[e].watchers| ==> Faithful(l.entries[e].watchers[k])
  }

  ghost predicate Consistent(l: Links) {
    TwoWay(l) && OnePerGroup(l) && AllFaithful(l)
  }

  /** Every watcher of the entry was last told what the entry publishes now. */
  ghost predicate Agrees(e: Entry) {
    forall k :: 0 <= k < |e.watchers| ==> Same(e.watchers[k].last, Current(e))
  }

  ghost predicate AllAgree(l: Links) {
    forall e :: 0 <= e < |l.entries| ==> Agrees(l.entries[e])
  }

  /** The one call that can split a watcher from its entry: the first real empty arrives while
      earlier watchers exist and nothing is published. */
  predicate LateEmpty(l: Links, alias: Name, empty: Value)
    requires alias in l.aliases ==> l.aliases[alias] < |l.entries|
  {
    alias in l.aliases
    && var e := l.entries[l.aliases[alias]];
    e.empty == Nil && !IsNil(empty) && e.watchers != [] && IsNil(Current(e))
  }

  // ---------------------------------------------------------------- preservation

  lemma DeliverFaithful(w: Watcher, v: Value)
    requires Faithful(w)
    ensures Faithful(Deliver(w, v)) && Same(Deliver(w, v).last, v)
  {
  }

  /** Storing tells every watcher the same value. */
  lemma StoreTells(e: Entry, current: Value)
    requires forall k :: 0 <= k < |e.watchers| ==> Faithful(e.watchers[k])
    ensures var r := StoreWatchers(e, current);
            && |r.watchers| == |e.watchers|
            && (forall k :: 0 <= k < |r.watchers| ==>
                  && Faithful(r.watchers[k])
                  && Same(r.watchers[k].last, if IsNil(current) then e.empty else current))
  {
    forall k | 0 <= k < |e.watchers| ensures Faithful(StoreWatchers(e, current).watchers[k]) {
      DeliverFaithful(e.watchers[k], if IsNil(current) then e.empty else current);
    }
  }

  lemma ClearedAgrees(e: Entry)
    requires forall k :: 0 <= k < |e.watchers| ==> Faithful(e.watchers[k])
    ensures Agrees(Cleared(e))
    ensures forall k :: 0 <= k < |Cleared(e).watchers| ==> Faithful(Cleared(e).watchers[k])
  {
    StoreTells(e.(incarnation := None, publisher := "", group := ""), e.empty);
  }

  /** A dying incarnation loses all its names, tells their watchers the empty, and touches
      no entry that already points at another incarnation. */
  lemma UnbindKeeps(l: Links, id: nat)
    requires Consistent(l)
    ensures Consistent(Unbind(l, id))
    ensures AllAgree(l) ==> AllAgree(Unbind(l, id))
    ensures forall e :: 0 <= e < |l.entries| ==>
              if l.entries[e].incarnation.Some? && l.entries[e].incarnation.value.id == id
              then Unbind(l, id).entries[e].incarnation.None? && Agrees(Unbind(l, id).entries[e])
              else Unbind(l, id).entries[e] == l.entries[e]
  {
    forall e | 0 <= e < |l.entries| ensures Agrees(Cleared(l.entries[e]))
        && forall k :: 0 <= k < |Cleared(l.entries[e]).watchers| ==> Faithful(Cleared(l.entries[e]).watchers[k]) {
      ClearedAgrees(l.entries[e]);
    }
    assert ListsItsEntries(l, id);
    forall i: nat ensures ListsItsEntries(Unbind(l, id), i) {
      assert ListsItsEntries(l, i);
    }
  }

  lemma {:induction false} KeepOutMembers(xs: seq<nat>, gone: set<nat>)
    ensures forall y :: y in KeepOut(xs, gone) <==> y in xs && y !in gone
  {
    if xs != [] {
      var n := |xs| - 1;
      KeepOutMembers(xs[..n], gone);
      assert xs == xs[..n] + [xs[n]];
    }
  }

  lemma {:induction false} KeepOutDistinct(xs: seq<nat>, gone: set<nat>)
    requires Distinct(xs)
    ensures Distinct(KeepOut(xs, gone))
  {
    if xs != [] {
      var n := |xs| - 1;
      KeepOutDistinct(xs[..n], gone);
      KeepOutMembers(xs[..n], gone);
      var rest := KeepOut(xs[..n], gone);
      forall i | 0 <= i < |rest| ensures rest[i] != xs[n] {
        assert rest[i] in xs[..n];
      }
    }
  }

  lemma ClearAllKeeps(l: Links, gone: set<nat>)
    requires Consistent(l)
    ensures Consistent(ClearAll(l, gone))
    ensures AllAgree(l) ==> AllAgree(ClearAll(l, gone))
  {
    var c := ClearAll(l, gone);
    forall id: nat ensures ListsItsEntries(c, id) {
      assert ListsItsEntries(l, id);
      KeepOutDistinct(Bound(l, id), gone);
      KeepOutMembers(Bound(l, id), gone);
      assert Bound(c, id) == KeepOut(Bound(l, id), gone);
    }
    forall e | 0 <= e < |l.entries| ensures Agrees(Cleared(l.entries[e]))
        && forall k :: 0 <= k < |Cleared(l.entries[e]).watchers| ==> Faithful(Cleared(l.entries[e]).watchers[k]) {
      ClearedAgrees(l.entries[e]);
    }
  }

  lemma WithEntryKeeps(l: Links, alias: Name, empty: Value)
    requires Consistent(l)
    ensures Consistent(WithEntry(l, alias, empty))
    ensures AllAgree(l) ==> AllAgree(WithEntry(l, alias, empty))
  {
    var w := WithEntry(l, alias, empty);
    forall id: nat ensures ListsItsEntries(w, id) {
      assert ListsItsEntries(l, id);
    }
  }

  lemma DetachTwoWay(l: Links, e: nat)
    requires TwoWay(l) && e < |l.entries|
    ensures TwoWay(Detach(l, e)) && Detach(l, e).entries == l.entries[e := l.entries[e].(incarnation := None)]
  {
    var d := Detach(l, e);
    forall id: nat ensures ListsItsEntries(d, id) {
      assert ListsItsEntries(l, id);
      WithoutDistinct(Bound(l, id), e);
      WithoutMembers(Bound(l, id), e);
    }
  }

  /** Attaching keeps the two-way link, whatever the entry pointed at before. */
  lemma AttachTwoWay(l: Links, e: nat, r: Ref)
    requires TwoWay(l) && e < |l.entries|
    ensures TwoWay(Attach(l, e, r))
    ensures Attach(l, e, r).aliases == l.aliases
    ensures Attach(l, e, r).entries == l.entries[e := l.entries[e].(incarnation := Some(r))]
  {
    DetachTwoWay(l, e);
    var d := Detach(l, e);
    var a := Attach(l, e, r);
    if a != l {
      forall id: nat ensures ListsItsEntries(a, id) {
        assert ListsItsEntries(d, id);
        assert e !in Bound(d, id);
      }
    }
  }

  ghost predicate HeldElsewhere(l: Links, alias: Name, publisher: string, group: string) {
    exists n :: n in l.aliases && n != alias && l.aliases[n] < |l.entries|
                && l.entries[l.aliases[n]].publisher == publisher && l.entries[l.aliases[n]].group == group
  }

  lemma PreparedKeeps(l: Links, alias: Name, publisher: string, group: string)
    requires Consistent(l)
    ensures var w := Prepared(l, alias, publisher, group);
            && Consistent(w) && (AllAgree(l) ==> AllAgree(w))
            && alias in w.aliases
            && (publisher != "" ==> !HeldElsewhere(w, alias, publisher, group))
  {
    var gone := HeldBy(l, publisher, group, EntryOf(l, alias));
    ClearAllKeeps(l, gone);
    WithEntryKeeps(ClearAll(l, gone), alias, Nil);
    var w := Prepared(l, alias, publisher, group);
    forall n | n in w.aliases && n != alias
      ensures publisher != "" ==> !(w.entries[w.aliases[n]].publisher == publisher && w.entries[w.aliases[n]].group == group)
    {
      assert w.aliases[n] == l.aliases[n];
    }
  }

  lemma SetAliasKeeps(l: Links, target: Option<Ref>, alias: Name, publisher: string, group: string)
    requires Consistent(l)
    ensures Consistent(SetAlias(l, target, alias, publisher, group).0)
    ensures AllAgree(l) ==> AllAgree(SetAlias(l, target, alias, publisher, group).0)
  {
    if SetAlias(l, target, alias, publisher, group).1.Ok? {
      PreparedKeeps(l, alias, publisher, group);
      NamedKeeps(Prepared(l, alias, publisher, group), target.value, alias, publisher, group);
    }
  }

  lemma NamedKeeps(w: Links, r: Ref, alias: Name, publisher: string, group: string)
    requires Consistent(w) && alias in w.aliases
    requires publisher != "" ==> !HeldElsewhere(w, alias, publisher, group)
    ensures var e := w.aliases[alias];
            var a := Attach(w, e, r);
            var b := a.(entries := a.entries[e := StoreWatchers(a.entries[e].(publisher := publisher, group := group), r.value)]);
            Consistent(b) && (AllAgree(w) ==> AllAgree(b))
  {
    var e := w.aliases[alias];
    AttachTwoWay(w, e, r);
    var a := Attach(w, e, r);
    var named := a.entries[e].(publisher := publisher, group := group);
    StoreTells(named, r.value);
    NameHolds(a, e, alias, StoreWatchers(named, r.value));
  }

  /** Replacing one entry by a renamed one that points at the same incarnation. */
  lemma NameHolds(a: Links, e: nat, alias: Name, named: Entry)
    requires TwoWay(a) && AllFaithful(a) && OnePerGroup(a)
    requires alias in a.aliases && a.aliases[alias] == e && a.entries[e].incarnation.Some?
    requires named.incarnation == a.entries[e].incarnation
    requires forall k :: 0 <= k < |named.watchers| ==> Faithful(named.watchers[k])
    requires named.publisher != "" ==> !HeldElsewhere(a, alias, named.publisher, named.group)
    ensures Consistent(a.(entries := a.entries[e := named]))
  {
    var b := a.(entries := a.entries[e := named]);
    forall id: nat ensures ListsItsEntries(b, id) {
      assert ListsItsEntries(a, id);
    }
  }

  /** Changing an entry's empty or watchers alone keeps the links. */
  lemma SameNameKeeps(l: Links, e: nat, n: Entry)
    requires Consistent(l) && e < |l.entries|
    requires n.incarnation == l.entries[e].incarnation
    requires n.publisher == l.entries[e].publisher && n.group == l.entries[e].group
    requires forall k :: 0 <= k < |n.watchers| ==> Faithful(n.watchers[k])
    ensures Consistent(l.(entries := l.entries[e := n]))
  {
    var r := l.(entries := l.entries[e := n]);
    forall id: nat ensures ListsItsEntries(r, id) {
      assert ListsItsEntries(l, id);
    }
  }

  lemma WatchedAgrees(e: Entry, empty: Value, wid: nat)
    requires Agrees(e)
    ensures Agrees(Watched(e, empty, wid))
        <==> !(e.empty == Nil && !IsNil(empty) && e.watchers != [] && IsNil(Current(e)))
  {
    var n := Watched(e, empty, wid);
    assert forall k :: 0 <= k < |e.watchers| ==> n.watchers[k] == e.watchers[k];
    assert Same(n.watchers[|e.watchers|].last, Current(n));
    if e.empty == Nil && !IsNil(empty) && e.watchers != [] && IsNil(Current(e)) {
      assert !Same(n.watchers[0].last, Current(n));
    }
  }

  /** Watch keeps every watcher in agreement if and only if it is not a late empty. */
  lemma WatchKeeps(l: Links, alias: Name, empty: Value, wid: nat)
    requires Consistent(l)
    ensures Consistent(Watch(l, alias, empty, wid))
    ensures AllAgree(l) ==> (AllAgree(Watch(l, alias, empty, wid)) <==> !LateEmpty(l, alias, empty))
  {
    var w := WithEntry(l, alias, empty);
    WithEntryKeeps(l, alias, empty);
    var e := w.aliases[alias];
    var n := Watched(w.entries[e], empty, wid);
    assert Faithful(n.watchers[|w.entries[e].watchers|]);
    SameNameKeeps(w, e, n);
    if AllAgree(l) {
      assert Agrees(w.entries[e]);
      WatchedAgrees(w.entries[e], empty, wid);
      assert Watch(l, alias, empty, wid).entries[e] == n;
    }
  }

  lemma {:induction false} DropWatchersMembers(ws: seq<Watcher>, wid: nat)
    ensures forall w :: w in DropWatchers(ws, wid) <==> w in ws && w.wid != wid
  {
    if ws != [] {
      var n := |ws| - 1;
      DropWatchersMembers(ws[..n], wid);
      assert ws == ws[..n] + [ws[n]];
    }
  }

  lemma DropWatcherKeeps(l: Links, alias: Name, wid: nat)
    requires Consistent(l)
    ensures Consistent(DropWatcher(l, alias, wid))
    ensures AllAgree(l) ==> AllAgree(DropWatcher(l, alias, wid))
  {
    if alias in l.aliases {
      var e := l.aliases[alias];
      var n := l.entries[e].(watchers := DropWatchers(l.entries[e].watchers, wid));
      DropWatchersMembers(l.entries[e].watchers, wid);
      forall k | 0 <= k < |n.watchers| ensures n.watchers[k] in l.entries[e].watchers {
      }
      SameNameKeeps(l, e, n);
    }
  }

  lemma ClearPublisherKeeps(l: Links, publisher: string, group: string)
    requires Consistent(l)
    ensures Consistent(ClearPublisher(l, publisher, group))
    ensures AllAgree(l) ==> AllAgree(ClearPublisher(l, publisher, group))
    ensures publisher != "" && group != "" ==> HeldBy(ClearPublisher(l, publisher, group), publisher, group, None) == {}
  {
    ClearAllKeeps(l, HeldBy(l, publisher, group, None));
  }

  /** A late non-nil empty splits the earlier watcher from its entry. */
  lemma LateEmptyExample()
    ensures exists l, alias, empty, wid :: Consistent(l) && AllAgree(l) && !AllAgree(Watch(l, alias, empty, wid))
  {
    var l := Watch(NoLinks, "a", Nil, 0);
    WatchKeeps(NoLinks, "a", Nil, 0);
    WatchKeeps(l, "a", Plain(7), 1);
    assert l.entries[0].watchers == [Watcher(0, Nil, [])];
    assert LateEmpty(l, "a", Plain(7));
  }
}
