/** What the alias operations decide and publish, written out entry by entry. */
module AliasLaws {
  import opened Basics
  import opened AliasLinks

  /** Nil and every typed nil count as one value, pointers are told apart by where they point, and everything
      else by equality. */
  lemma SameIs(a: Value, b: Value)
    ensures IsNil(a) <==> a == Nil || exists ty :: a == TypedNil(ty)
    ensures IsNil(a) && IsNil(b) ==> Same(a, b)
    ensures IsNil(a) != IsNil(b) ==> !Same(a, b)
    ensures a.Ptr? && b.Ptr? ==> (Same(a, b) <==> a.addr == b.addr)
    ensures a.Plain? && !IsNil(b) ==> (Same(a, b) <==> a == b)
    ensures Same(a, b) <==> Same(b, a)
  {
    assert a.TypedNil? ==> a == TypedNil(a.ty);
  }

  /** What an alias shows: the value of the incarnation it points at, or its empty if that is nil. */
  function Shown(r: Option<Ref>, empty: Value): Value {
    if r.Some? && r.value.value != Nil && !r.value.value.TypedNil? then r.value.value else empty
  }

  /** Watcher w after it was told v: called once more if that is news, and left alone if not. */
  predicate Told(w: Watcher, v: Value, r: Watcher) {
    r.wid == w.wid && if Same(w.last, v) then r == w else r.last == v && r.seen == w.seen + [v]
  }

  ghost predicate AllTold(ws: seq<Watcher>, v: Value, rs: seq<Watcher>) {
    |rs| == |ws| && forall k :: 0 <= k < |ws| ==> Told(ws[k], v, rs[k])
  }

  /** The entry has lost its incarnation and its publisher, and its watchers were told the empty. */
  ghost predicate Emptied(e: Entry, r: Entry) {
    r == Entry(None, "", "", e.empty, r.watchers) && AllTold(e.watchers, e.empty, r.watchers)
  }

  lemma ClearedIs(e: Entry)
    ensures Emptied(e, Cleared(e))
  {
  }

  lemma StoredIs(e: Entry, v: Value)
    ensures var r := StoreWatchers(e, v);
            r == e.(watchers := r.watchers) && AllTold(e.watchers, if IsNil(v) then e.empty else v, r.watchers)
  {
  }

  // ---------------------------------------------------------------- SetAlias

  /** Who holds the alias. */
  function Holder(l: Links, alias: Name): string
    requires alias in l.aliases ==> l.aliases[alias] < |l.entries|
  {
    if alias in l.aliases then l.entries[l.aliases[alias]].publisher else ""
  }

  /** SetAlias refuses a key that has no value, and an alias another publisher holds, and then changes nothing. */
  lemma SetAliasDecides(l: Links, target: Option<Ref>, alias: Name, publisher: string, group: string)
    requires Consistent(l)
    ensures var (r, outcome) := SetAlias(l, target, alias, publisher, group);
            var held := Holder(l, alias);
            && (outcome == NoMappedKey <==> target.None?)
            && (outcome == HeldByOther(held) <==> target.Some? && held != "" && held != publisher)
            && (outcome == Ok <==> target.Some? && (held == "" || held == publisher))
            && (outcome != Ok ==> r == l)
  {
    hide TwoWay, AllFaithful, Prepared, Attach, StoreWatchers;
  }

  /** When it does not refuse, the alias points at the target under its publisher and group and its watchers were
      told the target's value; every other alias the publisher held in the group is emptied, and every other entry
      is as it was. */
  lemma SetAliasPublishes(l: Links, target: Option<Ref>, alias: Name, publisher: string, group: string)
    requires Consistent(l) && SetAlias(l, target, alias, publisher, group).1 == Ok
    ensures var r := SetAlias(l, target, alias, publisher, group).0;
            && alias in r.aliases && (forall n :: n in r.aliases <==> n in l.aliases || n == alias)
            && (forall n :: n in l.aliases ==> r.aliases[n] == l.aliases[n])
            && r.aliases[alias] < |r.entries| && |l.entries| <= |r.entries|
            && PublishedAt(l, r, r.aliases[alias], target.value, publisher, group)
            && forall e :: 0 <= e < |l.entries| && e != r.aliases[alias] ==>
                 if Listed(l, e) && l.entries[e].publisher == publisher && l.entries[e].group == group
                 then Emptied(l.entries[e], r.entries[e]) else r.entries[e] == l.entries[e]
  {
    hide TwoWay, AllFaithful, StoreWatchers, Prepared, Attach, Emptied, Listed, AllTold;
    PreparedIs(l, alias, publisher, group);
    var w := Prepared(l, alias, publisher, group);
    var e := w.aliases[alias];
    AttachIs(w, e, target.value);
    var a := Attach(w, e, target.value);
    var named := a.entries[e].(publisher := publisher, group := group);
    StoredIs(named, target.value.value);
    var r := SetAlias(l, target, alias, publisher, group).0;
    assert r.aliases == w.aliases && r.entries == w.entries[e := StoreWatchers(named, target.value.value)];
    assert r.entries[e] == StoreWatchers(named, target.value.value);
  }

  /** Making room: the publisher's other aliases of the group are emptied, the alias itself is left alone. */
  lemma PreparedIs(l: Links, alias: Name, publisher: string, group: string)
    requires Consistent(l)
    ensures var w := Prepared(l, alias, publisher, group);
            && alias in w.aliases && (forall n :: n in w.aliases <==> n in l.aliases || n == alias)
            && (forall n :: n in l.aliases ==> w.aliases[n] == l.aliases[n])
            && w.aliases[alias] < |w.entries| && |l.entries| <= |w.entries|
            && w.entries[w.aliases[alias]] == (if w.aliases[alias] < |l.entries| then l.entries[w.aliases[alias]] else FreshEntry)
            && forall e :: 0 <= e < |l.entries| && e != w.aliases[alias] ==>
                 if Listed(l, e) && l.entries[e].publisher == publisher && l.entries[e].group == group
                 then Emptied(l.entries[e], w.entries[e]) else w.entries[e] == l.entries[e]
  {
    hide TwoWay, AllFaithful, Cleared, Emptied;
    var gone := HeldBy(l, publisher, group, EntryOf(l, alias));
    var w := Prepared(l, alias, publisher, group);
    forall e | 0 <= e < |l.entries| && e != w.aliases[alias]
      ensures if Listed(l, e) && l.entries[e].publisher == publisher && l.entries[e].group == group
              then Emptied(l.entries[e], w.entries[e]) else w.entries[e] == l.entries[e]
    {
      ClearedIs(l.entries[e]);
      assert e in gone <==> Listed(l, e) && l.entries[e].publisher == publisher && l.entries[e].group == group;
    }
  }

  /** Some name leads to the entry. */
  ghost predicate Listed(l: Links, e: nat) { exists n :: n in l.aliases && l.aliases[n] == e }

  ghost predicate PublishedAt(l: Links, r: Links, e: nat, target: Ref, publisher: string, group: string)
    requires e < |r.entries|
  {
    var was := if e < |l.entries| then l.entries[e] else FreshEntry;
    && r.entries[e] == Entry(Some(target), publisher, group, was.empty, r.entries[e].watchers)
    && AllTold(was.watchers, Shown(Some(target), was.empty), r.entries[e].watchers)
  }

  lemma AttachIs(l: Links, e: nat, r: Ref)
    requires e < |l.entries|
    ensures Attach(l, e, r).aliases == l.aliases && |Attach(l, e, r).entries| == |l.entries|
    ensures Attach(l, e, r).entries == l.entries[e := l.entries[e].(incarnation := Some(r))]
  {
  }

  // ---------------------------------------------------------------- Watch, dropping a watcher, clearing

  /** Watch adds one watcher and tells it what the alias shows; the first non-nil empty sticks, and no other
      watcher hears of it. */
  lemma WatchIs(l: Links, alias: Name, empty: Value, wid: nat)
    requires Consistent(l)
    ensures var r := Watch(l, alias, empty, wid);
            var was := if alias in l.aliases then l.entries[l.aliases[alias]] else FreshEntry;
            var stuck := if was.empty == Nil then empty else was.empty;
            var shown := Shown(was.incarnation, stuck);
            && alias in r.aliases && r.aliases[alias] < |r.entries|
            && (alias in l.aliases ==> r.aliases == l.aliases && |r.entries| == |l.entries|)
            && (alias !in l.aliases ==> r.aliases == l.aliases[alias := |l.entries|] && |r.entries| == |l.entries| + 1)
            && r.entries[r.aliases[alias]] == Entry(was.incarnation, was.publisher, was.group, stuck,
                 was.watchers + [Watcher(wid, if IsNil(shown) then Nil else shown, if IsNil(shown) then [] else [shown])])
            && forall e :: 0 <= e < |l.entries| && e != r.aliases[alias] ==> r.entries[e] == l.entries[e]
  {
    hide TwoWay, AllFaithful;
    var w := WithEntry(l, alias, empty);
    WatchedIs(w.entries[w.aliases[alias]], empty, wid);
    hide Watched;
  }

  lemma WatchedIs(was: Entry, empty: Value, wid: nat)
    ensures var stuck := if was.empty == Nil then empty else was.empty;
            var shown := Shown(was.incarnation, stuck);
            Watched(was, empty, wid) == Entry(was.incarnation, was.publisher, was.group, stuck,
              was.watchers + [Watcher(wid, if IsNil(shown) then Nil else shown, if IsNil(shown) then [] else [shown])])
  {
    var shown := Shown(was.incarnation, if was.empty == Nil then empty else was.empty);
    assert [] + [shown] == [shown];
    assert Deliver(Watcher(wid, Nil, []), shown) == Watcher(wid, if IsNil(shown) then Nil else shown, if IsNil(shown) then [] else [shown]);
  }

  /** Dropping a watcher takes away those with its number and keeps the others, in order. */
  lemma {:induction false} DropIs(ws: seq<Watcher>, wid: nat, before: seq<Watcher>, w: Watcher, after: seq<Watcher>)
    requires ws == before + [w] + after
    ensures DropWatchers(ws, wid) == DropWatchers(before, wid) + (if w.wid == wid then [] else [w]) + DropWatchers(after, wid)
  {
    if after == [] {
      assert ws[..|ws| - 1] == before && ws[|ws| - 1] == w;
      assert DropWatchers(after, wid) == [];
    } else {
      var n := |after| - 1;
      assert ws[..|ws| - 1] == before + [w] + after[..n] && ws[|ws| - 1] == after[n];
      DropIs(ws[..|ws| - 1], wid, before, w, after[..n]);
    }
  }

  /** ClearPublisher empties exactly what the publisher holds in the group; an empty publisher or group clears
      nothing. */
  lemma ClearPublisherIs(l: Links, publisher: string, group: string)
    requires Consistent(l)
    ensures var r := ClearPublisher(l, publisher, group);
            && r.aliases == l.aliases && |r.entries| == |l.entries|
            && forall e :: 0 <= e < |l.entries| ==>
                 if Listed(l, e) && publisher != "" && group != "" && l.entries[e].publisher == publisher && l.entries[e].group == group
                 then Emptied(l.entries[e], r.entries[e]) else r.entries[e] == l.entries[e]
  {
    hide TwoWay, AllFaithful, Cleared;
    forall j | 0 <= j < |l.entries| ensures Emptied(l.entries[j], Cleared(l.entries[j])) { ClearedIs(l.entries[j]); }
  }

  /** Ending an incarnation empties exactly the entries that point at it. */
  lemma UnbindIs(l: Links, id: nat)
    requires Consistent(l)
    ensures var r := Unbind(l, id);
            && r.aliases == l.aliases && |r.entries| == |l.entries|
            && forall e :: 0 <= e < |l.entries| ==>
                 if PointsAt(l, e, id) then Emptied(l.entries[e], r.entries[e]) else r.entries[e] == l.entries[e]
  {
    assert ListsItsEntries(l, id);
    hide TwoWay, AllFaithful, Cleared, OnePerGroup;
    forall j | 0 <= j < |l.entries| ensures Emptied(l.entries[j], Cleared(l.entries[j])) { ClearedIs(l.entries[j]); }
  }
}
