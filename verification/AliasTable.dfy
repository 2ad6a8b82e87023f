/** The alias operations as the table runs them: in place, entry by entry. Every method ends in the
    state its specification function gives. */
module AliasTable {
  import opened Basics
  import opened AliasLinks

  lemma {:induction false} KeepOutMore(xs: seq<nat>, gone: set<nat>, e: nat)
    ensures KeepOut(xs, gone + {e}) == Without(KeepOut(xs, gone), e)
  {
    if xs != [] {
      var n := |xs| - 1;
      KeepOutMore(xs[..n], gone, e);
      var kept := KeepOut(xs[..n], gone);
      assert (kept + [xs[n]])[..|kept|] == kept && kept + [] == kept;
    }
  }

  /** How the reverse links shrink by one more entry. */
  lemma BoundOneMore(l: Links, gone: set<nat>, e: nat, i: nat)
    requires TwoWay(l) && i in l.bound
    ensures KeepOut(l.bound[i], gone + {e})
         == if PointsAt(l, e, i) then Without(KeepOut(l.bound[i], gone), e) else KeepOut(l.bound[i], gone)
  {
    KeepOutMore(l.bound[i], gone, e);
    KeepOutMembers(l.bound[i], gone);
    assert ListsItsEntries(l, i);
    if !PointsAt(l, e, i) { WithoutAbsent(KeepOut(l.bound[i], gone), e); }
  }

  /** Clearing one more entry after a set is clearing the larger set. */
  lemma ClearOneMore(l: Links, gone: set<nat>, e: nat)
    requires TwoWay(l) && e < |l.entries| && e !in gone
    ensures ClearAlias(ClearAll(l, gone), e) == ClearAll(l, gone + {e})
  {
    hide KeepOut, Without, StoreWatchers;
    var c := ClearAll(l, gone);
    var a := ClearAlias(c, e);
    var b := ClearAll(l, gone + {e});
    assert c.entries[e] == l.entries[e];
    assert a.entries == b.entries;
    forall i | i in l.bound ensures b.bound[i] == if PointsAt(l, e, i) then Without(c.bound[i], e) else c.bound[i] {
      BoundOneMore(l, gone, e, i);
    }
    if l.entries[e].incarnation.Some? {
      var i := l.entries[e].incarnation.value.id;
      assert ListsItsEntries(l, i) && PointsAt(l, e, i);
      assert i in l.bound;
    }
    hide ListsItsEntries, TwoWay;
    assert a.bound == b.bound;
  }

  lemma ClearNone(l: Links)
    requires Consistent(l)
    ensures ClearAll(l, {}) == l
  {
    forall i | i in l.bound ensures KeepOut(l.bound[i], {}) == l.bound[i] { KeepOutNone(l.bound[i]); }
    assert ClearAll(l, {}).bound == l.bound;
    assert ClearAll(l, {}).entries == l.entries;
  }

  lemma {:induction false} KeepOutNone(xs: seq<nat>)
    ensures KeepOut(xs, {}) == xs
  {
    if xs != [] { KeepOutNone(xs[..|xs| - 1]); }
  }

  lemma InRange(l: Links, alias: Name)
    requires Consistent(l)
    ensures alias in l.aliases ==> l.aliases[alias] < |l.entries|
  {
    hide TwoWay, AllFaithful;
  }

  lemma BoundFacts(l: Links, id: nat)
    requires Consistent(l)
    ensures Distinct(Bound(l, id)) && forall e :: e in Bound(l, id) ==> e < |l.entries|
  {
    hide OnePerGroup, AllFaithful;
    assert ListsItsEntries(l, id);
  }

  class Names {
    var aliases: map<Name, nat>
    var entries: seq<Entry>
    var bound: map<nat, seq<nat>>

    ghost function Abs(): Links
      reads this
    {
      Links(aliases, entries, bound)
    }

    ghost predicate Valid()
      reads this
    {
      Consistent(Abs())
    }

    constructor ()
      ensures Abs() == NoLinks && Valid()
    {
      aliases, entries, bound := map[], [], map[];
      new;
      forall id: nat ensures ListsItsEntries(NoLinks, id) { }
    }

    /** storeWatchersLocked. */
    method StoreWatchersLocked(e: nat, current: Value)
      requires e < |entries|
      modifies this`entries
      ensures entries == old(entries)[e := StoreWatchers(old(entries)[e], current)]
    {
      var value := if IsNil(current) then entries[e].empty else current;
      var k := 0;
      ghost var was := entries[e];
      while k < |entries[e].watchers|
        invariant |entries| == |old(entries)| && 0 <= k <= |was.watchers|
        invariant forall j :: 0 <= j < |entries| && j != e ==> entries[j] == old(entries)[j]
        invariant entries[e] == was.(watchers := entries[e].watchers) && |entries[e].watchers| == |was.watchers|
        invariant forall j :: 0 <= j < |was.watchers| ==>
                    entries[e].watchers[j] == if j < k then Deliver(was.watchers[j], value) else was.watchers[j]
      {
        var w := entries[e].watchers[k];
        if !Same(w.last, value) {
          var told := w.(last := value, seen := w.seen + [value]);
          entries := entries[e := entries[e].(watchers := entries[e].watchers[k := told])];
        }
        k := k + 1;
      }
      assert entries[e].watchers == StoreWatchers(was, current).watchers;
    }

    /** detachAliasLocked: the reverse link is filtered in order. */
    method DetachAliasLocked(e: nat)
      requires e < |entries|
      modifies this`entries, this`bound
      ensures Abs() == Detach(old(Abs()), e)
    {
      match entries[e].incarnation
      case None =>
      case Some(r) =>
        var list := if r.id in bound then bound[r.id] else [];
        var kept: seq<nat> := [];
        var k := 0;
        while k < |list|
          invariant 0 <= k <= |list| && kept == Without(list[..k], e) && Abs() == old(Abs())
        {
          if list[k] != e { kept := kept + [list[k]]; }
          WithoutStep(list, k, e);
          k := k + 1;
        }
        assert list[..|list|] == list;
        bound := bound[r.id := kept];
        entries := entries[e := entries[e].(incarnation := None)];
    }

    /** clearAliasLocked. */
    method ClearAliasLocked(e: nat)
      requires e < |entries|
      modifies this`entries, this`bound
      ensures Abs() == ClearAlias(old(Abs()), e)
    {
      DetachAliasLocked(e);
      ghost var d := Detach(old(Abs()), e);
      assert Abs() == d && d.entries[e].incarnation.None?;
      assert bound == d.bound && aliases == d.aliases;
      entries := entries[e := entries[e].(publisher := "", group := "")];
      StoreWatchersLocked(e, entries[e].empty);
      assert entries == d.entries[e := Cleared(d.entries[e])];
    }

    /** unbindIncarnationLocked: called by every path that ends an incarnation. */
    method UnbindIncarnationLocked(id: nat)
      requires Valid()
      modifies this`entries, this`bound
      ensures Abs() == Unbind(old(Abs()), id) && Valid()
    {
      hide Consistent, StoreWatchers, Distinct;
      var list := if id in bound then bound[id] else [];
      ghost var was := entries;
      BoundFacts(Abs(), id);
      UnbindKeeps(Abs(), id);
      bound := bound[id := []];
      var k := 0;
      while k < |list|
        invariant 0 <= k <= |list| && |entries| == |was| && bound == old(bound)[id := []]
        invariant forall j :: 0 <= j < |was| ==> entries[j] == if j in list[..k] then Cleared(was[j]) else was[j]
      {
        var e := list[k];
        DistinctPrefix(list, k);
        assert e in list;
        entries := entries[e := entries[e].(incarnation := None, publisher := "", group := "")];
        StoreWatchersLocked(e, entries[e].empty);
        assert entries[e] == Cleared(was[e]);
        k := k + 1;
      }
      assert list[..|list|] == list;
      assert entries == Unbind(old(Abs()), id).entries;
    }

    /** The loop SetAlias and ClearPublisher share: every other alias of the publisher in the group
        is cleared, in whatever order the map is walked. */
    method ClearHeld(publisher: string, group: string, except: Option<nat>)
      requires Valid()
      modifies this`entries, this`bound
      ensures Abs() == ClearAll(old(Abs()), HeldBy(old(Abs()), publisher, group, except)) && Valid()
    {
      ghost var was := Abs();
      ghost var gone: set<nat> := {};
      var todo := aliases.Keys;
      ClearNone(was);
      while todo != {}
        invariant todo <= aliases.Keys && Abs() == ClearAll(was, gone)
        invariant forall a :: a in todo ==> was.aliases[a] !in gone
        invariant forall e :: e in gone ==> e in HeldBy(was, publisher, group, except)
        invariant forall a :: a in was.aliases && a !in todo && was.aliases[a] in HeldBy(was, publisher, group, except)
                    ==> was.aliases[a] in gone
        decreases todo
      {
        var a :| a in todo;
        var e := aliases[a];
        todo := todo - {a};
        assert entries[e] == was.entries[e];
        if Some(e) != except && entries[e].publisher == publisher && entries[e].group == group {
          ClearOneMore(was, gone, e);
          ClearAliasLocked(e);
          gone := gone + {e};
        } 
      }
      assert gone == HeldBy(was, publisher, group, except);
      ClearAllKeeps(was, gone);
    }

    /** SetAlias's re-binding of one entry. */
    method AttachLocked(e: nat, r: Ref)
      requires e < |entries|
      modifies this`entries, this`bound
      ensures Abs() == Attach(old(Abs()), e, r)
    {
      if entries[e].incarnation != Some(r) {
        DetachAliasLocked(e);
        bound := bound[r.id := (if r.id in bound then bound[r.id] else []) + [e]];
        entries := entries[e := entries[e].(incarnation := Some(r))];
      }
    }

    /** SetAlias for a key whose mapped value, if awake or asleep, is `target`. */
    method Set(target: Option<Ref>, alias: Name, publisher: string, group: string) returns (outcome: Outcome)
      requires Valid()
      modifies this
      ensures (Abs(), outcome) == SetAlias(old(Abs()), target, alias, publisher, group) && Valid()
    {
      hide Consistent, ClearAll, HeldBy, StoreWatchers;
      InRange(Abs(), alias);
      SetAliasKeeps(Abs(), target, alias, publisher, group);
      if target.None? { return NoMappedKey; }
      if alias in aliases && entries[aliases[alias]].publisher != "" && entries[aliases[alias]].publisher != publisher {
        return HeldByOther(entries[aliases[alias]].publisher);
      }
      ClearHeld(publisher, group, if alias in aliases then Some(aliases[alias]) else None);
      InRange(Abs(), alias);
      if alias !in aliases {
        aliases := aliases[alias := |entries|];
        entries := entries + [FreshEntry];
      }
      ghost var w := Prepared(old(Abs()), alias, publisher, group);
      assert Abs() == w;
      var e := aliases[alias];
      AttachLocked(e, target.value);
      entries := entries[e := entries[e].(publisher := publisher, group := group)];
      ghost var a := Attach(w, e, target.value);
      assert bound == a.bound && aliases == a.aliases;
      StoreWatchersLocked(e, target.value.value);
      assert entries == a.entries[e := StoreWatchers(a.entries[e].(publisher := publisher, group := group), target.value.value)];
      return Ok;
    }

    method Watch(alias: Name, empty: Value, wid: nat)
      requires Valid()
      modifies this
      ensures Abs() == AliasLinks.Watch(old(Abs()), alias, empty, wid) && Valid()
    {
      WatchKeeps(Abs(), alias, empty, wid);
      if alias !in aliases {
        aliases := aliases[alias := |entries|];
        entries := entries + [FreshEntry.(empty := empty)];
      }
      ghost var w := WithEntry(old(Abs()), alias, empty);
      assert Abs() == w;
      var e := aliases[alias];
      if entries[e].empty == Nil && empty != Nil { entries := entries[e := entries[e].(empty := empty)]; }
      var watcher := Watcher(wid, Nil, []);
      var current := entries[e].empty;
      if entries[e].incarnation.Some? && !IsNil(entries[e].incarnation.value.value) {
        current := entries[e].incarnation.value.value;
      }
      if !Same(watcher.last, current) { watcher := watcher.(last := current, seen := watcher.seen + [current]); }
      entries := entries[e := entries[e].(watchers := entries[e].watchers + [watcher])];
      assert entries == w.entries[e := Watched(w.entries[e], empty, wid)];
    }

    /** dropWatcher: runs when the watcher's context is done. */
    method Drop(alias: Name, wid: nat)
      requires Valid()
      modifies this`entries
      ensures Abs() == DropWatcher(old(Abs()), alias, wid) && Valid()
    {
      DropWatcherKeeps(Abs(), alias, wid);
      if alias in aliases {
        var e := aliases[alias];
        var ws := entries[e].watchers;
        var kept: seq<Watcher> := [];
        var k := 0;
        while k < |ws|
          invariant 0 <= k <= |ws| && kept == DropWatchers(ws[..k], wid)
        {
          assert ws[..k + 1][..k] == ws[..k];
          if ws[k].wid != wid { kept := kept + [ws[k]]; }
          k := k + 1;
        }
        assert ws[..|ws|] == ws;
        entries := entries[e := entries[e].(watchers := kept)];
      }
    }

    method ClearPublisher(publisher: string, group: string)
      requires Valid()
      modifies this`entries, this`bound
      ensures Abs() == AliasLinks.ClearPublisher(old(Abs()), publisher, group) && Valid()
    {
      if publisher != "" && group != "" { ClearHeld(publisher, group, None); }
    }
  }
}
