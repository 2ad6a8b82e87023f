/** The gate of backendbackoff as an object: a map of keys, dropped when idle or when the map is full. */
module BackoffGate {
  import opened Basics
  import opened Backoff

  type Key = string

  const MAX_KEYS := 65536

  predicate Expired(e: Entry, now: int) { now >= e.expireAt }

  function Live(m: map<Key, Entry>, now: int): map<Key, Entry> { map k | k in m && !Expired(m[k], now) :: m[k] }

  /** The entry a call finds: the key's own while it lives, else a new one. */
  function Found(c: Config, m: map<Key, Entry>, key: Key, now: int): Entry {
    if key in m && !Expired(m[key], now) then m[key] else NewEntry(c, now)
  }

  /** A memEntry. */
  class KeyState {
    var credit: real
    var n: nat
    var state: State
    var openUntil: int
    var closedSince: Option<int>
    var probeUntil: int
    var probeOutstanding: bool
    var expireAt: int

    ghost function View(): Entry
      reads this
    {
      Entry(credit, n, state, openUntil, closedSince, probeUntil, probeOutstanding, expireAt)
    }

    constructor (c: Config, now: int)
      ensures View() == NewEntry(c, now)
    {
      credit, n, state, openUntil, closedSince, probeUntil, probeOutstanding, expireAt := Budget(c), 0, Shut, 0, Some(now), 0, false, 0;
    }
  }

  /** The keys that are left keep their records. */
  ghost predicate Part(some: map<Key, KeyState>, all: map<Key, KeyState>) {
    forall k :: k in some ==> k in all && some[k] == all[k]
  }

  class Gate {
    const cfg: Config
    var closed: bool
    var keys: map<Key, KeyState>

    /** What is stored, key by key. */
    ghost function Contents(): map<Key, Entry>
      reads this, keys.Values
    {
      map k | k in keys :: keys[k].View()
    }

    ghost predicate Valid()
      reads this, keys.Values
    {
      && Sound(cfg) && |keys| <= MAX_KEYS && (closed ==> keys == map[]) && Apart()
      && forall k :: k in keys ==> EntryOK(cfg, keys[k].View())
    }

    /** No two keys share a record. */
    ghost predicate Apart()
      reads this
    {
      forall j, k :: j in keys && k in keys && j != k ==> keys[j] != keys[k]
    }

    constructor (cfg: Config)
      requires Sound(cfg)
      ensures Valid() && this.cfg == cfg && !closed && Contents() == map[]
    {
      this.cfg, closed, keys := cfg, false, map[];
    }

    /** Close drops every key for good. */
    method Close()
      requires Valid()
      modifies this`closed, this`keys
      ensures Valid() && closed && Contents() == map[]
    {
      closed := true;
      keys := map[];
    }

    method DropExpired(now: int)
      modifies this`keys
      ensures Contents() == Live(old(Contents()), now) && Part(keys, old(keys)) && |keys| <= |old(keys)|
    {
      ghost var all := keys;
      var todo := keys.Keys;
      while todo != {}
        invariant todo <= keys.Keys <= all.Keys
        invariant forall k :: k in keys ==> keys[k] == all[k]
        invariant forall k :: k in all ==> (k in keys <==> k in todo || now < all[k].expireAt)
        decreases |todo|
      {
        var key :| key in todo;
        if now >= keys[key].expireAt { keys := keys - {key}; }
        todo := todo - {key};
      }
      FewerKeys(keys.Keys, all.Keys);
    }

    /** dropOne: at most one live key goes, and only when the map is full of them. */
    method DropOne(now: int) returns (ghost gone: set<Key>)
      requires |keys| <= MAX_KEYS
      modifies this`keys
      ensures Contents() == Live(old(Contents()), now) - gone && Part(keys, old(keys)) && |keys| < MAX_KEYS
      ensures |gone| <= 1 && (gone != {} ==> |Live(old(Contents()), now)| == MAX_KEYS)
    {
      DropExpired(now);
      gone := {};
      assert Contents() == Contents() - {};
      if |keys| < MAX_KEYS { return; }
      assert Contents().Keys == keys.Keys;
      var victim :| victim in keys;
      gone := {victim};
      assert (keys - {victim}).Keys == keys.Keys - {victim};
      keys := keys - {victim};
    }

    /** loadEntry: the key's live record, or a new one in its place. Only expired keys are dropped, and one
        live key when the map is full of live ones. */
    method LoadEntry(key: Key, now: int) returns (entry: KeyState, ghost gone: set<Key>)
      requires |keys| <= MAX_KEYS && Apart()
      modifies this`keys
      ensures key in keys && keys[key] == entry && Apart() && |keys| <= MAX_KEYS
      ensures entry.View() == Found(cfg, old(Contents()), key, now)
      ensures fresh(entry) || (key in old(keys) && entry == old(keys[key]))
      ensures |gone| <= 1 && (gone != {} ==> |Live(old(Contents()), now)| == MAX_KEYS)
      ensures Contents() == if key in old(keys) && !Expired(old(Contents())[key], now) then old(Contents())
                            else (Live(old(Contents()), now) - gone)[key := entry.View()]
    {
      gone := {};
      if key in keys && !(now >= keys[key].expireAt) { return keys[key], gone; }
      gone := MakeRoom(key, now);
      entry := Insert(key, now);
    }

    method Insert(key: Key, now: int) returns (entry: KeyState)
      requires |keys| < MAX_KEYS && Apart()
      modifies this`keys
      ensures fresh(entry) && key in keys && keys[key] == entry && Apart() && |keys| <= MAX_KEYS
      ensures entry.View() == NewEntry(cfg, now) && Contents() == old(Contents())[key := entry.View()]
    {
      entry := new KeyState(cfg, now);
      assert keys[key := entry].Keys == keys.Keys + {key};
      keys := keys[key := entry];
    }

    method MakeRoom(key: Key, now: int) returns (ghost gone: set<Key>)
      requires |keys| <= MAX_KEYS && Apart() && (key in keys ==> now >= keys[key].expireAt)
      modifies this`keys
      ensures Apart() && Part(keys, old(keys)) && |keys| < MAX_KEYS
      ensures |gone| <= 1 && (gone != {} ==> |Live(old(Contents()), now)| == MAX_KEYS)
      ensures Contents() == Live(old(Contents()), now) - gone
    {
      ghost var was := Contents();
      if key in keys {
        assert (keys - {key}).Keys == keys.Keys - {key};
        keys := keys - {key};
        assert Contents() == was - {key};
        LiveWithout(was, key, now);
      }
      gone := {};
      DropExpired(now);
      assert Live(Contents(), now) == Contents();
      assert Contents() == Contents() - {};
      if |keys| >= MAX_KEYS { gone := DropOne(now); }
    }

    /** cooldownDuration, with its jitter sample. */
    method CooldownDuration(n: nat, sample: real) returns (wait: int)
      requires Sound(cfg)
      ensures wait == Cooldown(cfg, n, sample)
    {
      wait := DoubledWait(cfg, n);
      if cfg.jitter <= 0.0 { return; }
      var jittered := Spread(wait, cfg.jitter, sample).Floor;
      if jittered < 0 { jittered := 0; }
      if jittered > cfg.max { return cfg.max; }
      wait := jittered;
    }

    /** Allow's switch over the record's state, in place. */
    method AdmitEntry(entry: KeyState, now: int) returns (allowed: bool, wait: int)
      modifies entry
      ensures (entry.View(), allowed, wait) == Admit(cfg, old(entry.View()), now)
    {
      entry.expireAt := now + cfg.ttl;
      match entry.state {
        case Shut =>
          if entry.closedSince.Some? && now >= entry.closedSince.value + cfg.max { entry.n := 0; }
          return true, 0;
        case Open =>
          if now < entry.openUntil { return false, entry.openUntil - now; }
          entry.state := HalfOpen;
          entry.probeOutstanding, entry.probeUntil := true, now + cfg.base;
          return true, 0;
        case HalfOpen =>
          if entry.probeOutstanding && now < entry.probeUntil { return false, entry.probeUntil - now; }
          entry.probeOutstanding, entry.probeUntil := true, now + cfg.base;
          return true, 0;
      }
    }

    method Load(key: Key, now: int) returns (ghost gone: set<Key>)
      requires Valid() && !closed
      modifies this`keys
      ensures Valid() && key in keys && (fresh(keys[key]) || keys[key] in old(keys.Values))
      ensures |gone| <= 1 && (gone != {} ==> |Live(old(Contents()), now)| == MAX_KEYS)
      ensures Contents() == if key in old(keys) && !Expired(old(Contents())[key], now) then old(Contents())
                            else (Live(old(Contents()), now) - gone)[key := Found(cfg, old(Contents()), key, now)]
    {
      hide EntryOK;
      FoundOK(cfg, Contents(), key, now);
      var entry;
      entry, gone := LoadEntry(key, now);
      forall k | k in keys ensures EntryOK(cfg, keys[k].View()) { assert Contents()[k] == keys[k].View(); }
    }

    method AdmitKey(key: Key, now: int) returns (allowed: bool, wait: int)
      requires Valid() && !closed && key in keys
      modifies keys[key]
      ensures Valid()
      ensures (allowed, wait) == (Admit(cfg, old(Contents())[key], now).1, Admit(cfg, old(Contents())[key], now).2)
      ensures Contents() == old(Contents())[key := Admit(cfg, old(Contents())[key], now).0]
    {
      hide Admit, EntryOK;
      StepsKeep(cfg, keys[key].View(), now, true, 0.0);
      allowed, wait := AdmitEntry(keys[key], now);
    }

    /** Allow. An error, and nothing changed, once the gate is closed. */
    method Allow(key: Key, now: int) returns (ok: bool, allowed: bool, wait: int, ghost gone: set<Key>)
      requires Valid()
      modifies this`keys, keys.Values
      ensures Valid() && ok == !closed
      ensures !ok ==> !allowed && wait == 0 && Contents() == old(Contents())
      ensures ok ==> (allowed, wait) == (Admit(cfg, Found(cfg, old(Contents()), key, now), now).1, Admit(cfg, Found(cfg, old(Contents()), key, now), now).2)
      ensures ok ==> var kept := if key in old(Contents()) && !Expired(old(Contents())[key], now) then old(Contents()) else Live(old(Contents()), now) - gone;
                     Contents() == kept[key := Admit(cfg, Found(cfg, old(Contents()), key, now), now).0]
      ensures |gone| <= 1 && (gone != {} ==> |Live(old(Contents()), now)| == MAX_KEYS == 65536)
    {
      hide Admit, EntryOK;
      gone := {};
      if closed { return false, false, 0, gone; }
      ok := true;
      gone := Load(key, now);
      allowed, wait := AdmitKey(key, now);
    }

    /** Report's switch over the record's state, in place. */
    method NoteEntry(entry: KeyState, success: bool, now: int, sample: real)
      requires Sound(cfg)
      modifies entry
      ensures entry.View() == Note(cfg, old(entry.View()), success, now, sample)
    {
      hide Cooldown;
      entry.expireAt := now + cfg.ttl;
      match entry.state {
        case Open =>
        case HalfOpen =>
          if entry.probeOutstanding {
            entry.probeOutstanding := false;
            if success {
              entry.credit, entry.state, entry.closedSince := Budget(cfg), Shut, Some(now);
            } else {
              entry.n, entry.state := entry.n + 1, Open;
              var cooldown := CooldownDuration(entry.n, sample);
              entry.openUntil := now + cooldown;
            }
          }
        case Shut =>
          if success {
            entry.credit := entry.credit + SuccessCredit(cfg);
            if entry.credit > Budget(cfg) { entry.credit := Budget(cfg); }
          } else {
            if entry.closedSince.Some? && now >= entry.closedSince.value + cfg.max { entry.n := 0; }
            entry.credit := entry.credit - 1.0;
            if entry.credit <= 0.0 {
              entry.state := Open;
              var cooldown := CooldownDuration(entry.n, sample);
              entry.openUntil, entry.closedSince := now + cooldown, None;
            }
          }
      }
    }

    /** Report. A key the gate does not know is ignored; one past its idle time is not. */
    method Report(key: Key, success: bool, now: int, sample: real) returns (ok: bool)
      requires Valid()
      modifies keys.Values
      ensures Valid() && ok == !closed
      ensures Contents() == if ok && key in old(Contents()) then old(Contents())[key := Note(cfg, old(Contents())[key], success, now, sample)]
                            else old(Contents())
    {
      hide Note, EntryOK;
      if closed { return false; }
      ok := true;
      if key !in keys { return; }
      StepsKeep(cfg, keys[key].View(), now, success, sample);
      NoteEntry(keys[key], success, now, sample);
    }
  }

  lemma FoundOK(c: Config, m: map<Key, Entry>, key: Key, now: int)
    requires Sound(c) && forall k :: k in m ==> EntryOK(c, m[k])
    ensures EntryOK(c, Found(c, m, key, now))
  {
  }

  lemma LiveWithout(m: map<Key, Entry>, key: Key, now: int)
    requires key in m ==> Expired(m[key], now)
    ensures Live(m - {key}, now) == Live(m, now)
  {
  }

  lemma FewerKeys(a: set<Key>, b: set<Key>)
    requires a <= b
    ensures |a| <= |b|
  {
    assert |b - a| + |a| == |b| by { assert (b - a) + a == b; }
  }
}
