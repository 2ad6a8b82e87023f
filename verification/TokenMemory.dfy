/** The in-process store of tokenbucket/memory.go: one bucket per source, dropped when idle or when the
    store is full. Times are nanoseconds; a bucket's own clock runs in whole microseconds. */
module TokenMemory {
  import opened Basics
  import opened TokenBucket

  type Source = string

  const MAX_SOURCES := 65536

  datatype Entry = Entry(bucket: Bucket, expireAt: int)

  predicate Expired(e: Entry, now: int) { now >= e.expireAt }

  function Live(m: map<Source, Entry>, now: int): map<Source, Entry> { map k | k in m && !Expired(m[k], now) :: m[k] }

  /** The bucket a call finds: the source's own while it lives, else a full one. */
  function BucketFor(c: Clock, e: Option<Entry>, now: int): Bucket {
    if e.Some? && !Expired(e.value, now) then e.value.bucket else Full(c, now / 1000)
  }

  function Found(c: Clock, m: map<Source, Entry>, key: Source, now: int): Bucket { BucketFor(c, RecordOf(m, key), now) }

  function RecordOf(m: map<Source, Entry>, key: Source): Option<Entry> { if key in m then Some(m[key]) else None }

  /** The source's record after a call. */
  function Served(c: Clock, ttl: int, e: Option<Entry>, now: int): Entry
    requires c.limit > 0.0
  {
    Entry(Next(c, BucketFor(c, e, now), now / 1000), now + ttl)
  }

  class Memory {
    const clock: Clock
    const ttl: int
    var buckets: map<Source, Entry>

    ghost predicate Valid()
      reads this
    {
      && Sound(clock) && |buckets| <= MAX_SOURCES
      && forall k :: k in buckets ==> InBounds(clock, buckets[k].bucket)
    }

    constructor (clock: Clock, ttl: int)
      requires Sound(clock)
      ensures Valid() && buckets == map[] && this.clock == clock && this.ttl == ttl
    {
      this.clock, this.ttl, buckets := clock, ttl, map[];
    }

    /** dropExpired */
    method DropExpired(now: int)
      modifies this`buckets
      ensures buckets == Live(old(buckets), now)
    {
      ghost var all := buckets;
      var todo := buckets.Keys;
      while todo != {}
        invariant todo <= buckets.Keys <= all.Keys
        invariant forall k :: k in buckets ==> buckets[k] == all[k]
        invariant forall k :: k in all ==> (k in buckets <==> k in todo || !Expired(all[k], now))
        decreases |todo|
      {
        var source :| source in todo;
        if now >= buckets[source].expireAt { buckets := buckets - {source}; }
        todo := todo - {source};
      }
    }

    /** dropOne: at most one live source goes, and only when the store is full. */
    method DropOne(now: int) returns (ghost gone: set<Source>)
      requires |buckets| <= MAX_SOURCES
      modifies this`buckets
      ensures gone <= Live(old(buckets), now).Keys && |gone| <= 1
      ensures buckets == Live(old(buckets), now) - gone && |buckets| < MAX_SOURCES
      ensures gone != {} ==> |Live(old(buckets), now)| == MAX_SOURCES
    {
      Fewer(buckets, now);
      DropExpired(now);
      gone := {};
      assert buckets == buckets - {};
      if |buckets| < MAX_SOURCES { return; }
      var source :| source in buckets;
      gone := {source};
      assert (buckets - {source}).Keys == buckets.Keys - {source};
      buckets := buckets - {source};
    }

    /** The expired sources go, the asking one among them, and one live source if none makes room. */
    method MakeRoom(key: Source, now: int) returns (ghost gone: set<Source>)
      requires |buckets| <= MAX_SOURCES && (key in buckets ==> Expired(buckets[key], now))
      modifies this`buckets
      ensures gone <= Live(old(buckets), now).Keys && |gone| <= 1
      ensures buckets == Live(old(buckets), now) - gone && |buckets| < MAX_SOURCES
      ensures gone != {} ==> |Live(old(buckets), now)| == MAX_SOURCES
    {
      Fewer(buckets, now);
      if key in buckets {
        assert Live(buckets - {key}, now) == Live(buckets, now);
        buckets := buckets - {key};
      }
      assert Live(Live(buckets, now), now) == Live(buckets, now);
      DropExpired(now);
      gone := {};
      assert buckets == buckets - {};
      if |buckets| >= MAX_SOURCES { gone := DropOne(now); }
    }

    /** Allow: one token for the source. Other sources keep their buckets; only expired ones, or the one
        in `gone` when the store is full of live ones, are dropped. */
    method Allow(key: Source, now: int) returns (allowed: bool, wait: int, ghost gone: set<Source>)
      requires Valid()
      modifies this`buckets
      ensures Valid() && wait == WaitNanos(Wait(clock, Found(clock, old(buckets), key, now), now / 1000))
      ensures allowed == (wait <= clock.maxDelayNanos)
      ensures var kept := if key in old(buckets) && !Expired(old(buckets)[key], now) then old(buckets) else Live(old(buckets), now) - gone;
              buckets == kept[key := Served(clock, ttl, RecordOf(old(buckets), key), now)]
      ensures |gone| <= 1 && (gone != {} ==> |Live(old(buckets), now)| == MAX_SOURCES == 65536)
    {
      hide InBounds, Next, Wait, Refilled;
      gone := {};
      var entry: Entry;
      if key in buckets && !(now >= buckets[key].expireAt) {
        entry := buckets[key];
      } else {
        gone := MakeRoom(key, now);
        entry := Entry(Full(clock, now / 1000), 0);
        FullInBounds(clock, now / 1000);
      }
      NextInBounds(clock, entry.bucket, now / 1000);
      var bucket, waitMicro := ConsumeOne(clock, entry.bucket, now / 1000);
      OneMore(buckets, key, Entry(bucket, now + ttl));
      buckets := buckets[key := Entry(bucket, now + ttl)];
      wait := WaitNanos(waitMicro);
      allowed := wait <= clock.maxDelayNanos;
    }
  }

  lemma OneMore(m: map<Source, Entry>, key: Source, e: Entry)
    ensures |m[key := e]| == |m| + if key in m then 0 else 1
  {
    assert m[key := e].Keys == m.Keys + {key};
  }

  lemma Fewer(m: map<Source, Entry>, now: int)
    ensures |Live(m, now)| <= |m|
  {
    assert Live(m, now).Keys <= m.Keys;
    Subsets(Live(m, now).Keys, m.Keys);
  }

  lemma {:induction false} Subsets<T>(a: set<T>, b: set<T>)
    requires a <= b
    ensures |a| <= |b|
  {
    assert |b - a| + |a| == |b| by { assert (b - a) + a == b; }
  }
}
