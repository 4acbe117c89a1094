/** `TTLCache` on a memory backend of its own: least-recently-used bookkeeping over stored entries. */
module TtlCache {
  import opened Options
  import opened MemoryCache
  import opened Sequences

  const SEPARATOR := '\U{1f}'

  function Full(k: Key): Key { "cache:" + k }
  function Stale(k: Key): Key { Full(k) + [SEPARATOR] + "st" }
  function XFetch(k: Key): Key { Full(k) + [SEPARATOR] + "xf" }

  /** Caller keys leave the separator alone. */
  predicate Clean(k: Key) { SEPARATOR !in k }

  /** The stored entry `d` is the value or the stale reserve of `k`. */
  predicate Belongs(d: Key, k: Key) { d == Full(k) || d == Stale(k) }

  lemma StoredNames(a: Key, b: Key)
    requires Clean(a) && Clean(b)
    ensures Full(a) == Full(b) ==> a == b
    ensures Stale(a) == Stale(b) ==> a == b
    ensures Full(a) != Stale(b)
  {
    assert Full(a)[6..] == a && Full(b)[6..] == b;
    assert Stale(a)[..|Stale(a)| - 3] == Full(a) && Stale(b)[..|Stale(b)| - 3] == Full(b);
    assert forall i :: 0 <= i < |Full(a)| ==> Full(a)[i] == (if i < 6 then "cache:"[i] else a[i - 6]);
    assert SEPARATOR !in Full(a);
    assert Stale(b)[|Full(b)|] == SEPARATOR;
  }

  function AllWithout(s: seq<Key>, gone: seq<Key>): seq<Key> {
    if gone == [] then s else Without(AllWithout(s, gone[..|gone| - 1]), gone[|gone| - 1])
  }

  lemma {:induction false} WithoutKeepsOrder(s: seq<Key>, k: Key, rank: map<Key, nat>)
    requires Ranked(s, rank)
    ensures Ranked(Without(s, k), rank)
  {
    if s != [] {
      TailIsRanked(s, rank);
      WithoutKeepsOrder(s[1..], k, rank);
      if s[0] != k {
        HeadIsRanked(s[0], Without(s[1..], k), rank);
      }
    }
  }

  lemma TailIsRanked(s: seq<Key>, rank: map<Key, nat>)
    requires Ranked(s, rank) && s != []
    ensures Ranked(s[1..], rank) && s[0] in rank
    ensures forall x :: x in s[1..] ==> rank[s[0]] < rank[x]
  {
    forall x | x in s[1..] ensures x in rank && rank[s[0]] < rank[x] {
      var i :| 0 <= i < |s[1..]| && s[1..][i] == x;
      assert s[i + 1] == x;
    }
  }

  lemma HeadIsRanked(h: Key, s: seq<Key>, rank: map<Key, nat>)
    requires Ranked(s, rank) && h in rank && forall x :: x in s ==> rank[h] < rank[x]
    ensures Ranked([h] + s, rank)
  {
    var r := [h] + s;
    forall i, j | 0 <= i < j < |r| ensures r[i] in rank && r[j] in rank && rank[r[i]] < rank[r[j]] {
      assert r[j] == s[j - 1];
    }
  }

  /** Listed from least to most recently used. */
  ghost predicate Ranked(s: seq<Key>, rank: map<Key, nat>) {
    && (forall i :: 0 <= i < |s| ==> s[i] in rank)
    && (forall i, j :: 0 <= i < j < |s| ==> rank[s[i]] < rank[s[j]])
  }

  /** Every stored entry belongs to a tracked key. */
  ghost predicate Tracked(stored: map<Key, Flat>, keys: seq<Key>) {
    forall d :: d in stored ==> Owned(d, keys)
  }

  ghost predicate Owned(d: Key, keys: seq<Key>) { exists k :: k in keys && Belongs(d, k) }

  lemma TrackedShrinks(stored: map<Key, Flat>, keys: seq<Key>, smaller: map<Key, Flat>, k: Key)
    requires Tracked(stored, keys) && smaller.Keys <= stored.Keys
    requires Full(k) !in smaller && Stale(k) !in smaller
    ensures Tracked(smaller, Without(keys, k))
  {
    forall d | d in smaller ensures Owned(d, Without(keys, k)) {
      assert Owned(d, keys);
      var o :| o in keys && Belongs(d, o);
      assert o in Without(keys, k);
    }
  }

  /** On a tracked store a stored value's key is tracked. */
  lemma StoredIsTracked(stored: map<Key, Flat>, keys: seq<Key>, k: Key)
    requires Tracked(stored, keys) && (forall x :: x in keys ==> Clean(x)) && Clean(k) && Full(k) in stored
    ensures k in keys
  {
    assert Owned(Full(k), keys);
    var o :| o in keys && Belongs(Full(k), o);
    StoredNames(k, o);
  }

  class TTLCache {
    const maxsize: nat
    const ttl: real
    const backend: MemoryCacheAdapter
    var keys: seq<Key>
    var hits: nat
    var misses: nat
    var evictions: nat
    /** When each tracked key was last hit or written, counted in uses. */
    ghost var used: map<Key, nat>
    ghost var uses: nat

    /** The bookkeeping, for a cache that is bounded. */
    ghost predicate ValidKeys()
      reads this
    {
      && Ranked(keys, used)
      && (forall k :: k in keys ==> Clean(k) && used[k] < uses)
      && |keys| <= maxsize
    }

    ghost predicate Valid()
      reads this, backend
    {
      && backend.Valid()
      && ValidKeys()
      && (maxsize > 0 ==> Tracked(backend.View(), keys))
    }

    constructor (maxsize: nat, ttl: real)
      ensures Valid() && this.maxsize == maxsize && this.ttl == ttl && fresh(backend)
      ensures keys == [] && backend.View() == map[]
    {
      this.maxsize, this.ttl := maxsize, ttl;
      backend := new MemoryCacheAdapter();
      keys, hits, misses, evictions := [], 0, 0, 0;
      used, uses := map[], 0;
    }

    /** Make `key` the most recently used. */
    method Promote(key: Key)
      requires Ranked(keys, used) && (forall k :: k in keys ==> Clean(k) && used[k] < uses) && Clean(key)
      modifies `keys, `used, `uses
      ensures keys == Without(old(keys), key) + [key]
      ensures Ranked(keys, used) && forall k :: k in keys ==> Clean(k) && used[k] < uses
    {
      WithoutKeepsOrder(keys, key, used);
      keys := Without(keys, key) + [key];
      ghost var before := used;
      used := used[key := uses];
      uses := uses + 1;
      assert forall k :: k in Without(old(keys), key) ==> used[k] == before[k];
    }

    /** The victim is the key used longest ago; its value, reserve and early-refresh entry go with it. */
    method Evict() returns (ghost victim: Key)
      requires backend.Valid() && ValidKeys() && keys != []
      modifies `keys, `evictions, backend
      ensures backend.Valid() && ValidKeys()
      ensures victim == old(keys)[0] && keys == old(keys)[1..] && evictions == old(evictions) + 1
      ensures forall k :: k in old(keys) ==> used[victim] <= used[k]
      ensures backend.View() == old(backend.View()) - {Full(victim), Stale(victim), XFetch(victim)}
    {
      var lru := keys[0];
      victim := lru;
      keys := keys[1..];
      assert old(keys) == [lru] + keys;
      backend.DeleteMany([Full(lru), Stale(lru), XFetch(lru)]);
      assert Range([Full(lru), Stale(lru), XFetch(lru)]) == {Full(lru), Stale(lru), XFetch(lru)};
      evictions := evictions + 1;
    }

    /** Evict until one more key fits, unless `key` is tracked already. */
    method MakeRoom(key: Key)
      requires Valid() && maxsize > 0
      modifies `keys, `evictions, backend
      ensures Valid() && (key in keys || |keys| < maxsize)
      ensures keys == old(keys)[Overflow(old(keys), key, maxsize)..]
      ensures backend.View() == Roomed(old(backend.View()), old(keys), key, maxsize)
      ensures evictions == old(evictions) + Overflow(old(keys), key, maxsize)
    {
      if key !in keys {
        while |keys| >= maxsize
          invariant Valid() && key !in keys
          invariant evictions == old(evictions) + |old(keys)| - |keys|
          invariant || (keys == old(keys) && backend.View() == old(backend.View()))
                    || (|old(keys)| >= maxsize && keys == old(keys)[1..] && |keys| < maxsize
                        && backend.View() == Roomed(old(backend.View()), old(keys), key, maxsize))
        {
          ghost var k0, v0 := keys, backend.View();
          ghost var victim := Evict();
          FirstIsGone(k0, used);
          TrackedShrinks(v0, k0, backend.View(), victim);
        }
      }
    }

    /** Count one lookup of `key`, promoting it on a hit. */
    method Count(key: Key, hit: bool)
      requires Valid() && Clean(key) && (hit ==> Full(key) in backend.View())
      modifies this
      ensures Valid() && backend.View() == old(backend.View())
      ensures keys == (if hit && maxsize > 0 then Without(old(keys), key) + [key] else old(keys))
      ensures hits == old(hits) + (if hit then 1 else 0) && misses == old(misses) + (if hit then 0 else 1)
      ensures evictions == old(evictions)
    {
      if !hit {
        misses := misses + 1;
        return;
      }
      hits := hits + 1;
      if maxsize > 0 {
        StoredIsTracked(backend.View(), keys, key);
        ghost var k0 := keys;
        Promote(key);
        SameMembers(backend.View(), k0, key);
      }
    }

    /** A hit promotes; a miss forgets a lapsed value. */
    method Get(key: Key, now: real) returns (r: Option<Value>)
      requires Valid() && Clean(key)
      modifies this, backend
      ensures Valid()
      ensures backend.View() == Lapse(old(backend.View()), {Full(key)}, now)
      ensures r == (if Full(key) in backend.View() then Some(backend.View()[Full(key)].value) else None)
      ensures r.Some? <==> Full(key) in old(backend.View()) && now < old(backend.View())[Full(key)].expiry
      ensures keys == (if r.Some? && maxsize > 0 then Without(old(keys), key) + [key] else old(keys))
      ensures hits + misses == old(hits) + old(misses) + 1 && (r.Some? <==> hits == old(hits) + 1)
      ensures evictions == old(evictions)
    {
      ghost var v0 := backend.View();
      r := backend.Get(Full(key), now);
      TrackedSubset(v0, keys, backend.View());
      Count(key, r.Some?);
    }

    /** A non-positive time to live is an error and changes nothing; else room is made, then it is stored. */
    method Set(key: Key, value: Value, ttlOverride: Option<real>, tags: seq<Tag>, staleTtl: Option<real>, now: real)
      returns (ok: bool)
      requires Valid() && Clean(key)
      modifies this, backend
      ensures Valid()
      ensures ok <==> !(ttlOverride.Some? && ttlOverride.value <= 0.0) && !(staleTtl.Some? && staleTtl.value <= 0.0)
      ensures !ok ==> keys == old(keys) && backend.View() == old(backend.View())
      ensures ok ==>
                var life := if ttlOverride.Some? then ttlOverride.value else ttl;
                backend.View() == Written(Roomed(old(backend.View()), old(keys), key, maxsize), key, value, now + life,
                                          if staleTtl.Some? then Some(now + (life + staleTtl.value)) else None, Range(tags))
      ensures ok && maxsize > 0 ==>
                keys == Admitted(old(keys), key, maxsize)
      ensures ok ==> evictions == old(evictions) + Overflow(old(keys), key, maxsize)
      ensures !ok ==> evictions == old(evictions)
      ensures hits == old(hits) && misses == old(misses)
    {
      if (ttlOverride.Some? && ttlOverride.value <= 0.0) || (staleTtl.Some? && staleTtl.value <= 0.0) {
        return false;
      }
      if maxsize > 0 {
        MakeRoom(key);
      }
      Write(key, value, if ttlOverride.Some? then ttlOverride.value else ttl, tags, staleTtl, now);
      ok := true;
    }

    /** Store the value and, when asked for, its stale reserve; then promote. */
    method Write(key: Key, value: Value, life: real, tags: seq<Tag>, staleTtl: Option<real>, now: real)
      requires Valid() && Clean(key) && (maxsize > 0 ==> key in keys || |keys| < maxsize)
      modifies this, backend
      ensures Valid()
      ensures backend.View() == Written(old(backend.View()), key, value, now + life,
                                        if staleTtl.Some? then Some(now + (life + staleTtl.value)) else None, Range(tags))
      ensures keys == (if maxsize > 0 then Without(old(keys), key) + [key] else old(keys))
      ensures evictions == old(evictions) && hits == old(hits) && misses == old(misses)
    {
      ghost var staleExpiry := if staleTtl.Some? then Some(now + (life + staleTtl.value)) else None;
      if maxsize > 0 {
        WrittenIsTracked(backend.View(), keys, key, value, now + life, staleExpiry, Range(tags));
      }
      Store(key, value, life, tags, staleTtl, now);
      if maxsize > 0 {
        Promote(key);
      }
    }

    method Store(key: Key, value: Value, life: real, tags: seq<Tag>, staleTtl: Option<real>, now: real)
      requires backend.Valid()
      modifies backend
      ensures backend.Valid()
      ensures backend.View() == Written(old(backend.View()), key, value, now + life,
                                        if staleTtl.Some? then Some(now + (life + staleTtl.value)) else None, Range(tags))
    {
      backend.Set(Full(key), value, life, tags, now);
      if staleTtl.Some? {
        backend.Set(Stale(key), value, life + staleTtl.value, tags, now);
      }
    }

    /** Make room for a key and track it, before anything is stored. */
    method TrackOne(key: Key)
      requires Valid() && maxsize > 0 && Clean(key)
      modifies `keys, `used, `uses, `evictions, backend
      ensures Valid()
      ensures keys == Admitted(old(keys), key, maxsize)
      ensures backend.View() == Roomed(old(backend.View()), old(keys), key, maxsize)
    {
      MakeRoom(key);
      TrackedGrows(backend.View(), keys, backend.View(), {key}, Without(keys, key) + [key]);
      Promote(key);
    }

    /** Track a batch, key by key. */
    method TrackAll(batch: seq<Key>)
      requires Valid() && maxsize > 0 && Distinct(batch) && forall k :: k in batch ==> Clean(k)
      modifies `keys, `used, `uses, `evictions, backend
      ensures Valid()
      ensures keys == AllAdmitted(old(keys), batch, maxsize)
      ensures backend.View() == AllRoomed(old(backend.View()), old(keys), batch, maxsize)
    {
      for i := 0 to |batch|
        invariant Valid()
        invariant keys == AllAdmitted(old(keys), batch[..i], maxsize)
        invariant backend.View() == AllRoomed(old(backend.View()), old(keys), batch[..i], maxsize)
      {
        assert batch[..i + 1][..i] == batch[..i];
        TrackOne(batch[i]);
      }
      assert batch[..|batch|] == batch;
    }

    /**
     A batch write. Everything stored afterwards belongs to a tracked key exactly when the batch
     fits the cache; a larger batch pushes its own first keys out of the bookkeeping, yet stores
     them.
     */
    method SetMany(batch: seq<Key>, values: map<Key, Value>, ttlOverride: Option<real>, tags: seq<Tag>, now: real)
      returns (ok: bool)
      requires Valid() && Distinct(batch) && forall k :: k in batch ==> Clean(k) && k in values
      modifies this, backend
      ensures ok <==> !(ttlOverride.Some? && ttlOverride.value <= 0.0)
      ensures backend.Valid() && ValidKeys()
      ensures !ok ==> Valid() && keys == old(keys) && backend.View() == old(backend.View())
      ensures ok ==>
                var life := if ttlOverride.Some? then ttlOverride.value else ttl;
                Batched(old(backend.View()), old(keys), backend.View(), keys, batch, values, now + life, Range(tags), maxsize)
    {
      ok := !(ttlOverride.Some? && ttlOverride.value <= 0.0);
      if ok {
        WriteAny(batch, values, if ttlOverride.Some? then ttlOverride.value else ttl, tags, now);
      }
    }

    /** An empty batch writes nothing. */
    method WriteAny(batch: seq<Key>, values: map<Key, Value>, life: real, tags: seq<Tag>, now: real)
      requires Valid() && Distinct(batch) && forall k :: k in batch ==> Clean(k) && k in values
      modifies this, backend
      ensures backend.Valid() && ValidKeys()
      ensures Batched(old(backend.View()), old(keys), backend.View(), keys, batch, values, now + life, Range(tags), maxsize)
    {
      if batch == [] {
        EmptyBatch(backend.View(), keys, batch, values, now + life, Range(tags), maxsize);
      } else {
        WriteBatch(batch, values, life, tags, now);
      }
    }

    /** Let the keys of the batch in, then store it. */
    method WriteBatch(batch: seq<Key>, values: map<Key, Value>, life: real, tags: seq<Tag>, now: real)
      requires Valid() && Distinct(batch) && forall k :: k in batch ==> Clean(k) && k in values
      modifies this, backend
      ensures backend.Valid() && ValidKeys()
      ensures Batched(old(backend.View()), old(keys), backend.View(), keys, batch, values, now + life, Range(tags), maxsize)
    {
      if maxsize > 0 {
        if |batch| <= maxsize {
          BatchEndsUp(keys, batch, maxsize);
        }
        TrackAll(batch);
      } else {
        NoRoomNeeded(backend.View(), keys, batch);
      }
      StoreMany(batch, values, life, tags, now);
    }

    /** Store a batch whose keys have been let in. */
    method StoreMany(batch: seq<Key>, values: map<Key, Value>, life: real, tags: seq<Tag>, now: real)
      requires Valid() && Distinct(batch) && forall k :: k in batch ==> Clean(k) && k in values
      requires |batch| <= maxsize ==> EndsWith(keys, batch)
      modifies backend
      ensures backend.Valid()
      ensures var items := Items(batch, values);
              backend.View() == old(backend.View()) + Batch(items, items.Keys, now + life, Range(tags))
      ensures maxsize > 0 ==> (Tracked(backend.View(), keys) <==> |batch| <= maxsize)
    {
      var items := Items(batch, values);
      ghost var v := backend.View();
      backend.SetMany(items, life, tags, now);
      if maxsize > 0 {
        if |batch| <= maxsize {
          BatchIsTracked(v, keys, backend.View(), batch);
        } else {
          assert forall k :: k in batch ==> Full(k) in items;
          LargeBatchEscapes(backend.View(), keys, batch);
        }
      }
    }

    /** Values and reserves of the keys go, and so does their bookkeeping. */
    method DeleteMany(gone: seq<Key>)
      requires Valid() && forall k :: k in gone ==> Clean(k)
      modifies this, backend
      ensures Valid()
      ensures forall d :: d in backend.View() <==> d in old(backend.View()) && forall k :: k in gone ==> !Belongs(d, k)
      ensures forall d :: d in backend.View() ==> backend.View()[d] == old(backend.View())[d]
      ensures keys == AllWithout(old(keys), gone)
    {
      ghost var v0, k0 := backend.View(), keys;
      backend.DeleteMany(Names(gone));
      Forget(gone);
      forall d ensures d in backend.View() <==> d in v0 && forall k :: k in gone ==> !Belongs(d, k) {
        NamesRange(gone, d);
      }
      if maxsize > 0 {
        TrackedAfterDelete(v0, k0, backend.View(), keys, gone);
      }
    }

    /** The loop over the keys of the batch. */
    method Forget(gone: seq<Key>)
      requires ValidKeys()
      modifies `keys
      ensures ValidKeys() && keys == AllWithout(old(keys), gone)
      ensures forall k :: k in keys <==> k in old(keys) && k !in gone
    {
      for i := 0 to |gone|
        invariant ValidKeys() && keys == AllWithout(old(keys), gone[..i])
        invariant forall k :: k in keys <==> k in old(keys) && k !in gone[..i]
      {
        assert gone[..i + 1][..i] == gone[..i];
        WithoutKeepsOrder(keys, gone[i], used);
        keys := Without(keys, gone[i]);
      }
      assert gone[..|gone|] == gone;
    }

    method Clear()
      requires Valid()
      modifies this, backend
      ensures Valid() && keys == [] && backend.View() == map[]
    {
      backend.Clear();
      keys := [];
    }

    method GetMany(asked: seq<Key>, now: real) returns (found: map<Key, Value>)
      requires Valid() && forall k :: k in asked ==> Clean(k)
      modifies this, backend
      ensures Valid()
      ensures backend.View() == Lapse(old(backend.View()), Range(FullNames(asked)), now)
      ensures found == Answers(backend.View(), Range(asked))
      ensures keys == (if maxsize > 0 then Promoted(old(keys), asked, backend.View()) else old(keys))
      ensures hits == old(hits) + Hits(asked, backend.View())
      ensures hits + misses == old(hits) + old(misses) + |asked| && evictions == old(evictions)
    {
      ghost var v0 := backend.View();
      var raw := backend.GetMany(FullNames(asked), now);
      TrackedSubset(v0, keys, backend.View());
      found := CountAll(asked, raw);
    }

    /** The loop over the answers of the backend. */
    method CountAll(asked: seq<Key>, raw: map<Key, Value>) returns (found: map<Key, Value>)
      requires Valid() && forall k :: k in asked ==> Clean(k)
      requires raw == Found(backend.View(), Range(FullNames(asked)))
      modifies this
      ensures Valid() && backend.View() == old(backend.View()) && found == Answers(backend.View(), Range(asked))
      ensures keys == (if maxsize > 0 then Promoted(old(keys), asked, backend.View()) else old(keys))
      ensures hits == old(hits) + Hits(asked, backend.View())
      ensures hits + misses == old(hits) + old(misses) + |asked| && evictions == old(evictions)
    {
      found := map[];
      ghost var v, done: set<Key> := backend.View(), {};
      for i := 0 to |asked|
        invariant Valid() && backend.View() == v && evictions == old(evictions)
        invariant done == Range(asked[..i]) && found == Answers(v, done)
        invariant keys == (if maxsize > 0 then Promoted(old(keys), asked[..i], v) else old(keys))
        invariant hits == old(hits) + Hits(asked[..i], v)
        invariant hits + misses == old(hits) + old(misses) + i
      {
        var key := asked[i];
        PromotedNext(old(keys), asked, i, v);
        assert Full(key) in raw <==> Full(key) in v by {
          FullNamesAt(asked, i);
        }
        AnswersGrow(v, done, key);
        if Full(key) in raw {
          found := found[key := raw[Full(key)]];
        }
        done := done + {key};
        RangeGrows(asked, i);
        Count(key, Full(key) in raw);
      }
      assert asked[..|asked|] == asked;
    }
  }

  /** The keys after each stored one among `asked` was promoted in turn. */
  function Promoted(keys: seq<Key>, asked: seq<Key>, stored: map<Key, Flat>): seq<Key> {
    if asked == [] then keys
    else
      var before, last := Promoted(keys, asked[..|asked| - 1], stored), asked[|asked| - 1];
      if Full(last) in stored then Without(before, last) + [last] else before
  }

  function Hits(asked: seq<Key>, stored: map<Key, Flat>): nat {
    if asked == [] then 0
    else Hits(asked[..|asked| - 1], stored) + (if Full(asked[|asked| - 1]) in stored then 1 else 0)
  }

  lemma PromotedNext(keys: seq<Key>, asked: seq<Key>, i: nat, stored: map<Key, Flat>)
    requires i < |asked|
    ensures var before, hit := Promoted(keys, asked[..i], stored), Full(asked[i]) in stored;
            && Promoted(keys, asked[..i + 1], stored) == (if hit then Without(before, asked[i]) + [asked[i]] else before)
            && Hits(asked[..i + 1], stored) == Hits(asked[..i], stored) + (if hit then 1 else 0)
  {
    assert asked[..i + 1][..i] == asked[..i];
  }

  lemma RangeGrows(s: seq<Key>, i: nat)
    requires i < |s|
    ensures Range(s[..i + 1]) == Range(s[..i]) + {s[i]}
  {
  }

  /** What a batch read answers, by caller key. */
  function Answers(stored: map<Key, Flat>, asked: set<Key>): map<Key, Value> {
    map k | k in asked && Full(k) in stored :: stored[Full(k)].value
  }

  lemma AnswersGrow(stored: map<Key, Flat>, asked: set<Key>, k: Key)
    ensures Answers(stored, asked + {k})
            == (if Full(k) in stored then Answers(stored, asked)[k := stored[Full(k)].value] else Answers(stored, asked))
  {
  }

  /** Writing `key` keeps the store tracked once `key` is promoted. */
  lemma WrittenIsTracked(stored: map<Key, Flat>, keys: seq<Key>, key: Key, value: Value, expiry: real,
                         staleExpiry: Option<real>, tags: set<Tag>)
    requires Tracked(stored, keys)
    ensures Tracked(Written(stored, key, value, expiry, staleExpiry, tags), Without(keys, key) + [key])
  {
    assert Belongs(Full(key), key) && Belongs(Stale(key), key);
    TrackedGrows(stored, keys, Written(stored, key, value, expiry, staleExpiry, tags), {key}, Without(keys, key) + [key]);
  }

  predicate EndsWith(s: seq<Key>, end: seq<Key>) { |end| <= |s| && s[|s| - |end|..] == end }

  lemma {:induction false} WithoutConcat(a: seq<Key>, b: seq<Key>, k: Key)
    ensures Without(a + b, k) == Without(a, k) + Without(b, k)
  {
    if a == [] {
      assert a + b == b;
    } else {
      assert (a + b)[1..] == a[1..] + b;
      WithoutConcat(a[1..], b, k);
    }
  }

  /** Making room for and promoting a further key leaves the most recent ones, followed by it. */
  lemma EndStays(keys: seq<Key>, n: nat, key: Key, end: seq<Key>)
    requires EndsWith(keys, end) && key !in end && n + |end| <= |keys|
    ensures EndsWith(Without(keys[n..], key) + [key], end + [key])
  {
    var rest := keys[n..|keys| - |end|];
    assert keys[n..] == rest + end;
    WithoutConcat(rest, end, key);
    AppendKeepsEnd(Without(rest, key), end, key);
  }

  lemma AppendKeepsEnd(rest: seq<Key>, end: seq<Key>, key: Key)
    ensures EndsWith(rest + end + [key], end + [key])
  {
    assert rest + end + [key] == rest + (end + [key]);
  }

  lemma TrackedBatchGrows(keys: seq<Key>, batch: seq<Key>, i: nat, maxsize: nat)
    requires i < |batch| && i < maxsize && |keys| <= maxsize && Distinct(batch) && EndsWith(keys, batch[..i])
    ensures EndsWith(Admitted(keys, batch[i], maxsize), batch[..i + 1]) && |Admitted(keys, batch[i], maxsize)| <= maxsize
  {
    assert batch[i] !in batch[..i];
    EndStays(keys, Overflow(keys, batch[i], maxsize), batch[i], batch[..i]);
    assert batch[..i + 1] == batch[..i] + [batch[i]];
  }

  /** A batch that fits ends up as the newest keys, in its own order. */
  lemma {:induction false} BatchEndsUp(keys: seq<Key>, batch: seq<Key>, maxsize: nat)
    requires |keys| <= maxsize && |batch| <= maxsize && Distinct(batch)
    ensures EndsWith(AllAdmitted(keys, batch, maxsize), batch) && |AllAdmitted(keys, batch, maxsize)| <= maxsize
  {
    if batch != [] {
      var n := |batch| - 1;
      BatchEndsUp(keys, batch[..n], maxsize);
      var before := AllAdmitted(keys, batch[..n], maxsize);
      TrackedBatchGrows(before, batch, n, maxsize);
      assert batch[..n + 1] == batch;
      assert AllAdmitted(keys, batch, maxsize) == Admitted(before, batch[n], maxsize);
    }
  }

  /** The batch under its storage names. */
  function Items(batch: seq<Key>, values: map<Key, Value>): (r: map<Key, Value>)
    requires forall k :: k in batch ==> k in values && Clean(k)
    ensures forall d :: d in r <==> exists k :: k in batch && d == Full(k)
    ensures forall k :: k in batch ==> r[Full(k)] == values[k]
  {
    if batch == [] then map[]
    else
      var k := batch[|batch| - 1];
      var rest := Items(batch[..|batch| - 1], values);
      assert batch == batch[..|batch| - 1] + [k];
      assert forall j :: j in batch && j != k ==> j in batch[..|batch| - 1] && Full(j) != Full(k) by {
        forall j | j in batch && j != k ensures Full(j) != Full(k) {
          StoredNames(j, k);
        }
      }
      rest[Full(k) := values[k]]
  }

  /** The store after making room for a batch and writing it. */
  function AfterBatch(stored: map<Key, Flat>, keys: seq<Key>, batch: seq<Key>, values: map<Key, Value>,
                      expiry: real, tags: set<Tag>, maxsize: nat): map<Key, Flat>
    requires forall k :: k in batch ==> k in values && Clean(k)
  {
    var items := Items(batch, values);
    AllRoomed(stored, keys, batch, maxsize) + Batch(items, items.Keys, expiry, tags)
  }

  /** The store and the keys before and after a batch; everything stored is tracked exactly when it fits. */
  ghost predicate Batched(before: map<Key, Flat>, keys: seq<Key>, after: map<Key, Flat>, keys': seq<Key>, batch: seq<Key>,
                          values: map<Key, Value>, expiry: real, tags: set<Tag>, maxsize: nat)
    requires forall k :: k in batch ==> k in values && Clean(k)
  {
    && after == AfterBatch(before, keys, batch, values, expiry, tags, maxsize)
    && keys' == (if maxsize > 0 then AllAdmitted(keys, batch, maxsize) else keys)
    && (maxsize > 0 ==> (Tracked(after, keys') <==> |batch| <= maxsize))
    && (|batch| <= maxsize ==> EndsWith(keys', batch))
  }

  lemma EmptyBatch(stored: map<Key, Flat>, keys: seq<Key>, batch: seq<Key>, values: map<Key, Value>, expiry: real,
                   tags: set<Tag>, maxsize: nat)
    requires batch == []
    ensures AfterBatch(stored, keys, batch, values, expiry, tags, maxsize) == stored
    ensures AllAdmitted(keys, batch, maxsize) == keys && EndsWith(keys, batch)
  {
  }

  lemma BatchIsTracked(stored: map<Key, Flat>, keys: seq<Key>, larger: map<Key, Flat>, batch: seq<Key>)
    requires Tracked(stored, keys) && EndsWith(keys, batch)
    requires forall d :: d in larger && d !in stored ==> exists k :: k in batch && d == Full(k)
    ensures Tracked(larger, keys)
  {
    forall d | d in larger && d !in stored ensures exists k :: k in Range(batch) && Belongs(d, k) {
      var k :| k in batch && d == Full(k);
      assert k in Range(batch) && Belongs(d, k);
    }
    forall k | k in batch ensures k in keys {
      assert k in keys[|keys| - |batch|..];
    }
    TrackedGrows(stored, keys, larger, Range(batch), keys);
  }

  lemma LargeBatchEscapes(stored: map<Key, Flat>, keys: seq<Key>, batch: seq<Key>)
    requires |keys| < |batch| && Distinct(batch)
    requires (forall k :: k in keys ==> Clean(k)) && forall k :: k in batch ==> Clean(k) && Full(k) in stored
    ensures !Tracked(stored, keys)
  {
    if Tracked(stored, keys) {
      forall k | k in batch ensures k in keys {
        StoredIsTracked(stored, keys, k);
      }
      DistinctSize(batch);
      SubsetSize(Range(batch), Range(keys));
      RangeSize(keys);
      assert false;
    }
  }

  lemma {:induction false} RangeSize(s: seq<Key>)
    ensures |Range(s)| <= |s|
  {
    if s != [] {
      RangeSize(s[..|s| - 1]);
      assert Range(s) == Range(s[..|s| - 1]) + {s[|s| - 1]};
    }
  }

  /** How many of the oldest keys a write of `key` pushes out. */
  function Overflow(keys: seq<Key>, key: Key, maxsize: nat): (n: nat)
    ensures n <= |keys|
  {
    if maxsize == 0 || key in keys || |keys| < maxsize then 0 else 1
  }

  /** The store after making room for `key`. */
  function Roomed(stored: map<Key, Flat>, keys: seq<Key>, key: Key, maxsize: nat): map<Key, Flat> {
    if Overflow(keys, key, maxsize) == 0 then stored
    else stored - {Full(keys[0]), Stale(keys[0]), XFetch(keys[0])}
  }

  /** The tracked keys once `key` has been let in as the newest. */
  function Admitted(keys: seq<Key>, key: Key, maxsize: nat): seq<Key> {
    Without(keys[Overflow(keys, key, maxsize)..], key) + [key]
  }

  function AllAdmitted(keys: seq<Key>, batch: seq<Key>, maxsize: nat): seq<Key> {
    if batch == [] then keys
    else Admitted(AllAdmitted(keys, batch[..|batch| - 1], maxsize), batch[|batch| - 1], maxsize)
  }

  /** The store after making room for a batch, key by key. */
  function AllRoomed(stored: map<Key, Flat>, keys: seq<Key>, batch: seq<Key>, maxsize: nat): map<Key, Flat> {
    if batch == [] then stored
    else
      var init := batch[..|batch| - 1];
      Roomed(AllRoomed(stored, keys, init, maxsize), AllAdmitted(keys, init, maxsize), batch[|batch| - 1], maxsize)
  }

  lemma {:induction false} NoRoomNeeded(stored: map<Key, Flat>, keys: seq<Key>, batch: seq<Key>)
    ensures AllRoomed(stored, keys, batch, 0) == stored
  {
    if batch != [] {
      NoRoomNeeded(stored, keys, batch[..|batch| - 1]);
    }
  }

  /** The store after writing a value and perhaps a stale reserve of `key`. */
  function Written(stored: map<Key, Flat>, key: Key, value: Value, expiry: real, staleExpiry: Option<real>,
                   tags: set<Tag>): map<Key, Flat>
  {
    var v := stored[Full(key) := Flat(value, expiry, tags)];
    if staleExpiry.Some? then v[Stale(key) := Flat(value, staleExpiry.value, tags)] else v
  }

  /** A key that is not tracked needs room when the cache is full. */
  predicate NeedsRoom(keys: seq<Key>, key: Key, maxsize: nat) { maxsize > 0 && key !in keys && |keys| >= maxsize }

  /**
   After a write the value, and its reserve when asked for, stand under the key until their expiry.
   Everything else stays, but for the key used longest ago when a further one needs room.
   */
  lemma StoreAfterSet(stored: map<Key, Flat>, keys: seq<Key>, key: Key, value: Value, expiry: real,
                      staleExpiry: Option<real>, tags: set<Tag>, maxsize: nat)
    ensures var w := Written(Roomed(stored, keys, key, maxsize), key, value, expiry, staleExpiry, tags);
            && Full(key) in w && w[Full(key)] == Flat(value, expiry, tags)
            && (staleExpiry.Some? ==> Stale(key) in w && w[Stale(key)] == Flat(value, staleExpiry.value, tags))
            && forall d :: d != Full(key) && (d == Stale(key) ==> staleExpiry.None?) ==>
                (d in w <==> d in stored && !(NeedsRoom(keys, key, maxsize) && Named(d, keys[0])))
                && (d in w ==> w[d] == stored[d])
  {
    assert |Stale(key)| == |Full(key)| + 3;
  }

  /** An entry of `k`: its value, its reserve or its early-refresh record. */
  predicate Named(d: Key, k: Key) { Belongs(d, k) || d == XFetch(k) }

  /** The written key is the newest; the others keep their order, and only a full cache loses its oldest. */
  lemma KeysAfterSet(keys: seq<Key>, key: Key, maxsize: nat)
    requires maxsize > 0 && |keys| <= maxsize && Distinct(keys)
    ensures var after := Admitted(keys, key, maxsize);
            && after[|after| - 1] == key && Distinct(after) && |after| <= maxsize
            && (if key in keys then after[..|after| - 1] == Without(keys, key)
                else after == keys[if |keys| == maxsize then 1 else 0..] + [key])
  {
  }

  function FullNames(ks: seq<Key>): (r: seq<Key>)
    ensures |r| == |ks| && forall i :: 0 <= i < |ks| ==> r[i] == Full(ks[i])
  {
    seq(|ks|, i requires 0 <= i < |ks| => Full(ks[i]))
  }

  function Names(ks: seq<Key>): seq<Key> {
    FullNames(ks) + seq(|ks|, i requires 0 <= i < |ks| => Stale(ks[i]))
  }

  lemma FullNamesAt(ks: seq<Key>, i: nat)
    requires i < |ks|
    ensures Full(ks[i]) in Range(FullNames(ks))
  {
    assert FullNames(ks)[i] == Full(ks[i]);
  }

  lemma NamesRange(ks: seq<Key>, d: Key)
    ensures d in Range(Names(ks)) <==> exists k :: k in ks && Belongs(d, k)
  {
    var n := Names(ks);
    if d in Range(n) {
      var i :| 0 <= i < |n| && n[i] == d;
      assert Belongs(d, ks[if i < |ks| then i else i - |ks|]);
    }
    if k :| k in ks && Belongs(d, k) {
      var i :| 0 <= i < |ks| && ks[i] == k;
      assert n[i] == Full(k) && n[|ks| + i] == Stale(k);
    }
  }

  lemma FirstIsGone(keys: seq<Key>, used: map<Key, nat>)
    requires Ranked(keys, used) && keys != []
    ensures Without(keys, keys[0]) == keys[1..]
  {
    assert keys[0] !in keys[1..];
  }

  lemma TrackedSubset(stored: map<Key, Flat>, keys: seq<Key>, smaller: map<Key, Flat>)
    requires smaller.Keys <= stored.Keys
    ensures Tracked(stored, keys) ==> Tracked(smaller, keys)
  {
  }

  /** Promoting a tracked key keeps the tracked set and its size. */
  lemma SameMembers(stored: map<Key, Flat>, keys: seq<Key>, k: Key)
    requires k in keys && Tracked(stored, keys)
    ensures |Without(keys, k) + [k]| <= |keys|
    ensures Tracked(stored, Without(keys, k) + [k])
  {
    TrackedGrows(stored, keys, stored, {k}, Without(keys, k) + [k]);
  }

  /** Storing entries of `added` keys and tracking those keys keeps the store tracked. */
  lemma TrackedGrows(stored: map<Key, Flat>, keys: seq<Key>, larger: map<Key, Flat>, added: set<Key>, more: seq<Key>)
    requires Tracked(stored, keys)
    requires forall d :: d in larger && d !in stored ==> exists k :: k in added && Belongs(d, k)
    requires forall k :: k in keys || k in added ==> k in more
    ensures Tracked(larger, more)
  {
    forall d | d in larger ensures Owned(d, more) {
      if d in stored {
        assert Owned(d, keys);
      }
    }
  }

  lemma TrackedAfterDelete(stored: map<Key, Flat>, keys: seq<Key>, smaller: map<Key, Flat>, rest: seq<Key>, gone: seq<Key>)
    requires Tracked(stored, keys) && smaller == stored - Range(Names(gone))
    requires forall k :: k in rest <==> k in keys && k !in gone
    ensures Tracked(smaller, rest)
  {
    forall d | d in smaller ensures Owned(d, rest) {
      assert Owned(d, keys);
      var k :| k in keys && Belongs(d, k);
      NamesRange(gone, d);
      assert k in rest;
    }
  }
}
