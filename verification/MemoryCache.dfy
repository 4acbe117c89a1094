/**
 The in-memory cache backend: a value dictionary and two tag dictionaries that together stand for
 one flat map from keys to value, expiry and tags.
 */
module MemoryCache {
  import opened Options

  type Key = string
  type Tag = string
  type Value = string

  datatype Entry = Entry(value: Value, expiry: real)

  /** What the three dictionaries say about one key. */
  datatype Flat = Flat(value: Value, expiry: real, tags: set<Tag>)

  function Members(tagKeys: map<Tag, set<Key>>, t: Tag): set<Key> { if t in tagKeys then tagKeys[t] else {} }

  function TagsOf(keyTags: map<Key, set<Tag>>, k: Key): set<Tag> { if k in keyTags then keyTags[k] else {} }

  /** No stored set is empty. */
  ghost predicate Pruned<X(!new), Y>(m: map<X, set<Y>>) { forall x :: x in m ==> m[x] != {} }

  /** The forward and the reverse map are exact inverses. */
  ghost predicate Inverse(tagKeys: map<Tag, set<Key>>, keyTags: map<Key, set<Tag>>) {
    forall k, t :: Agree(tagKeys, keyTags, k, t)
  }

  predicate Agree(tagKeys: map<Tag, set<Key>>, keyTags: map<Key, set<Tag>>, k: Key, t: Tag) {
    k in Members(tagKeys, t) <==> t in TagsOf(keyTags, k)
  }

  function FlatOf(data: map<Key, Entry>, keyTags: map<Key, set<Tag>>): map<Key, Flat> {
    map k | k in data :: Flat(data[k].value, data[k].expiry, TagsOf(keyTags, k))
  }

  function Range(s: seq<string>): set<string> { set x | x in s }

  /** The flat entries a batch write leaves for `keys`. */
  function Batch(items: map<Key, Value>, keys: set<Key>, expiry: real, tags: set<Tag>): map<Key, Flat> {
    map k | k in items && k in keys :: Flat(items[k], expiry, tags)
  }

  predicate Expired(f: Flat, now: real) { now >= f.expiry }

  /** The flat map without those of `keys` that have lapsed. */
  function Lapse(m: map<Key, Flat>, keys: set<Key>, now: real): map<Key, Flat> {
    map k | k in m && !(k in keys && Expired(m[k], now)) :: m[k]
  }

  lemma BatchEmpty(m: map<Key, Flat>, items: map<Key, Value>, expiry: real, tags: set<Tag>)
    ensures m + Batch(items, {}, expiry, tags) == m
  {
  }

  lemma BatchGrows(m: map<Key, Flat>, items: map<Key, Value>, keys: set<Key>, key: Key, expiry: real, tags: set<Tag>)
    requires key in items
    ensures (m + Batch(items, keys, expiry, tags))[key := Flat(items[key], expiry, tags)]
            == m + Batch(items, keys + {key}, expiry, tags)
  {
  }

  /** What a batch read answers for `keys`. */
  function Found(m: map<Key, Flat>, keys: set<Key>): map<Key, Value> {
    map k | k in m && k in keys :: m[k].value
  }

  lemma LapseGrows(m: map<Key, Flat>, keys: set<Key>, key: Key, now: real)
    ensures var m0, m1 := Lapse(m, keys, now), Lapse(m, keys + {key}, now);
            && Lapse(m0, {key}, now) == m1
            && Found(m1, keys + {key}) == (if key in m1 then Found(m0, keys)[key := m1[key].value] else Found(m0, keys))
  {
  }

  /** A value that was set is read back until its time to live is over, and from then on it is a miss. */
  lemma ReadAfterSet(m: map<Key, Flat>, key: Key, value: Value, ttl: real, tags: set<Tag>, written: real, read: real)
    ensures var left := Lapse(m[key := Flat(value, written + ttl, tags)], {key}, read);
            if read < written + ttl then Found(left, {key}) == map[key := value] else key !in left
  {
  }

  class MemoryCacheAdapter {
    var data: map<Key, Entry>
    var tagKeys: map<Tag, set<Key>>
    var keyTags: map<Key, set<Tag>>

    ghost predicate Valid()
      reads this
    {
      && keyTags.Keys <= data.Keys
      && Pruned(tagKeys) && Pruned(keyTags)
      && Inverse(tagKeys, keyTags)
    }

    ghost function View(): map<Key, Flat>
      reads this
    {
      FlatOf(data, keyTags)
    }

    constructor ()
      ensures Valid() && View() == map[]
    {
      data, tagKeys, keyTags := map[], map[], map[];
    }

    /** Drop `key` from each given tag's set, deleting sets that become empty. */
    method RemoveFromTags(key: Key, tags: set<Tag>)
      requires Pruned(tagKeys)
      modifies `tagKeys
      ensures Pruned(tagKeys)
      ensures forall t :: Members(tagKeys, t) == (if t in tags then old(Members(tagKeys, t)) - {key} else old(Members(tagKeys, t)))
    {
      var pending := tags;
      while pending != {}
        invariant pending <= tags
        invariant Pruned(tagKeys)
        invariant forall t :: Members(tagKeys, t)
                    == (if t in tags - pending then old(Members(tagKeys, t)) - {key} else old(Members(tagKeys, t)))
        decreases pending
      {
        var tag :| tag in pending;
        if tag in tagKeys {
          var members := tagKeys[tag] - {key};
          if members == {} {
            tagKeys := tagKeys - {tag};
          } else {
            tagKeys := tagKeys[tag := members];
          }
        }
        pending := pending - {tag};
      }
    }

    /** The tags of the latest write replace those of earlier ones. */
    method Associate(key: Key, tags: seq<Tag>)
      requires key in data && Valid()
      modifies `tagKeys, `keyTags
      ensures Valid() && data == old(data)
      ensures View() == old(View())[key := Flat(data[key].value, data[key].expiry, Range(tags))]
    {
      if key in keyTags {
        var previous := keyTags[key];
        keyTags := keyTags - {key};
        RemoveFromTags(key, previous);
      }
      assert forall k :: TagsOf(keyTags, k) == (if k == key then {} else old(TagsOf(keyTags, k)));
      forall k, t ensures Agree(tagKeys, keyTags, k, t) {
        assert Agree(old(tagKeys), old(keyTags), k, t);
      }
      if tags != [] {
        assert tags[0] in Range(tags);
        Join(key, Range(tags));
      } else {
        assert Range(tags) == {};
      }
      assert forall k :: TagsOf(keyTags, k) == (if k == key then Range(tags) else old(TagsOf(keyTags, k)));
    }

    /** Enter an untagged key under a nonempty set of tags. */
    method Join(key: Key, fresh_: set<Tag>)
      requires fresh_ != {} && TagsOf(keyTags, key) == {}
      requires Pruned(tagKeys) && Pruned(keyTags) && Inverse(tagKeys, keyTags)
      modifies `tagKeys, `keyTags
      ensures keyTags == old(keyTags)[key := fresh_]
      ensures Pruned(tagKeys) && Pruned(keyTags) && Inverse(tagKeys, keyTags)
    {
      keyTags := keyTags[key := fresh_];
      var pending := fresh_;
      while pending != {}
        invariant pending <= fresh_
        invariant keyTags == old(keyTags)[key := fresh_]
        invariant Pruned(tagKeys)
        invariant forall t :: Members(tagKeys, t)
                    == (if t in fresh_ - pending then old(Members(tagKeys, t)) + {key} else old(Members(tagKeys, t)))
        decreases pending
      {
        var tag :| tag in pending;
        tagKeys := tagKeys[tag := (if tag in tagKeys then tagKeys[tag] else {}) + {key}];
        pending := pending - {tag};
      }
      forall k, t ensures Agree(tagKeys, keyTags, k, t) {
        assert Agree(old(tagKeys), old(keyTags), k, t);
      }
    }

    method Drop(key: Key)
      requires Valid()
      modifies this
      ensures Valid() && View() == old(View()) - {key}
    {
      data := data - {key};
      if key in keyTags {
        var tags := keyTags[key];
        keyTags := keyTags - {key};
        RemoveFromTags(key, tags);
      }
      assert forall k :: TagsOf(keyTags, k) == (if k == key then {} else old(TagsOf(keyTags, k)));
      forall k, t ensures Agree(tagKeys, keyTags, k, t) {
        assert Agree(old(tagKeys), old(keyTags), k, t);
      }
    }

    /** A lapsed entry is a miss and is removed on the way. */
    method Get(key: Key, now: real) returns (r: Option<Value>)
      requires Valid()
      modifies this
      ensures Valid() && View() == Lapse(old(View()), {key}, now)
      ensures r == (if key in View() then Some(View()[key].value) else None)
      ensures r == (if key in old(View()) && now < old(View())[key].expiry then Some(old(View())[key].value) else None)
    {
      if key !in data {
        return None;
      }
      var entry := data[key];
      if now >= entry.expiry {
        Drop(key);
        return None;
      }
      return Some(entry.value);
    }

    method Set(key: Key, value: Value, ttl: real, tags: seq<Tag>, now: real)
      requires Valid()
      modifies this
      ensures Valid()
      ensures View() == old(View())[key := Flat(value, now + ttl, Range(tags))]
    {
      data := data[key := Entry(value, now + ttl)];
      Associate(key, tags);
    }

    method GetMany(keys: seq<Key>, now: real) returns (found: map<Key, Value>)
      requires Valid()
      modifies this
      ensures Valid() && View() == Lapse(old(View()), Range(keys), now)
      ensures found == Found(View(), Range(keys))
      ensures forall k :: k in found <==> k in keys && k in old(View()) && now < old(View())[k].expiry
      ensures forall k :: k in found ==> found[k] == old(View())[k].value
    {
      found := map[];
      ghost var done: set<Key> := {};
      for i := 0 to |keys|
        invariant done == Range(keys[..i])
        invariant Valid() && View() == Lapse(old(View()), done, now)
        invariant found == Found(View(), done)
      {
        LapseGrows(old(View()), done, keys[i], now);
        var r := Get(keys[i], now);
        if r.Some? {
          found := found[keys[i] := r.value];
        }
        done := done + {keys[i]};
        assert Range(keys[..i + 1]) == done;
      }
      assert keys[..|keys|] == keys;
    }

    method SetMany(items: map<Key, Value>, ttl: real, tags: seq<Tag>, now: real)
      requires Valid()
      modifies this
      ensures Valid()
      ensures View() == old(View()) + Batch(items, items.Keys, now + ttl, Range(tags))
    {
      var pending := items.Keys;
      ghost var start, tagSet := View(), Range(tags);
      ghost var done: set<Key> := {};
      BatchEmpty(start, items, now + ttl, tagSet);
      while pending != {}
        invariant pending + done == items.Keys
        invariant Valid() && View() == start + Batch(items, done, now + ttl, tagSet)
        decreases pending
      {
        var key :| key in pending;
        ghost var before, after := View(), start + Batch(items, done + {key}, now + ttl, tagSet);
        BatchGrows(start, items, done, key, now + ttl, tagSet);
        assert before[key := Flat(items[key], now + ttl, tagSet)] == after;
        Set(key, items[key], ttl, tags, now);
        pending := pending - {key};
        done := done + {key};
      }
      assert done == items.Keys;
    }

    method DeleteMany(keys: seq<Key>)
      requires Valid()
      modifies this
      ensures Valid() && View() == old(View()) - Range(keys)
    {
      for i := 0 to |keys|
        invariant Valid() && View() == old(View()) - Range(keys[..i])
      {
        assert Range(keys[..i + 1]) == Range(keys[..i]) + {keys[i]};
        Drop(keys[i]);
      }
      assert keys[..|keys|] == keys;
    }

    /** Exactly the keys whose latest write carried one of the tags go. */
    method DeleteTags(tags: seq<Tag>)
      requires Valid()
      modifies this
      ensures Valid()
      ensures View() == map k | k in old(View()) && old(View())[k].tags !! Range(tags) :: old(View())[k]
    {
      for i := 0 to |tags|
        invariant Valid()
        invariant View() == map k | k in old(View()) && old(View())[k].tags !! Range(tags[..i]) :: old(View())[k]
      {
        assert Range(tags[..i + 1]) == Range(tags[..i]) + {tags[i]};
        DeleteTag(tags[i]);
      }
      assert tags[..|tags|] == tags;
    }

    /** One tag: its members are walked in a snapshot while `Drop` shrinks, and prunes, the set itself. */
    method DeleteTag(tag: Tag)
      requires Valid()
      modifies this
      ensures Valid()
      ensures View() == map k | k in old(View()) && tag !in old(View())[k].tags :: old(View())[k]
    {
      if tag !in tagKeys {
        forall k | k in View() ensures tag !in View()[k].tags {
          assert Agree(tagKeys, keyTags, k, tag);
        }
        return;
      }
      var pending := tagKeys[tag];
      ghost var members := pending;
      while pending != {}
        invariant pending <= members
        invariant Valid()
        invariant View() == old(View()) - (members - pending)
        decreases pending
      {
        var key :| key in pending;
        Drop(key);
        pending := pending - {key};
      }
      forall k ensures k in members <==> tag in old(TagsOf(keyTags, k)) {
        assert Agree(old(tagKeys), old(keyTags), k, tag);
      }
      assert tag !in tagKeys by {
        if tag in tagKeys {
          TagHasMember(tag);
        }
      }
      assert tagKeys - {tag} == tagKeys;
      tagKeys := tagKeys - {tag};
    }

    /** A listed tag has a member; so once all are dropped the tag is gone and the final pop finds nothing. */
    lemma TagHasMember(tag: Tag)
      requires Valid() && tag in tagKeys
      ensures exists k :: k in View() && tag in View()[k].tags
    {
      var k :| k in tagKeys[tag];
      assert Agree(tagKeys, keyTags, k, tag) && k in keyTags && k in data;
      assert View()[k].tags == keyTags[k];
    }

    method Clear()
      modifies this
      ensures Valid() && View() == map[]
    {
      data, tagKeys, keyTags := map[], map[], map[];
    }
  }
}
