/** The image resolver's least-recently-used cache: a map from process identity to result beside a list of the
    keys, most recently used first. */
module ImageCache {
  import opened Options

  type Handle = nat
  type Path = nat

  /** A process identifier and its creation time. */
  datatype Key = Key(pid: nat, created: nat)

  const CACHE_ENTRIES := 2048
  const UNAVAILABLE_LIFETIME := 1000

  /** A resolved path, or none; `origin` is the handle it was resolved from, kept as history. */
  datatype Entry = Entry(path: Option<Path>, expires: Option<nat>, origin: Handle)

  predicate Distinct(s: seq<Key>) { forall i, j :: 0 <= i < j < |s| ==> s[i] != s[j] }

  function Keys(s: seq<Key>): set<Key> { set k | k in s }

  /** The list without one key. */
  function Without(s: seq<Key>, key: Key): (r: seq<Key>)
    ensures forall k :: k in r <==> k in s && k != key
    ensures Distinct(s) ==> Distinct(r)
    ensures |r| <= |s| && (key !in s ==> r == s)
  {
    if s == [] then []
    else if s[0] == key then Without(s[1..], key)
    else
      var rest := Without(s[1..], key);
      assert forall j :: 0 <= j < |s| - 1 ==> s[1..][j] == s[j + 1];
      assert Distinct(s) ==> s[0] !in rest;
      [s[0]] + rest
  }

  lemma {:induction false} DistinctSize(s: seq<Key>)
    requires Distinct(s)
    ensures |Keys(s)| == |s|
    decreases |s|
  {
    if s != [] {
      DistinctSize(s[1..]);
      assert s == [s[0]] + s[1..];
      assert Keys(s) == {s[0]} + Keys(s[1..]);
    }
  }

  /** The list before an insertion: a full cache gives up its least recently used key. */
  function MakeRoom(recent: seq<Key>): seq<Key> {
    if |recent| >= CACHE_ENTRIES then recent[..|recent| - 1] else recent
  }

  class Cache {
    var entries: map<Key, Entry>
    var recent: seq<Key>

    constructor ()
      ensures Valid() && recent == [] && entries == map[]
    {
      entries, recent := map[], [];
    }

    /** List and map hold the same keys, each once, within the limit. */
    ghost predicate Valid() reads this {
      Distinct(recent) && entries.Keys == Keys(recent) && |recent| <= CACHE_ENTRIES
    }

    /** A full cache gives up its least recently used entry. */
    method Evict()
      requires Valid()
      modifies this
      ensures Valid() && |recent| < CACHE_ENTRIES
      ensures recent == MakeRoom(old(recent))
      ensures forall k :: k in entries ==> k in old(entries) && entries[k] == old(entries)[k]
    {
      DistinctSize(recent);
      if |entries| >= CACHE_ENTRIES {
        var last := recent[|recent| - 1];
        entries := entries - {last};
        recent := recent[..|recent| - 1];
        assert old(recent) == recent + [last];
        assert entries.Keys == Keys(recent);
      }
    }

    /** Insert or replace an entry as the most recent, giving up the least recent if the cache is full. */
    method Insert(key: Key, entry: Entry)
      requires Valid()
      modifies this
      ensures Valid()
      ensures recent == [key] + Without(MakeRoom(old(recent)), key)
      ensures forall k :: k in entries ==>
                if k == key then entries[k] == entry else k in old(entries) && entries[k] == old(entries)[k]
    {
      Evict();
      recent := [key] + Without(recent, key);
      entries := entries[key := entry];
      assert entries.Keys == Keys(recent);
    }

    /** Find an entry; a hit becomes the most recent, an expired entry is dropped. */
    method Lookup(key: Key, now: nat) returns (found: Option<Entry>)
      requires Valid()
      modifies this
      ensures Valid()
      ensures found.Some? <==> key in old(entries) &&
                               !(old(entries)[key].expires.Some? && now >= old(entries)[key].expires.value)
      ensures found.Some? ==> found.value == old(entries)[key] && entries == old(entries)
      ensures found.Some? ==> recent == [key] + Without(old(recent), key)
      ensures found.None? ==> recent == Without(old(recent), key)
      ensures forall k :: k in entries ==> k in old(entries) && entries[k] == old(entries)[k]
    {
      if key !in entries { return None; }
      var entry := entries[key];
      if entry.expires.Some? && now >= entry.expires.value {
        recent := Without(recent, key);
        entries := entries - {key};
        assert entries.Keys == Keys(recent);
        return None;
      }
      recent := [key] + Without(recent, key);
      assert Keys(recent) == entries.Keys;
      DistinctSize(recent);
      DistinctSize(old(recent));
      found := Some(entry);
    }
  }
}
