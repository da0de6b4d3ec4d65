/**
 * The image cache: a dictionary from repository name to the list of image
 * summaries cached for it, iterated in key-insertion order. Here it is a
 * value, the map together with the order in which its keys were first
 * inserted; `Put` is one step of the refresh loop of
 * inspector_exporter/collector.py and `PutAll` the whole loop.
 */
module ImageCache {
  import opened Records

  datatype Cache = Cache(keys: seq<string>, entries: map<string, seq<ImageSummary>>)
  {
    /** `keys` lists every cached repository exactly once. */
    predicate Valid()
    {
      && Distinct(keys)
      && (forall k :: k in entries ==> k in keys)
      && (forall i :: 0 <= i < |keys| ==> keys[i] in entries)
    }

    /** `imagecache.get(name, [])`. */
    function Get(name: string): seq<ImageSummary>
    {
      if name in entries then entries[name] else []
    }
  }

  /** The cache a new collector starts with. */
  const EMPTY: Cache := Cache([], map[])

  /** Caching one summary: one step of the refresh loop. */
  function Put(c: Cache, s: ImageSummary): Cache
  {
    var name := s.repositoryName;
    if name !in c.entries then Cache(c.keys + [name], c.entries[name := [s]])
    else Cache(c.keys, c.entries[name := c.entries[name] + [s]])
  }

  /** A merge step keeps every cached repository listed exactly once. */
  lemma PutValid(c: Cache, s: ImageSummary)
    requires c.Valid()
    ensures Put(c, s).Valid()
  {
    var name := s.repositoryName;
    if name !in c.entries {
      assert name !in c.keys;
    }
  }

  /**
   * A repository not yet cached gets a one-element list and goes last in
   * key order; a cached one gets the summary appended to its list and keeps
   * its place. No other repository changes.
   */
  lemma PutGet(c: Cache, s: ImageSummary, name: string)
    ensures s.repositoryName !in c.entries ==>
      Put(c, s).Get(s.repositoryName) == [s] && Put(c, s).keys == c.keys + [s.repositoryName]
    ensures s.repositoryName in c.entries ==>
      Put(c, s).Get(s.repositoryName) == c.Get(s.repositoryName) + [s] && Put(c, s).keys == c.keys
    ensures name != s.repositoryName ==> Put(c, s).Get(name) == c.Get(name)
    ensures name in Put(c, s).entries <==> name in c.entries || name == s.repositoryName
  {
  }

  /** Caching the summaries `ss` one after another, in order. */
  function PutAll(c: Cache, ss: seq<ImageSummary>): Cache
  {
    if ss == [] then c else Put(PutAll(c, ss[..|ss| - 1]), ss[|ss| - 1])
  }

  /** Merging a list keeps every cached repository listed exactly once. */
  lemma {:induction false} PutAllValid(c: Cache, ss: seq<ImageSummary>)
    requires c.Valid()
    ensures PutAll(c, ss).Valid()
  {
    if ss != [] {
      PutAllValid(c, ss[..|ss| - 1]);
      PutValid(PutAll(c, ss[..|ss| - 1]), ss[|ss| - 1]);
    }
  }

  /** Merging never drops or reorders a key: the old key order is a prefix of the new. */
  lemma {:induction false} PutAllKeysPrefix(c: Cache, ss: seq<ImageSummary>)
    ensures c.keys <= PutAll(c, ss).keys
  {
    if ss != [] {
      PutAllKeysPrefix(c, ss[..|ss| - 1]);
    }
  }

  /**
   * The repositories of `ss` not cached in `c`, each once, in the order of
   * their first summary in `ss`.
   */
  function NewKeys(c: Cache, ss: seq<ImageSummary>): seq<string>
  {
    if ss == [] then []
    else
      var earlier := NewKeys(c, ss[..|ss| - 1]);
      var name := ss[|ss| - 1].repositoryName;
      if name in c.entries || name in earlier then earlier else earlier + [name]
  }

  /**
   * After merging `ss`, the key order is the old key order followed by the
   * newly cached repositories in the order they first occur in `ss`; a
   * repository is cached exactly when it was before or is one of those.
   */
  lemma {:induction false} PutAllKeyOrder(c: Cache, ss: seq<ImageSummary>, name: string)
    ensures PutAll(c, ss).keys == c.keys + NewKeys(c, ss)
    ensures name in PutAll(c, ss).entries <==> name in c.entries || name in NewKeys(c, ss)
  {
    if ss != [] {
      var init, last := ss[..|ss| - 1], ss[|ss| - 1];
      PutAllKeyOrder(c, init, name);
      PutAllKeyOrder(c, init, last.repositoryName);
      PutGet(PutAll(c, init), last, name);
      if last.repositoryName !in c.entries && last.repositoryName !in NewKeys(c, init) {
        assert c.keys + NewKeys(c, init) + [last.repositoryName] == c.keys + (NewKeys(c, init) + [last.repositoryName]);
      }
    }
  }

  /** The summaries in `ss` of repository `name`, in order. */
  function ForRepository(ss: seq<ImageSummary>, name: string): seq<ImageSummary>
  {
    if ss == [] then []
    else
      var last := ss[|ss| - 1];
      ForRepository(ss[..|ss| - 1], name) + if last.repositoryName == name then [last] else []
  }

  /**
   * After caching `ss`, every repository's list is its earlier list
   * followed by the summaries of `ss` for that repository, in input order:
   * nothing is dropped, reordered or deduplicated.
   */
  lemma {:induction false} PutAllGet(c: Cache, ss: seq<ImageSummary>, name: string)
    ensures PutAll(c, ss).Get(name) == c.Get(name) + ForRepository(ss, name)
  {
    if ss != [] {
      PutAllGet(c, ss[..|ss| - 1], name);
      PutGet(PutAll(c, ss[..|ss| - 1]), ss[|ss| - 1], name);
    }
  }

  /** A repository is cached afterwards exactly when it was before or `ss` has a summary for it. */
  lemma {:induction false} PutAllKeys(c: Cache, ss: seq<ImageSummary>, name: string)
    ensures name in PutAll(c, ss).entries <==> name in c.entries || ForRepository(ss, name) != []
  {
    if ss != [] {
      PutAllKeys(c, ss[..|ss| - 1], name);
      PutGet(PutAll(c, ss[..|ss| - 1]), ss[|ss| - 1], name);
    }
  }

  /**
   * Two refreshes in a row cache the same as one refresh over both record
   * lists: entries accumulate across refreshes rather than being replaced.
   */
  lemma {:induction false} PutAllConcat(c: Cache, first: seq<ImageSummary>, second: seq<ImageSummary>)
    ensures PutAll(PutAll(c, first), second) == PutAll(c, first + second)
  {
    if second == [] {
      assert first + second == first;
    } else {
      var init, last := second[..|second| - 1], second[|second| - 1];
      PutAllConcat(c, first, init);
      assert second == init + [last];
      assert first + (init + [last]) == (first + init) + [last];
      PutAllSnoc(PutAll(c, first), init, last);
      PutAllSnoc(c, first + init, last);
    }
  }

  /** Caching one more summary after `ss` is one more step of the loop. */
  lemma PutAllSnoc(c: Cache, ss: seq<ImageSummary>, s: ImageSummary)
    ensures PutAll(c, ss + [s]) == Put(PutAll(c, ss), s)
  {
    assert (ss + [s])[..|ss|] == ss;
  }

  /** The number of summaries cached under the keys `ks`. */
  function SizeOver(c: Cache, ks: seq<string>): nat
  {
    if ks == [] then 0 else SizeOver(c, ks[..|ks| - 1]) + |c.Get(ks[|ks| - 1])|
  }

  /** The number of summaries in the cache. */
  function Size(c: Cache): nat
  {
    SizeOver(c, c.keys)
  }

  lemma {:induction false} SizeOverPut(c: Cache, s: ImageSummary, ks: seq<string>)
    requires Distinct(ks)
    ensures SizeOver(Put(c, s), ks) == SizeOver(c, ks) + if s.repositoryName in ks then 1 else 0
  {
    if ks != [] {
      var init := ks[..|ks| - 1];
      assert Distinct(init);
      SizeOverPut(c, s, init);
      assert ks == init + [ks[|ks| - 1]];
      if ks[|ks| - 1] == s.repositoryName {
        assert s.repositoryName !in init;
      }
    }
  }

  /** Caching one summary adds exactly one summary to the cache. */
  lemma PutSize(c: Cache, s: ImageSummary)
    requires c.Valid()
    ensures Size(Put(c, s)) == Size(c) + 1
  {
    var r := Put(c, s);
    var name := s.repositoryName;
    SizeOverPut(c, s, c.keys);
    if name !in c.entries {
      assert (c.keys + [name])[..|c.keys|] == c.keys;
      assert SizeOver(r, r.keys) == SizeOver(r, c.keys) + |r.Get(name)|;
    }
  }

  /** Refreshing with `ss` adds exactly `|ss|` summaries to the cache. */
  lemma {:induction false} PutAllSize(c: Cache, ss: seq<ImageSummary>)
    requires c.Valid()
    ensures Size(PutAll(c, ss)) == Size(c) + |ss|
  {
    if ss != [] {
      PutAllSize(c, ss[..|ss| - 1]);
      PutAllValid(c, ss[..|ss| - 1]);
      PutSize(PutAll(c, ss[..|ss| - 1]), ss[|ss| - 1]);
    }
  }
}
