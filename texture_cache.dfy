// The per-model texture cache of `Model::loadMaterialTextures`
// (src/model.cpp): a sequence of texture records searched linearly for the
// first record whose file name matches. A hit reuses that record as it is;
// a miss uploads the file once under a fresh texture name and appends the
// new record to the cache.

module TextureCache {
  import opened Records
  import opened Wrappers

  /** The first position of the cache whose file name is `name`. */
  function FindCached(cache: seq<Texture>, name: string): (r: Option<nat>)
    ensures r.None? <==> forall k :: 0 <= k < |cache| ==> cache[k].fName != name
    ensures r.Some? ==> r.value < |cache| && cache[r.value].fName == name
                        && forall k :: 0 <= k < r.value ==> cache[k].fName != name
  {
    if cache == [] then None
    else if cache[0].fName == name then Some(0)
    else
      match FindCached(cache[1..], name)
      case None => None
      case Some(k) => Some(k + 1)
  }

  /** No two cache records share a file name. */
  predicate UniqueKeys(cache: seq<Texture>)
  {
    forall j, k :: 0 <= j < k < |cache| ==> cache[j].fName != cache[k].fName
  }

  /** No two cache records share a texture name, and all texture names are
      below the next one the context will hand out. */
  predicate FreshIds(cache: seq<Texture>, next: nat)
  {
    (forall j, k :: 0 <= j < k < |cache| ==> cache[j].id != cache[k].id)
    && forall j :: 0 <= j < |cache| ==> cache[j].id < next
  }

  function Keys(cache: seq<Texture>): set<string>
  {
    set t | t in cache :: t.fName
  }

  /** What one call returns, the cache after it, and the next texture name. */
  datatype Resolved = Resolved(textures: seq<Texture>, cache: seq<Texture>, next: nat)

  /** Resolving one more path: reuse the first cached record with that file
      name, or create a record tagged `kind` under texture name `next`. */
  function ResolveOne(r: Resolved, path: string, kind: string): Resolved
  {
    match FindCached(r.cache, path)
    case Some(j) => Resolved(r.textures + [r.cache[j]], r.cache, r.next)
    case None =>
      var t := Texture(r.next, kind, path);
      Resolved(r.textures + [t], r.cache + [t], r.next + 1)
  }

  /** `loadMaterialTextures` over the slot's paths, in slot order, starting
      from `cache` with `next` as the next texture name: one result per
      path, and a cache that only grows, by one record per new name taken. */
  function Resolve(cache: seq<Texture>, paths: seq<string>, kind: string, next: nat): (r: Resolved)
    ensures |r.textures| == |paths|
    ensures |cache| <= |r.cache| && r.cache[..|cache|] == cache
    ensures r.next == next + (|r.cache| - |cache|)
  {
    if paths == [] then Resolved([], cache, next)
    else ResolveOne(Resolve(cache, paths[..|paths| - 1], kind, next), paths[|paths| - 1], kind)
  }

  /** The cache records added after position `from`, i.e. the uploads. */
  function Added(before: seq<Texture>, after: seq<Texture>): seq<Texture>
    requires |before| <= |after|
  {
    after[|before|..]
  }

  /** The file `textureFromFile` reads for a texture: `directory + '/' +
      fName`. */
  function ImagePath(directory: string, fName: string): string
  {
    directory + "/" + fName
  }

  /** The image files read for the given new records, in order. */
  function ImagePaths(directory: string, added: seq<Texture>): (ps: seq<string>)
    ensures |ps| == |added|
  {
    if added == [] then []
    else ImagePaths(directory, added[..|added| - 1]) + [ImagePath(directory, added[|added| - 1].fName)]
  }

  function NameSet(paths: seq<string>): set<string>
  {
    set p | p in paths
  }

  /** The first record carrying a name is what the lookup finds. */
  lemma FirstMatch(cache: seq<Texture>, name: string, k: nat)
    requires k < |cache| && cache[k].fName == name
    requires forall j :: 0 <= j < k ==> cache[j].fName != name
    ensures FindCached(cache, name) == Some(k)
  {
  }

  /** Appending a record changes no lookup that already hit, and a lookup
      that missed now finds the new record when it carries that name. */
  lemma FindCachedExtend(cache: seq<Texture>, t: Texture, name: string)
    ensures FindCached(cache, name).Some? ==> FindCached(cache + [t], name) == FindCached(cache, name)
    ensures FindCached(cache, name).None? && t.fName == name ==> FindCached(cache + [t], name) == Some(|cache|)
  {
    var c := cache + [t];
    match FindCached(cache, name)
    case Some(k) =>
      FirstMatch(c, name, k);
    case None =>
      if t.fName == name {
        FirstMatch(c, name, |cache|);
      }
  }

  /** Each result carries its path as file name and is the record that the
      final cache holds under that name. */
  lemma {:induction false} ResolveLookup(cache: seq<Texture>, paths: seq<string>, kind: string, next: nat, i: nat)
    requires i < |paths|
    ensures var r := Resolve(cache, paths, kind, next);
      && r.textures[i].fName == paths[i]
      && FindCached(r.cache, paths[i]).Some?
      && r.textures[i] == r.cache[FindCached(r.cache, paths[i]).value]
  {
    var init, p := paths[..|paths| - 1], paths[|paths| - 1];
    var r0 := Resolve(cache, init, kind, next);
    var r := Resolve(cache, paths, kind, next);
    if i < |init| {
      ResolveLookup(cache, init, kind, next, i);
      assert r.textures[i] == r0.textures[i];
      match FindCached(r0.cache, p)
      case Some(j) =>
      case None =>
        FindCachedExtend(r0.cache, Texture(r0.next, kind, p), paths[i]);
    } else {
      FindCachedExtend(r0.cache, Texture(r0.next, kind, p), p);
    }
  }

  /** A call keeps the cache free of duplicate file names. */
  lemma {:induction false} ResolveUnique(cache: seq<Texture>, paths: seq<string>, kind: string, next: nat)
    requires UniqueKeys(cache)
    ensures UniqueKeys(Resolve(cache, paths, kind, next).cache)
  {
    if paths != [] {
      var init, p := paths[..|paths| - 1], paths[|paths| - 1];
      ResolveUnique(cache, init, kind, next);
    }
  }

  /** A hit returns the record already in the cache before the call: its
      texture name and its original kind tag, whatever kind was asked for. */
  lemma HitKeepsRecord(cache: seq<Texture>, paths: seq<string>, kind: string, next: nat, i: nat)
    requires i < |paths| && FindCached(cache, paths[i]).Some?
    ensures Resolve(cache, paths, kind, next).textures[i] == cache[FindCached(cache, paths[i]).value]
  {
    var r := Resolve(cache, paths, kind, next);
    var j := FindCached(cache, paths[i]).value;
    assert forall k :: 0 <= k < |cache| ==> r.cache[k] == cache[k];
    FirstMatch(r.cache, paths[i], j);
    ResolveLookup(cache, paths, kind, next, i);
  }

  /** The records of `after` beyond the prefix `before` are tagged `kind`
      and named `next`, `next + 1`, ... in order. */
  predicate AddedFrom(before: seq<Texture>, after: seq<Texture>, kind: string, next: nat)
  {
    forall k :: |before| <= k < |after| ==> after[k].kind == kind && after[k].id == next + (k - |before|)
  }

  /** The records a call adds are tagged with the requested kind and named
      with consecutive fresh texture names in the order they were added. */
  lemma {:induction false} AddedRecords(cache: seq<Texture>, paths: seq<string>, kind: string, next: nat)
    ensures AddedFrom(cache, Resolve(cache, paths, kind, next).cache, kind, next)
  {
    if paths != [] {
      var init, p := paths[..|paths| - 1], paths[|paths| - 1];
      AddedRecords(cache, init, kind, next);
      var r0 := Resolve(cache, init, kind, next);
      match FindCached(r0.cache, p)
      case Some(_) =>
      case None =>
        var r := Resolve(cache, paths, kind, next);
        assert r.cache == r0.cache + [Texture(r0.next, kind, p)];
    }
  }

  /** Every record a call returns either is tagged with the requested kind
      or was already in the cache before the call. */
  lemma ResultKinds(cache: seq<Texture>, paths: seq<string>, kind: string, next: nat, i: nat)
    requires i < |paths|
    ensures var t := Resolve(cache, paths, kind, next).textures[i];
      t.kind == kind || t in cache
  {
    var r := Resolve(cache, paths, kind, next);
    ResolveLookup(cache, paths, kind, next, i);
    AddedRecords(cache, paths, kind, next);
    var j := FindCached(r.cache, paths[i]).value;
    if j < |cache| {
      assert r.cache[j] == cache[j];
    }
  }

  /** The cache's file names after a call are the old ones plus the call's
      paths. */
  lemma {:induction false} ResolveKeys(cache: seq<Texture>, paths: seq<string>, kind: string, next: nat)
    ensures Keys(Resolve(cache, paths, kind, next).cache) == Keys(cache) + NameSet(paths)
  {
    if paths != [] {
      var init, p := paths[..|paths| - 1], paths[|paths| - 1];
      ResolveKeys(cache, init, kind, next);
      var r0 := Resolve(cache, init, kind, next);
      NameSetSnoc(init, p);
      assert paths == init + [p];
      match FindCached(r0.cache, p)
      case Some(j) =>
        assert r0.cache[j] in r0.cache;
      case None =>
        var t := Texture(r0.next, kind, p);
        KeysSnoc(r0.cache, t);
    }
  }

  lemma NameSetSnoc(paths: seq<string>, p: string)
    ensures NameSet(paths + [p]) == NameSet(paths) + {p}
  {
    assert p in paths + [p];
    forall x | x in paths + [p] ensures x in paths || x == p { }
  }

  lemma KeysSnoc(cache: seq<Texture>, t: Texture)
    ensures Keys(cache + [t]) == Keys(cache) + {t.fName}
  {
    assert t in cache + [t];
    forall x | x in cache + [t] ensures x in cache || x == t { }
  }

  /** Texture names stay distinct, and below the next one to hand out. */
  lemma ResolveIds(cache: seq<Texture>, paths: seq<string>, kind: string, next: nat)
    requires FreshIds(cache, next)
    ensures var r := Resolve(cache, paths, kind, next);
      FreshIds(r.cache, r.next)
  {
    AddedRecords(cache, paths, kind, next);
    var r := Resolve(cache, paths, kind, next);
    assert forall k :: 0 <= k < |cache| ==> r.cache[k] == cache[k];
  }

  /** Distinct file names in a cache without duplicates number its length. */
  lemma {:induction false} UniqueKeysCount(cache: seq<Texture>)
    requires UniqueKeys(cache)
    ensures |Keys(cache)| == |cache|
  {
    if cache != [] {
      var init, t := cache[..|cache| - 1], cache[|cache| - 1];
      assert UniqueKeys(init);
      UniqueKeysCount(init);
      assert cache == init + [t];
      KeysSnoc(init, t);
    }
  }

  /** Exactly one upload per distinct file name that was not cached yet. */
  lemma UploadsPerName(cache: seq<Texture>, paths: seq<string>, kind: string, next: nat)
    requires UniqueKeys(cache)
    ensures var r := Resolve(cache, paths, kind, next);
      |r.cache| - |cache| == |NameSet(paths) - Keys(cache)|
  {
    var r := Resolve(cache, paths, kind, next);
    ResolveUnique(cache, paths, kind, next);
    ResolveKeys(cache, paths, kind, next);
    UniqueKeysCount(cache);
    UniqueKeysCount(r.cache);
    assert Keys(r.cache) == Keys(cache) + (NameSet(paths) - Keys(cache));
  }

  /** Two results with the same file name are the same record, and so
      share one texture name; results with different file names have
      different texture names. */
  lemma SameNameSameTexture(cache: seq<Texture>, paths: seq<string>, kind: string, next: nat, i: nat, j: nat)
    requires FreshIds(cache, next)
    requires i < |paths| && j < |paths|
    ensures var r := Resolve(cache, paths, kind, next);
      (paths[i] == paths[j] ==> r.textures[i] == r.textures[j])
      && (paths[i] != paths[j] ==> r.textures[i].id != r.textures[j].id)
  {
    ResolveLookup(cache, paths, kind, next, i);
    ResolveLookup(cache, paths, kind, next, j);
    ResolveIds(cache, paths, kind, next);
    var r := Resolve(cache, paths, kind, next);
    var a := FindCached(r.cache, paths[i]).value;
    var b := FindCached(r.cache, paths[j]).value;
    if paths[i] != paths[j] {
      assert a != b;
    }
  }

  /** The records added over two calls in a row are those of the first
      call followed by those of the second. */
  lemma AddedSplit(c0: seq<Texture>, c1: seq<Texture>, c2: seq<Texture>)
    requires |c0| <= |c1| <= |c2| && c1[..|c0|] == c0 && c2[..|c1|] == c1
    ensures c2[..|c0|] == c0
    ensures Added(c0, c2) == Added(c0, c1) + Added(c1, c2)
  {
    assert c2[..|c0|] == c2[..|c1|][..|c0|];
    assert c1[|c0|..] == c2[..|c1|][|c0|..];
  }

  /** Path k is read for added record k. */
  lemma {:induction false} ImagePathsAt(directory: string, added: seq<Texture>, k: nat)
    requires k < |added|
    ensures ImagePaths(directory, added)[k] == ImagePath(directory, added[k].fName)
  {
    if k < |added| - 1 {
      ImagePathsAt(directory, added[..|added| - 1], k);
    }
  }

  /** The file names of a sequence of records. */
  function FileNames(ts: seq<Texture>): (r: seq<string>)
  {
    if ts == [] then [] else FileNames(ts[..|ts| - 1]) + [ts[|ts| - 1].fName]
  }

  lemma {:induction false} FileNamesAppend(a: seq<Texture>, b: seq<Texture>)
    ensures FileNames(a + b) == FileNames(a) + FileNames(b)
  {
    if b == [] {
      assert a + b == a;
    } else {
      assert (a + b)[..|a + b| - 1] == a + b[..|b| - 1];
      FileNamesAppend(a, b[..|b| - 1]);
    }
  }

  /** The results of a call carry the call's paths, in order, as file
      names. */
  lemma {:induction false} ResolveNames(cache: seq<Texture>, paths: seq<string>, kind: string, next: nat)
    ensures FileNames(Resolve(cache, paths, kind, next).textures) == paths
  {
    if paths != [] {
      var init := paths[..|paths| - 1];
      ResolveNames(cache, init, kind, next);
      var r0 := Resolve(cache, init, kind, next);
      var r := Resolve(cache, paths, kind, next);
      assert r.textures[..|r.textures| - 1] == r0.textures;
      assert r.textures[|r.textures| - 1].fName == paths[|paths| - 1];
    }
  }

  /** Every record of `ts` is a record of `cache`. */
  predicate AllCached(ts: seq<Texture>, cache: seq<Texture>)
  {
    forall t :: t in ts ==> t in cache
  }

  /** Every result of a call is a record of the cache after it. */
  lemma ResolveCached(cache: seq<Texture>, paths: seq<string>, kind: string, next: nat)
    ensures AllCached(Resolve(cache, paths, kind, next).textures, Resolve(cache, paths, kind, next).cache)
  {
    var r := Resolve(cache, paths, kind, next);
    forall t | t in r.textures ensures t in r.cache {
      var j :| 0 <= j < |r.textures| && r.textures[j] == t;
      ResolveLookup(cache, paths, kind, next, j);
    }
  }

  /** A record of a cache stays in every extension of it. */
  lemma PrefixMembers(c: seq<Texture>, c': seq<Texture>)
    requires |c| <= |c'| && c'[..|c|] == c
    ensures AllCached(c, c')
  {
    forall t | t in c ensures t in c' {
      var i :| 0 <= i < |c| && c[i] == t;
      assert c'[i] == t;
    }
  }
}
