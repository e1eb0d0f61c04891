// What `Model::loadModel` computes, as functions of the imported scene: the
// mesh contents in pre-order, the texture cache with its fresh texture
// names, and the effect of the uploads of `textureFromFile` on the texture
// units and texture images of the context.

module Import {
  import opened Records
  import opened Wrappers
  import opened Scene
  import opened TextureCache

  /** The loader's state: the meshes built so far, the texture cache
      (`texturesLoaded`) and the next texture name the context hands out. */
  datatype Loader = Loader(meshes: seq<MeshData>, cache: seq<Texture>, next: nat)

  /** The paths of a material in the order `processMesh` asks for them:
      diffuse, specular, then height. */
  function MaterialPaths(mat: Material): seq<string>
  {
    mat.diffuse + mat.specular + mat.height
  }

  /** The three `loadMaterialTextures` calls of `processMesh`; height maps
      are tagged as normal maps. */
  function MaterialTextures(mat: Material, cache: seq<Texture>, next: nat): (r: Resolved)
    ensures |r.textures| == |MaterialPaths(mat)|
    ensures |cache| <= |r.cache| && r.cache[..|cache|] == cache
    ensures r.next == next + (|r.cache| - |cache|)
  {
    var d := Resolve(cache, mat.diffuse, DiffuseTag, next);
    var s := Resolve(d.cache, mat.specular, SpecularTag, d.next);
    var h := Resolve(s.cache, mat.height, NormalTag, s.next);
    AddedSplit(cache, d.cache, s.cache);
    AddedSplit(cache, s.cache, h.cache);
    Resolved(d.textures + s.textures + h.textures, h.cache, h.next)
  }

  /** The three slots resolved one after the other make up the material's
      textures. */
  lemma MaterialTexturesSteps(mat: Material, cache: seq<Texture>, next: nat, d: Resolved, s: Resolved, h: Resolved)
    requires d == Resolve(cache, mat.diffuse, DiffuseTag, next)
    requires s == Resolve(d.cache, mat.specular, SpecularTag, d.next)
    requires h == Resolve(s.cache, mat.height, NormalTag, s.next)
    ensures MaterialTextures(mat, cache, next) == Resolved(d.textures + s.textures + h.textures, h.cache, h.next)
  {
  }

  /** The mesh `processMesh` builds from scene mesh `m`. */
  function ImportMesh(l: Loader, scene: AiScene, m: AiMesh, blank: Vertex): (r: Loader)
    requires WellFormedMesh(m) && m.materialIndex < |scene.materials|
  {
    var t := MaterialTextures(scene.materials[m.materialIndex], l.cache, l.next);
    Loader(l.meshes + [MeshData(ConvertVertices(m, blank), FlattenFaces(m.faces), t.textures)], t.cache, t.next)
  }

  /** One mesh, given its converted vertices, its indices and how its
      material's textures resolve against the cache. */
  lemma ImportMeshFrom(l: Loader, scene: AiScene, m: AiMesh, blank: Vertex, vertices: seq<Vertex>,
                       indices: seq<U32>, t: Resolved)
    requires WellFormedMesh(m) && m.materialIndex < |scene.materials|
    requires vertices == ConvertVertices(m, blank) && indices == FlattenFaces(m.faces)
    requires MaterialTextures(scene.materials[m.materialIndex], l.cache, l.next) == t
    ensures ImportMesh(l, scene, m, blank) == Loader(l.meshes + [MeshData(vertices, indices, t.textures)], t.cache, t.next)
  {
  }

  /** Every reference of `refs` names a mesh of the scene. */
  predicate RefsResolve(scene: AiScene, refs: seq<nat>)
  {
    forall k :: 0 <= k < |refs| ==> refs[k] < |scene.meshes|
  }

  /** The references of both halves of a run that resolves resolve. */
  lemma ResolveSplit(scene: AiScene, a: seq<nat>, b: seq<nat>)
    requires RefsResolve(scene, a + b)
    ensures RefsResolve(scene, a) && RefsResolve(scene, b)
  {
    forall k | 0 <= k < |a| ensures a[k] < |scene.meshes| {
      assert (a + b)[k] == a[k];
    }
    forall k | 0 <= k < |b| ensures b[k] < |scene.meshes| {
      assert (a + b)[|a| + k] == b[k];
    }
  }

  /** References resolve when every one of them, wherever it occurs, does. */
  lemma ResolveByMembers(scene: AiScene, refs: seq<nat>)
    requires forall r :: r in refs ==> r < |scene.meshes|
    ensures RefsResolve(scene, refs)
  {
    forall k | 0 <= k < |refs| ensures refs[k] < |scene.meshes| {
      assert refs[k] in refs;
    }
  }

  /** The meshes referenced by `refs`, imported in order. */
  function ImportAll(l: Loader, scene: AiScene, refs: seq<nat>, blank: Vertex): (r: Loader)
    requires WellFormedScene(scene) && RefsResolve(scene, refs)
    ensures |r.meshes| == |l.meshes| + |refs| && r.meshes[..|l.meshes|] == l.meshes
    ensures |l.cache| <= |r.cache| && r.cache[..|l.cache|] == l.cache
    ensures r.next == l.next + (|r.cache| - |l.cache|)
  {
    if refs == [] then l
    else
      var l0 := ImportAll(l, scene, refs[..|refs| - 1], blank);
      var r := ImportMesh(l0, scene, scene.meshes[refs[|refs| - 1]], blank);
      assert r.meshes[..|l.meshes|] == l0.meshes[..|l.meshes|];
      AddedSplit(l.cache, l0.cache, r.cache);
      r
  }

  /** One more reference imports one more mesh. */
  lemma ImportAllSnoc(l: Loader, scene: AiScene, refs: seq<nat>, i: nat, blank: Vertex)
    requires WellFormedScene(scene) && RefsResolve(scene, refs) && i < |refs|
    ensures RefsResolve(scene, refs[..i]) && RefsResolve(scene, refs[..i + 1])
    ensures ImportAll(l, scene, refs[..i + 1], blank)
         == ImportMesh(ImportAll(l, scene, refs[..i], blank), scene, scene.meshes[refs[i]], blank)
  {
    assert refs[..i + 1][..i] == refs[..i];
  }

  /** Importing two runs of references is importing their concatenation. */
  lemma {:induction false} ImportAllAppend(l: Loader, scene: AiScene, a: seq<nat>, b: seq<nat>, blank: Vertex)
    requires WellFormedScene(scene) && RefsResolve(scene, a) && RefsResolve(scene, b)
    ensures RefsResolve(scene, a + b)
    ensures ImportAll(l, scene, a + b, blank) == ImportAll(ImportAll(l, scene, a, blank), scene, b, blank)
  {
    if b == [] {
      assert a + b == a;
    } else {
      assert (a + b)[..|a + b| - 1] == a + b[..|b| - 1];
      ImportAllAppend(l, scene, a, b[..|b| - 1], blank);
    }
  }

  /** Mesh k of an import is the mesh built once the references before
      it have been imported. */
  lemma {:induction false} ImportAllAt(l: Loader, scene: AiScene, refs: seq<nat>, blank: Vertex, k: nat)
    requires WellFormedScene(scene) && RefsResolve(scene, refs) && k < |refs|
    ensures RefsResolve(scene, refs[..k])
    ensures var l0 := ImportAll(l, scene, refs[..k], blank);
      ImportAll(l, scene, refs, blank).meshes[|l.meshes| + k]
      == ImportMesh(l0, scene, scene.meshes[refs[k]], blank).meshes[|l0.meshes|]
  {
    var init := refs[..|refs| - 1];
    if k < |init| {
      assert init[..k] == refs[..k];
      ImportAllAt(l, scene, init, blank, k);
    } else {
      assert init == refs[..k];
    }
  }

  /** Mesh k of an import is built from the scene mesh of reference k: its
      vertices converted, its faces flattened and one texture per material
      path, in diffuse, specular, height order. */
  lemma ImportedMesh(l: Loader, scene: AiScene, refs: seq<nat>, blank: Vertex, k: nat)
    requires WellFormedScene(scene) && RefsResolve(scene, refs) && k < |refs|
    ensures var d := ImportAll(l, scene, refs, blank).meshes[|l.meshes| + k];
      var m := scene.meshes[refs[k]];
      && d.vertices == ConvertVertices(m, blank)
      && d.indices == FlattenFaces(m.faces)
      && FileNames(d.textures) == MaterialPaths(scene.materials[m.materialIndex])
  {
    ImportAllAt(l, scene, refs, blank, k);
    var l0 := ImportAll(l, scene, refs[..k], blank);
    var m := scene.meshes[refs[k]];
    MaterialTextureNames(scene.materials[m.materialIndex], l0.cache, l0.next);
  }

  /** The textures of a mesh carry the material's paths, in order, as file
      names. */
  lemma MaterialTextureNames(mat: Material, cache: seq<Texture>, next: nat)
    ensures FileNames(MaterialTextures(mat, cache, next).textures) == MaterialPaths(mat)
  {
    var d := Resolve(cache, mat.diffuse, DiffuseTag, next);
    var s := Resolve(d.cache, mat.specular, SpecularTag, d.next);
    var h := Resolve(s.cache, mat.height, NormalTag, s.next);
    ResolveNames(cache, mat.diffuse, DiffuseTag, next);
    ResolveNames(d.cache, mat.specular, SpecularTag, d.next);
    ResolveNames(s.cache, mat.height, NormalTag, s.next);
    FileNamesAppend(d.textures, s.textures);
    FileNamesAppend(d.textures + s.textures, h.textures);
  }

  // ---- the texture cache over a whole import -------------------------------

  /** The distinct texture paths of the materials of the referenced meshes. */
  function RefPaths(scene: AiScene, refs: seq<nat>): set<string>
    requires WellFormedScene(scene) && RefsResolve(scene, refs)
  {
    if refs == [] then {}
    else
      var m := scene.meshes[refs[|refs| - 1]];
      RefPaths(scene, refs[..|refs| - 1]) + NameSet(MaterialPaths(scene.materials[m.materialIndex]))
  }

  /** The three calls of one mesh keep the cache free of duplicates. */
  lemma MaterialTexturesUnique(mat: Material, cache: seq<Texture>, next: nat)
    requires UniqueKeys(cache)
    ensures UniqueKeys(MaterialTextures(mat, cache, next).cache)
  {
    var d := Resolve(cache, mat.diffuse, DiffuseTag, next);
    var s := Resolve(d.cache, mat.specular, SpecularTag, d.next);
    ResolveUnique(cache, mat.diffuse, DiffuseTag, next);
    ResolveUnique(d.cache, mat.specular, SpecularTag, d.next);
    ResolveUnique(s.cache, mat.height, NormalTag, s.next);
  }

  /** ... and keep texture names distinct and below the next one. */
  lemma MaterialTexturesIds(mat: Material, cache: seq<Texture>, next: nat)
    requires FreshIds(cache, next)
    ensures var r := MaterialTextures(mat, cache, next);
      FreshIds(r.cache, r.next)
  {
    var d := Resolve(cache, mat.diffuse, DiffuseTag, next);
    var s := Resolve(d.cache, mat.specular, SpecularTag, d.next);
    ResolveIds(cache, mat.diffuse, DiffuseTag, next);
    ResolveIds(d.cache, mat.specular, SpecularTag, d.next);
    ResolveIds(s.cache, mat.height, NormalTag, s.next);
  }

  /** ... and add exactly the material's paths to the cache's file names. */
  lemma MaterialTexturesKeys(mat: Material, cache: seq<Texture>, next: nat)
    ensures Keys(MaterialTextures(mat, cache, next).cache) == Keys(cache) + NameSet(MaterialPaths(mat))
  {
    var d := Resolve(cache, mat.diffuse, DiffuseTag, next);
    var s := Resolve(d.cache, mat.specular, SpecularTag, d.next);
    ResolveKeys(cache, mat.diffuse, DiffuseTag, next);
    ResolveKeys(d.cache, mat.specular, SpecularTag, d.next);
    ResolveKeys(s.cache, mat.height, NormalTag, s.next);
    NameSetAppend(mat.diffuse, mat.specular);
    NameSetAppend(mat.diffuse + mat.specular, mat.height);
  }

  lemma NameSetAppend(a: seq<string>, b: seq<string>)
    ensures NameSet(a + b) == NameSet(a) + NameSet(b)
  {
    forall x | x in a + b ensures x in a || x in b { }
    forall x | x in a ensures x in a + b { assert (a + b)[..|a|] == a; }
  }

  /** Every texture of a mesh is a record of the cache after it. */
  lemma MaterialTexturesCached(mat: Material, cache: seq<Texture>, next: nat)
    ensures AllCached(MaterialTextures(mat, cache, next).textures, MaterialTextures(mat, cache, next).cache)
  {
    var d := Resolve(cache, mat.diffuse, DiffuseTag, next);
    var s := Resolve(d.cache, mat.specular, SpecularTag, d.next);
    var h := Resolve(s.cache, mat.height, NormalTag, s.next);
    ResolveCached(cache, mat.diffuse, DiffuseTag, next);
    ResolveCached(d.cache, mat.specular, SpecularTag, d.next);
    ResolveCached(s.cache, mat.height, NormalTag, s.next);
    CachedAppend(d.textures, d.cache, s.textures, s.cache);
    CachedAppend(d.textures + s.textures, s.cache, h.textures, h.cache);
  }

  /** Records of an earlier cache followed by records of a later one are
      all records of the later one. */
  lemma CachedAppend(a: seq<Texture>, c1: seq<Texture>, b: seq<Texture>, c2: seq<Texture>)
    requires |c1| <= |c2| && c2[..|c1|] == c1
    requires AllCached(a, c1) && AllCached(b, c2)
    ensures AllCached(a + b, c2)
  {
    PrefixMembers(c1, c2);
    forall t | t in a + b ensures t in c2 {
      assert t in a || t in b;
    }
  }

  /** The textures of every mesh built so far are records of the cache. */
  predicate TexturesCached(l: Loader)
  {
    forall k :: 0 <= k < |l.meshes| ==> AllCached(l.meshes[k].textures, l.cache)
  }

  /** The cache invariants an import keeps: no two records for one file and
      no two records under one texture name (all below the next name), and
      every mesh texture a cache record. */
  predicate CacheInvariant(l: Loader)
  {
    UniqueKeys(l.cache) && FreshIds(l.cache, l.next) && TexturesCached(l)
  }

  lemma ImportMeshInvariant(l: Loader, scene: AiScene, m: AiMesh, blank: Vertex)
    requires WellFormedMesh(m) && m.materialIndex < |scene.materials|
    requires CacheInvariant(l)
    ensures CacheInvariant(ImportMesh(l, scene, m, blank))
    ensures Keys(ImportMesh(l, scene, m, blank).cache) == Keys(l.cache) + NameSet(MaterialPaths(scene.materials[m.materialIndex]))
  {
    var mat := scene.materials[m.materialIndex];
    var t := MaterialTextures(mat, l.cache, l.next);
    var r := ImportMesh(l, scene, m, blank);
    MaterialTexturesUnique(mat, l.cache, l.next);
    MaterialTexturesIds(mat, l.cache, l.next);
    MaterialTexturesKeys(mat, l.cache, l.next);
    MaterialTexturesCached(mat, l.cache, l.next);
    PrefixMembers(l.cache, r.cache);
    assert forall k :: 0 <= k < |l.meshes| ==> r.meshes[k] == l.meshes[k];
  }

  /** An import keeps the cache invariants, and the cache ends up holding
      exactly the paths of the imported meshes' materials as file names. */
  lemma {:induction false} ImportInvariant(l: Loader, scene: AiScene, refs: seq<nat>, blank: Vertex)
    requires WellFormedScene(scene) && RefsResolve(scene, refs)
    requires CacheInvariant(l)
    ensures CacheInvariant(ImportAll(l, scene, refs, blank))
    ensures Keys(ImportAll(l, scene, refs, blank).cache) == Keys(l.cache) + RefPaths(scene, refs)
  {
    if refs != [] {
      var init := refs[..|refs| - 1];
      ImportInvariant(l, scene, init, blank);
      ImportMeshInvariant(ImportAll(l, scene, init, blank), scene, scene.meshes[refs[|refs| - 1]], blank);
    }
  }

  /** Loading from an empty cache uploads each distinct texture path of the
      imported meshes' materials exactly once. */
  lemma OneUploadPerPath(scene: AiScene, refs: seq<nat>, blank: Vertex, next: nat)
    requires WellFormedScene(scene) && RefsResolve(scene, refs)
    ensures |ImportAll(Loader([], [], next), scene, refs, blank).cache| == |RefPaths(scene, refs)|
  {
    var l := Loader([], [], next);
    ImportInvariant(l, scene, refs, blank);
    assert Keys(l.cache) == {};
    UniqueKeysCount(ImportAll(l, scene, refs, blank).cache);
  }

  /** Any two textures of the loaded meshes with the same file name are the
      same record and so share one texture name; textures with different
      file names have different texture names. */
  lemma SharedTextures(scene: AiScene, refs: seq<nat>, blank: Vertex, next: nat,
                       k1: nat, j1: nat, k2: nat, j2: nat)
    requires WellFormedScene(scene) && RefsResolve(scene, refs)
    requires var r := ImportAll(Loader([], [], next), scene, refs, blank);
      k1 < |r.meshes| && j1 < |r.meshes[k1].textures| && k2 < |r.meshes| && j2 < |r.meshes[k2].textures|
    ensures var r := ImportAll(Loader([], [], next), scene, refs, blank);
      var t1, t2 := r.meshes[k1].textures[j1], r.meshes[k2].textures[j2];
      (t1.fName == t2.fName ==> t1 == t2) && (t1.fName != t2.fName ==> t1.id != t2.id)
  {
    var l := Loader([], [], next);
    ImportInvariant(l, scene, refs, blank);
    var r := ImportAll(l, scene, refs, blank);
    var t1, t2 := r.meshes[k1].textures[j1], r.meshes[k2].textures[j2];
    assert t1 in r.meshes[k1].textures && t2 in r.meshes[k2].textures;
    assert t1 in r.cache && t2 in r.cache;
    var a :| 0 <= a < |r.cache| && r.cache[a] == t1;
    var b :| 0 <= b < |r.cache| && r.cache[b] == t2;
    if t1.fName == t2.fName {
      assert a == b;
    } else {
      assert a != b;
    }
  }

  // ---- texture uploads ------------------------------------------------------

  /** The texture units and the texture images of the context. */
  datatype TexState = TexState(units: map<nat, nat>, images: map<nat, string>)

  /** The GL effect of `textureFromFile` when texture `id` is generated for
      the image at `path`: when the file reads, `id` is bound on the active
      unit `unit` and filled with the image; when it does not, nothing. */
  function Upload(g: TexState, unit: nat, readable: set<string>, path: string, id: nat): TexState
  {
    if path in readable then TexState(g.units[unit := id], g.images[id := path]) else g
  }

  /** The uploads for the records added to the cache, in order. */
  function UploadAll(g: TexState, unit: nat, directory: string, readable: set<string>, added: seq<Texture>): TexState
  {
    if added == [] then g
    else
      var t := added[|added| - 1];
      Upload(UploadAll(g, unit, directory, readable, added[..|added| - 1]), unit, readable, ImagePath(directory, t.fName), t.id)
  }

  /** No two records share a texture name. */
  predicate DistinctIds(ts: seq<Texture>)
  {
    forall i, j :: 0 <= i < j < |ts| ==> ts[i].id != ts[j].id
  }

  /** After the uploads, the texture of an added record holds its image
      when the file reads, and is as before when it does not. */
  lemma {:induction false} UploadedImage(g: TexState, unit: nat, directory: string, readable: set<string>,
                                        added: seq<Texture>, k: nat)
    requires DistinctIds(added) && k < |added|
    ensures var r := UploadAll(g, unit, directory, readable, added);
      var id, path := added[k].id, ImagePath(directory, added[k].fName);
      && (path in readable ==> id in r.images && r.images[id] == path)
      && (path !in readable ==> (id in r.images <==> id in g.images))
      && (path !in readable && id in g.images ==> r.images[id] == g.images[id])
  {
    var init := added[..|added| - 1];
    if k < |init| {
      UploadedImage(g, unit, directory, readable, init, k);
    } else {
      UntouchedImage(g, unit, directory, readable, init, added[k].id);
    }
  }

  /** A texture name no added record carries keeps its image. */
  lemma {:induction false} UntouchedImage(g: TexState, unit: nat, directory: string, readable: set<string>,
                                         added: seq<Texture>, id: nat)
    requires forall k :: 0 <= k < |added| ==> added[k].id != id
    ensures var r := UploadAll(g, unit, directory, readable, added);
      (id in r.images <==> id in g.images) && (id in g.images ==> r.images[id] == g.images[id])
  {
    if added != [] {
      UntouchedImage(g, unit, directory, readable, added[..|added| - 1], id);
    }
  }

  /** Units other than the active one are never touched. */
  lemma {:induction false} OtherUnitsKept(g: TexState, unit: nat, directory: string, readable: set<string>,
                                         added: seq<Texture>, u: nat)
    requires u != unit
    ensures var r := UploadAll(g, unit, directory, readable, added);
      (u in r.units <==> u in g.units) && (u in g.units ==> r.units[u] == g.units[u])
  {
    if added != [] {
      OtherUnitsKept(g, unit, directory, readable, added[..|added| - 1], u);
    }
  }

  /** The records a call adds carry the texture names handed out in order,
      so they are distinct. */
  lemma AddedDistinct(before: seq<Texture>, after: seq<Texture>, kind: string, next: nat)
    requires |before| <= |after| && AddedFrom(before, after, kind, next)
    ensures DistinctIds(Added(before, after))
  {
  }

  /** After loading a model from an empty cache, the texture of every
      cache record holds the record's image when its file reads, and
      keeps what it held when it does not. */
  lemma LoadedImages(g: TexState, unit: nat, directory: string, readable: set<string>,
                     scene: AiScene, refs: seq<nat>, blank: Vertex, next: nat, k: nat)
    requires WellFormedScene(scene) && RefsResolve(scene, refs)
    requires k < |ImportAll(Loader([], [], next), scene, refs, blank).cache|
    ensures var c := ImportAll(Loader([], [], next), scene, refs, blank).cache;
      var r := UploadAll(g, unit, directory, readable, c);
      var id, path := c[k].id, ImagePath(directory, c[k].fName);
      && (path in readable ==> id in r.images && r.images[id] == path)
      && (path !in readable ==> (id in r.images <==> id in g.images))
      && (path !in readable && id in g.images ==> r.images[id] == g.images[id])
  {
    ImportInvariant(Loader([], [], next), scene, refs, blank);
    UploadedImage(g, unit, directory, readable, ImportAll(Loader([], [], next), scene, refs, blank).cache, k);
  }
}
