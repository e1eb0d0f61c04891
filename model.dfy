// The model loader (src/model.h, src/model.cpp): reads a scene, walks its
// node tree depth first, converts every referenced mesh, resolves its
// material textures through the per-model cache, and draws the meshes.

module Models {
  import opened Records
  import opened Wrappers
  import opened Text
  import opened Scene
  import opened TextureCache
  import opened Import
  import opened Naming
  import opened Meshes
  import opened Gl
  import opened Layout

  /** `path.substr(0, path.find_last_of('/'))`: everything before the last
      '/', or the whole path when it has none. */
  function DirectoryOf(path: string): (d: string)
    ensures '/' !in path ==> d == path
    ensures '/' in path ==> |d| < |path| && path == d + "/" + path[|d| + 1..] && '/' !in path[|d| + 1..]
  {
    match LastIndexOf(path, '/')
    case None => path
    case Some(k) =>
      assert path == path[..k] + "/" + path[k + 1..];
      path[..k]
  }

  /** The vertex loop of `processMesh`: one vertex per position. */
  method CollectVertices(m: AiMesh, blank: Vertex) returns (vs: seq<Vertex>)
    requires WellFormedMesh(m)
    ensures vs == ConvertVertices(m, blank)
  {
    vs := [];
    var i := 0;
    while i < |m.positions|
      invariant 0 <= i <= |m.positions|
      invariant vs == ConvertFirst(m, i, blank)
    {
      var vertex := blank;
      vertex := vertex.(Position := m.positions[i]);
      if m.normals.Some? {
        vertex := vertex.(Normal := m.normals.value[i]);
      }
      if m.uvs.Some? {
        vertex := vertex.(TexCoords := Vec2(m.uvs.value[i].x, m.uvs.value[i].y));
        vertex := vertex.(Tangent := m.tangents[i]);
        vertex := vertex.(BiTangent := m.bitangents[i]);
      } else {
        vertex := vertex.(TexCoords := Vec2Zero);
      }
      vs := vs + [vertex];
      i := i + 1;
    }
  }

  /** The index loop of `processMesh`: the indices of every face, face by
      face. */
  method CollectIndices(faces: seq<seq<U32>>) returns (indices: seq<U32>)
    ensures indices == FlattenFaces(faces)
  {
    indices := [];
    var i := 0;
    while i < |faces|
      invariant 0 <= i <= |faces|
      invariant indices == FlattenFaces(faces[..i])
    {
      var j := 0;
      while j < |faces[i]|
        invariant 0 <= j <= |faces[i]|
        invariant indices == FlattenFaces(faces[..i]) + faces[i][..j]
      {
        indices := indices + [faces[i][j]];
        j := j + 1;
      }
      assert faces[..i + 1][..i] == faces[..i];
      i := i + 1;
    }
    assert faces[..i] == faces;
  }

  /** `textureFromFile`: generate a texture name, read the image file
      `directory + '/' + fName` and, when it reads, bind the texture on the
      active unit and fill it with the image. */
  method TextureFromFile(fName: string, directory: string, ctx: GlContext) returns (id: nat)
    modifies ctx`nextTexture, ctx`imageReads, ctx`unitTextures, ctx`textureImages
    ensures id == old(ctx.nextTexture) && ctx.nextTexture == id + 1
    ensures ctx.imageReads == old(ctx.imageReads) + [ImagePath(directory, fName)]
    ensures TexState(ctx.unitTextures, ctx.textureImages)
         == Upload(TexState(old(ctx.unitTextures), old(ctx.textureImages)), ctx.activeUnit, ctx.readable,
                   ImagePath(directory, fName), id)
  {
    id := ctx.GenTexture();
    var path := directory + "/" + fName;
    var data := ctx.ReadImage(path);
    if data {
      ctx.BindTexture(id);
      ctx.TexImage(path);
    }
  }

  /** The contents of a sequence of meshes. */
  function Contents(ms: seq<Mesh>): (r: seq<MeshData>)
    ensures |r| == |ms|
  {
    if ms == [] then [] else Contents(ms[..|ms| - 1]) + [ms[|ms| - 1].Data()]
  }

  /** Every mesh of `ms` has its GPU objects in place in `ctx`. */
  predicate AllSetUp(ms: seq<Mesh>, o: Objects)
  {
    forall k :: 0 <= k < |ms| ==> ms[k].SetUpIn(o)
  }

  /** Appending a set-up mesh keeps all set up. */
  lemma AllSetUpSnoc(ms: seq<Mesh>, m: Mesh, o: Objects)
    requires AllSetUp(ms, o) && m.SetUpIn(o)
    ensures AllSetUp(ms + [m], o)
  {
  }

  /** Meshes set up among `o` all stay set up across a change that keeps
      the earlier objects. */
  lemma AllSetUpKept(ms: seq<Mesh>, o: Objects, o': Objects)
    requires AllSetUp(ms, o) && Keeps(o, o')
    ensures AllSetUp(ms, o')
  {
    forall k | 0 <= k < |ms| ensures ms[k].SetUpIn(o') {
      KeptSetUp(ms[k], o, o');
    }
  }

  /** The draw calls of drawing `ms` in order, one per mesh. */
  function DrawLog(ms: seq<Mesh>): (r: seq<DrawCall>)
    ensures |r| == |ms|
  {
    if ms == [] then []
    else
      var m := ms[|ms| - 1];
      DrawLog(ms[..|ms| - 1]) + [DrawCall(Triangles, |m.indices| % U32Modulus, m.vao)]
  }

  /** The sampler uniforms after drawing `ms` in order with every counter
      starting at 1. */
  function UniformsAfter(u: map<string, int>, ms: seq<Mesh>): map<string, int>
  {
    if ms == [] then u
    else ApplyUniforms(UniformsAfter(u, ms[..|ms| - 1]), SamplerNames(ms[|ms| - 1].textures, FromOne))
  }

  /** The texture units after drawing `ms` in order. */
  function UnitsAfter(units: map<nat, nat>, ms: seq<Mesh>): map<nat, nat>
  {
    if ms == [] then units else BindUnits(UnitsAfter(units, ms[..|ms| - 1]), ms[|ms| - 1].textures)
  }

  /** Draw call k is mesh k's: its index count, wrapped to 32 unsigned
      bits as `static_cast<unsigned int>` wraps it, and its vertex array. */
  lemma {:induction false} DrawLogAt(ms: seq<Mesh>, k: nat)
    requires k < |ms|
    ensures DrawLog(ms)[k] == DrawCall(Triangles, |ms[k].indices| % U32Modulus, ms[k].vao)
  {
    if k < |ms| - 1 {
      DrawLogAt(ms[..|ms| - 1], k);
    }
  }

  /** With every mesh set up, draw call k uses a vertex array whose element
      buffer holds exactly mesh k's indices. */
  lemma DrawnBuffers(ms: seq<Mesh>, o: Objects, k: nat)
    requires AllSetUp(ms, o) && k < |ms|
    ensures DrawLog(ms)[k].vao in o.elementBuffers
    ensures o.elementBuffers[DrawLog(ms)[k].vao] in o.bufferSizes
    ensures o.bufferSizes[o.elementBuffers[DrawLog(ms)[k].vao]] == |ms[k].indices| * IndexBytes
  {
    DrawLogAt(ms, k);
    assert ms[k].SetUpIn(o);
  }

  /** Drawing one more mesh extends the draw log, the uniforms and the
      units by that mesh's. */
  lemma DrawStep(ms: seq<Mesh>, i: nat, u: map<string, int>, units: map<nat, nat>)
    requires i < |ms|
    ensures DrawLog(ms[..i + 1]) == DrawLog(ms[..i]) + [DrawCall(Triangles, |ms[i].indices| % U32Modulus, ms[i].vao)]
    ensures UniformsAfter(u, ms[..i + 1]) == ApplyUniforms(UniformsAfter(u, ms[..i]), SamplerNames(ms[i].textures, FromOne))
    ensures UnitsAfter(units, ms[..i + 1]) == BindUnits(UnitsAfter(units, ms[..i]), ms[i].textures)
  {
    assert ms[..i + 1][..i] == ms[..i];
  }

  /** Since cache `c0`, exactly the records the cache `c` gained have had
      their image files read, in order, after `log0`, and uploaded on
      `unit` over the texture state `g0`. */
  predicate TraceHolds(c0: seq<Texture>, c: seq<Texture>, directory: string, unit: nat, readable: set<string>,
                       log0: seq<string>, log: seq<string>, g0: TexState, g: TexState)
  {
    && |c0| <= |c| && c[..|c0|] == c0
    && log == log0 + ImagePaths(directory, Added(c0, c))
    && g == UploadAll(g0, unit, directory, readable, Added(c0, c))
  }

  /** A cache miss adds one record, one image read and one upload, which
      keeps the trace. */
  lemma TraceMiss(c0: seq<Texture>, c: seq<Texture>, tex: Texture, directory: string, unit: nat,
                  readable: set<string>, log0: seq<string>, log: seq<string>, g0: TexState, g: TexState)
    requires TraceHolds(c0, c, directory, unit, readable, log0, log, g0, g)
    ensures TraceHolds(c0, c + [tex], directory, unit, readable, log0, log + [ImagePath(directory, tex.fName)],
                       g0, Upload(g, unit, readable, ImagePath(directory, tex.fName), tex.id))
  {
    var a := Added(c0, c);
    assert Added(c0, c + [tex]) == a + [tex];
    assert (a + [tex])[..|a|] == a;
    assert (c + [tex])[..|c0|] == c[..|c0|];
  }

  /** Appending a mesh appends its contents. */
  lemma ContentsSnoc(ms: seq<Mesh>, m: Mesh)
    ensures Contents(ms + [m]) == Contents(ms) + [m.Data()]
  {
    assert (ms + [m])[..|ms|] == ms;
  }

  /** `Model`: the meshes built so far, the directory textures are read
      from, and the cache of loaded textures; the ghost fields hold the
      cache, the image reads and the texture state when the current load
      started. */
  class Model {
    var meshes: seq<Mesh>
    var directory: string
    var texturesLoaded: seq<Texture>
    /** The cache, the image reads and the texture state when the current
        `loadModel` started. */
    ghost var cacheBefore: seq<Texture>
    ghost var readsBefore: seq<string>
    ghost var gpuBefore: TexState

    /** The loader state the model and the context hold. */
    function State(ctx: GlContext): Loader
      reads this`meshes, this`texturesLoaded, ctx`nextTexture
    {
      Loader(Contents(meshes), texturesLoaded, ctx.nextTexture)
    }

    /** The context can hand out object names and every mesh is set up. */
    predicate Valid(ctx: GlContext)
      reads this`meshes, ctx`nextVao, ctx`nextBuffer, ctx`elementBuffers, ctx`bufferSizes, ctx`attribs, ctx`enabledAttribs
    {
      0 < ctx.nextVao && 0 < ctx.nextBuffer && AllSetUp(meshes, ObjectsOf(ctx))
    }

    /** Since loading started, the cache has only grown, and exactly the
        records it gained have had their image files read, in order, and
        uploaded on the active unit. */
    ghost predicate Traced(ctx: GlContext)
      reads this`texturesLoaded, this`directory, this`cacheBefore, this`readsBefore, this`gpuBefore
      reads ctx`imageReads, ctx`unitTextures, ctx`textureImages, ctx`activeUnit
    {
      TraceHolds(cacheBefore, texturesLoaded, directory, ctx.activeUnit, ctx.readable,
                 readsBefore, ctx.imageReads, gpuBefore, TexState(ctx.unitTextures, ctx.textureImages))
    }

    /** The cache search of `loadMaterialTextures`: the first loaded record
        whose file name equals `name` (`strcmp` on strings without NUL). */
    method SearchLoaded(name: string) returns (hit: Option<nat>)
      ensures hit == FindCached(texturesLoaded, name)
    {
      hit := None;
      var j := 0;
      while j < |texturesLoaded|
        invariant 0 <= j <= |texturesLoaded|
        invariant forall k :: 0 <= k < j ==> texturesLoaded[k].fName != name
      {
        if texturesLoaded[j].fName == name {
          FirstMatch(texturesLoaded, name, j);
          hit := Some(j);
          break;
        }
        j := j + 1;
      }
    }

    /** One path of `loadMaterialTextures`: a hit reuses the cached record;
        a miss loads the file under a fresh texture name and caches a new
        record tagged `typeName`. */
    method LoadOne(texFPath: string, typeName: string, ctx: GlContext) returns (tex: Texture)
      requires Traced(ctx)
      modifies this`texturesLoaded, ctx`nextTexture, ctx`imageReads, ctx`unitTextures, ctx`textureImages
      ensures Traced(ctx)
      ensures FindCached(old(texturesLoaded), texFPath).Some? ==>
        && tex == old(texturesLoaded)[FindCached(old(texturesLoaded), texFPath).value]
        && texturesLoaded == old(texturesLoaded) && ctx.nextTexture == old(ctx.nextTexture)
        && ctx.imageReads == old(ctx.imageReads) && ctx.unitTextures == old(ctx.unitTextures)
        && ctx.textureImages == old(ctx.textureImages)
      ensures FindCached(old(texturesLoaded), texFPath).None? ==>
        && tex == Texture(old(ctx.nextTexture), typeName, texFPath)
        && texturesLoaded == old(texturesLoaded) + [tex] && ctx.nextTexture == old(ctx.nextTexture) + 1
        && ctx.imageReads == old(ctx.imageReads) + [ImagePath(directory, texFPath)]
        && TexState(ctx.unitTextures, ctx.textureImages)
           == Upload(TexState(old(ctx.unitTextures), old(ctx.textureImages)), ctx.activeUnit, ctx.readable,
                     ImagePath(directory, texFPath), tex.id)
    {
      var hit := SearchLoaded(texFPath);
      if hit.Some? {
        tex := texturesLoaded[hit.value];
      } else {
        ghost var log, g := ctx.imageReads, TexState(ctx.unitTextures, ctx.textureImages);
        var id := TextureFromFile(texFPath, directory, ctx);
        tex := Texture(id, typeName, texFPath);
        TraceMiss(cacheBefore, texturesLoaded, tex, directory, ctx.activeUnit, ctx.readable, readsBefore, log, gpuBefore, g);
        texturesLoaded := texturesLoaded + [tex];
      }
    }

    /** `loadMaterialTextures`: one texture per path of the slot, reusing
        the first cached record with the same file name and otherwise
        loading the file and caching a new record tagged `typeName`. */
    method LoadMaterialTextures(paths: seq<string>, typeName: string, ctx: GlContext) returns (textures: seq<Texture>)
      requires Traced(ctx)
      modifies this`texturesLoaded, ctx`nextTexture, ctx`imageReads, ctx`unitTextures, ctx`textureImages
      ensures Traced(ctx)
      ensures Resolve(old(texturesLoaded), paths, typeName, old(ctx.nextTexture))
           == Resolved(textures, texturesLoaded, ctx.nextTexture)
    {
      ghost var c0, n0 := texturesLoaded, ctx.nextTexture;
      textures := [];
      var i := 0;
      while i < |paths|
        invariant 0 <= i <= |paths|
        invariant Traced(ctx)
        invariant Resolve(c0, paths[..i], typeName, n0) == Resolved(textures, texturesLoaded, ctx.nextTexture)
      {
        assert paths[..i + 1][..i] == paths[..i];
        assert Resolve(c0, paths[..i + 1], typeName, n0)
            == ResolveOne(Resolve(c0, paths[..i], typeName, n0), paths[i], typeName);
        var tex := LoadOne(paths[i], typeName, ctx);
        textures := textures + [tex];
        i := i + 1;
      }
      assert paths[..i] == paths;
    }

    /** The texture part of `processMesh`: the diffuse, specular and
        height slots of the material, in that order, height maps tagged
        as normal maps. */
    method LoadTextures(mat: Material, ctx: GlContext) returns (textures: seq<Texture>)
      requires Traced(ctx)
      modifies this`texturesLoaded, ctx`nextTexture, ctx`imageReads, ctx`unitTextures, ctx`textureImages
      ensures Traced(ctx)
      ensures MaterialTextures(mat, old(texturesLoaded), old(ctx.nextTexture))
           == Resolved(textures, texturesLoaded, ctx.nextTexture)
    {
      ghost var c0, n0 := texturesLoaded, ctx.nextTexture;
      var diffuse := LoadMaterialTextures(mat.diffuse, DiffuseTag, ctx);
      ghost var d := Resolved(diffuse, texturesLoaded, ctx.nextTexture);
      var specular := LoadMaterialTextures(mat.specular, SpecularTag, ctx);
      ghost var sp := Resolved(specular, texturesLoaded, ctx.nextTexture);
      var normal := LoadMaterialTextures(mat.height, NormalTag, ctx);
      textures := diffuse + specular + normal;
      MaterialTexturesSteps(mat, c0, n0, d, sp, Resolved(normal, texturesLoaded, ctx.nextTexture));
    }

    /** `return Mesh(vertecies, indices, textures)`: a new mesh set up on
        the GPU under fresh names, which leaves the meshes already built
        set up. */
    method NewMesh(vertices: seq<Vertex>, indices: seq<U32>, textures: seq<Texture>, ctx: GlContext) returns (mesh: Mesh)
      requires Valid(ctx) && Traced(ctx)
      modifies ctx`nextVao, ctx`nextBuffer, ctx`boundVao, ctx`arrayBuffer, ctx`elementBuffers,
               ctx`bufferSizes, ctx`attribs, ctx`enabledAttribs
      ensures fresh(mesh) && mesh.Data() == MeshData(vertices, indices, textures)
      ensures mesh.SetUp(ctx) && Valid(ctx) && Traced(ctx)
      ensures Keeps(old(ObjectsOf(ctx)), ObjectsOf(ctx)) && ctx.boundVao == 0
    {
      ghost var o := ObjectsOf(ctx);
      mesh := new Mesh(vertices, indices, textures, ctx);
      AllSetUpKept(meshes, o, ObjectsOf(ctx));
    }

    /** The first three parts of `processMesh`: the vertices and indices
        of scene mesh `m`, then the textures of its material. */
    method MeshParts(m: AiMesh, scene: AiScene, ctx: GlContext, blank: Vertex)
      returns (vertices: seq<Vertex>, indices: seq<U32>, textures: seq<Texture>)
      requires WellFormedMesh(m) && m.materialIndex < |scene.materials|
      requires Traced(ctx)
      modifies this`texturesLoaded, ctx`nextTexture, ctx`imageReads, ctx`unitTextures, ctx`textureImages
      ensures Traced(ctx)
      ensures ImportMesh(old(State(ctx)), scene, m, blank)
           == Loader(Contents(meshes) + [MeshData(vertices, indices, textures)], texturesLoaded, ctx.nextTexture)
    {
      ghost var l0 := State(ctx);
      vertices := CollectVertices(m, blank);
      indices := CollectIndices(m.faces);
      textures := LoadTextures(scene.materials[m.materialIndex], ctx);
      ImportMeshFrom(l0, scene, m, blank, vertices, indices, Resolved(textures, texturesLoaded, ctx.nextTexture));
    }

    /** `processMesh`: the vertices, indices and textures of scene mesh
        `m`, then a new mesh set up on the GPU. */
    method ProcessMesh(m: AiMesh, scene: AiScene, ctx: GlContext, blank: Vertex) returns (mesh: Mesh)
      requires WellFormedMesh(m) && m.materialIndex < |scene.materials|
      requires Valid(ctx) && Traced(ctx)
      modifies this`texturesLoaded, ctx`nextTexture, ctx`imageReads, ctx`unitTextures, ctx`textureImages
      modifies ctx`nextVao, ctx`nextBuffer, ctx`boundVao, ctx`arrayBuffer, ctx`elementBuffers,
               ctx`bufferSizes, ctx`attribs, ctx`enabledAttribs
      ensures fresh(mesh) && mesh.SetUp(ctx) && Valid(ctx) && Traced(ctx)
      ensures Keeps(old(ObjectsOf(ctx)), ObjectsOf(ctx)) && ctx.boundVao == 0
      ensures ImportMesh(old(State(ctx)), scene, m, blank)
           == Loader(Contents(meshes) + [mesh.Data()], texturesLoaded, ctx.nextTexture)
    {
      ghost var o := ObjectsOf(ctx);
      var vertices, indices, textures := MeshParts(m, scene, ctx, blank);
      assert ObjectsOf(ctx) == o;
      mesh := NewMesh(vertices, indices, textures, ctx);
    }

    /** `meshes.push_back(mesh)` of a mesh set up on the GPU. */
    method Push(mesh: Mesh, ctx: GlContext)
      requires Valid(ctx) && Traced(ctx) && mesh.SetUp(ctx)
      modifies this`meshes
      ensures Valid(ctx) && Traced(ctx)
      ensures meshes == old(meshes) + [mesh] && Contents(meshes) == Contents(old(meshes)) + [mesh.Data()]
    {
      ContentsSnoc(meshes, mesh);
      AllSetUpSnoc(meshes, mesh, ObjectsOf(ctx));
      meshes := meshes + [mesh];
    }

    /** `meshes.push_back(processMesh(aiMesh, scene))` for reference `r`. */
    method AddMesh(r: nat, scene: AiScene, ctx: GlContext, blank: Vertex)
      requires WellFormedScene(scene) && r < |scene.meshes|
      requires Valid(ctx) && Traced(ctx)
      modifies this`meshes, this`texturesLoaded, ctx`nextTexture, ctx`imageReads, ctx`unitTextures, ctx`textureImages
      modifies ctx`nextVao, ctx`nextBuffer, ctx`boundVao, ctx`arrayBuffer, ctx`elementBuffers,
               ctx`bufferSizes, ctx`attribs, ctx`enabledAttribs
      ensures Valid(ctx) && Traced(ctx)
      ensures State(ctx) == ImportMesh(old(State(ctx)), scene, scene.meshes[r], blank)
      ensures Keeps(old(ObjectsOf(ctx)), ObjectsOf(ctx))
      ensures ctx.boundVao == 0
    {
      var mesh := ProcessMesh(scene.meshes[r], scene, ctx, blank);
      Push(mesh, ctx);
    }

    /** The invariant of the first loop of `processNode` once the first
        `i` references are done, from loader state `l0`, objects `o0` and
        bound vertex array `b0`. */
    ghost predicate RefsDone(refs: seq<nat>, i: nat, scene: AiScene, ctx: GlContext, blank: Vertex,
                             l0: Loader, o0: Objects, b0: nat)
      reads this`meshes, this`texturesLoaded, this`directory, this`cacheBefore, this`readsBefore, this`gpuBefore
      reads ctx`nextTexture, ctx`imageReads, ctx`unitTextures, ctx`textureImages, ctx`activeUnit
      reads ctx`nextVao, ctx`nextBuffer, ctx`boundVao, ctx`elementBuffers, ctx`bufferSizes, ctx`attribs, ctx`enabledAttribs
    {
      && WellFormedScene(scene) && i <= |refs| && RefsResolve(scene, refs[..i])
      && Valid(ctx) && Traced(ctx) && Keeps(o0, ObjectsOf(ctx))
      && State(ctx) == ImportAll(l0, scene, refs[..i], blank)
      && ctx.boundVao == if i == 0 then b0 else 0
    }

    /** The first loop of `processNode`: the meshes `refs` names, in
        order. */
    method ProcessRefs(refs: seq<nat>, scene: AiScene, ctx: GlContext, blank: Vertex)
      requires WellFormedScene(scene) && RefsResolve(scene, refs)
      requires Valid(ctx) && Traced(ctx)
      modifies this`meshes, this`texturesLoaded, ctx`nextTexture, ctx`imageReads, ctx`unitTextures, ctx`textureImages
      modifies ctx`nextVao, ctx`nextBuffer, ctx`boundVao, ctx`arrayBuffer, ctx`elementBuffers,
               ctx`bufferSizes, ctx`attribs, ctx`enabledAttribs
      ensures Valid(ctx) && Traced(ctx)
      ensures State(ctx) == ImportAll(old(State(ctx)), scene, refs, blank)
      ensures Keeps(old(ObjectsOf(ctx)), ObjectsOf(ctx))
      ensures ctx.boundVao == if refs == [] then old(ctx.boundVao) else 0
    {
      ghost var l0, o0, b0 := State(ctx), ObjectsOf(ctx), ctx.boundVao;
      var i := 0;
      while i < |refs|
        invariant 0 <= i <= |refs|
        invariant RefsDone(refs, i, scene, ctx, blank, l0, o0, b0)
      {
        AddRef(refs, i, scene, ctx, blank, l0, o0, b0);
        i := i + 1;
      }
      assert refs[..i] == refs;
    }

    /** The body of the first loop of `processNode`, for reference `i`. */
    method AddRef(refs: seq<nat>, i: nat, scene: AiScene, ctx: GlContext, blank: Vertex,
                  ghost l0: Loader, ghost o0: Objects, ghost b0: nat)
      requires RefsResolve(scene, refs) && i < |refs| && RefsDone(refs, i, scene, ctx, blank, l0, o0, b0)
      modifies this`meshes, this`texturesLoaded, ctx`nextTexture, ctx`imageReads, ctx`unitTextures, ctx`textureImages
      modifies ctx`nextVao, ctx`nextBuffer, ctx`boundVao, ctx`arrayBuffer, ctx`elementBuffers,
               ctx`bufferSizes, ctx`attribs, ctx`enabledAttribs
      ensures RefsDone(refs, i + 1, scene, ctx, blank, l0, o0, b0)
    {
      ImportAllSnoc(l0, scene, refs, i, blank);
      ghost var o := ObjectsOf(ctx);
      AddMesh(refs[i], scene, ctx, blank);
      KeepsTrans(o0, o, ObjectsOf(ctx));
    }

    /** The second loop of `processNode`: the subtree of each child of
        `node`, left to right. */
    method ProcessChildren(node: Node, scene: AiScene, ctx: GlContext, blank: Vertex)
      requires WellFormedScene(scene) && RefsResolve(scene, FlattenAll(node.children))
      requires Valid(ctx) && Traced(ctx)
      modifies this`meshes, this`texturesLoaded, ctx`nextTexture, ctx`imageReads, ctx`unitTextures, ctx`textureImages
      modifies ctx`nextVao, ctx`nextBuffer, ctx`boundVao, ctx`arrayBuffer, ctx`elementBuffers,
               ctx`bufferSizes, ctx`attribs, ctx`enabledAttribs
      ensures Valid(ctx) && Traced(ctx)
      ensures State(ctx) == ImportAll(old(State(ctx)), scene, FlattenAll(node.children), blank)
      ensures Keeps(old(ObjectsOf(ctx)), ObjectsOf(ctx))
      ensures ctx.boundVao == if FlattenAll(node.children) == [] then old(ctx.boundVao) else 0
      decreases node, 1
    {
      var children := node.children;
      ghost var l0, o0, b0 := State(ctx), ObjectsOf(ctx), ctx.boundVao;
      var j := 0;
      while j < |children|
        invariant 0 <= j <= |children|
        invariant ChildrenDone(node, j, scene, ctx, blank, l0, o0, b0)
      {
        ProcessChild(node, j, scene, ctx, blank, l0, o0, b0);
        j := j + 1;
      }
      assert children[..j] == children;
    }

    /** The invariant of the second loop of `processNode` once the first
        `j` children are done, from loader state `l0`, objects `o0` and
        bound vertex array `b0`. */
    ghost predicate ChildrenDone(node: Node, j: nat, scene: AiScene, ctx: GlContext, blank: Vertex,
                                 l0: Loader, o0: Objects, b0: nat)
      reads this`meshes, this`texturesLoaded, this`directory, this`cacheBefore, this`readsBefore, this`gpuBefore
      reads ctx`nextTexture, ctx`imageReads, ctx`unitTextures, ctx`textureImages, ctx`activeUnit
      reads ctx`nextVao, ctx`nextBuffer, ctx`boundVao, ctx`elementBuffers, ctx`bufferSizes, ctx`attribs, ctx`enabledAttribs
    {
      && WellFormedScene(scene) && j <= |node.children| && RefsResolve(scene, FlattenAll(node.children[..j]))
      && Valid(ctx) && Traced(ctx) && Keeps(o0, ObjectsOf(ctx))
      && State(ctx) == ImportAll(l0, scene, FlattenAll(node.children[..j]), blank)
      && ctx.boundVao == if |FlattenAll(node.children[..j])| == 0 then b0 else 0
    }

    /** The body of the second loop of `processNode`, for child `j`: the
        child's subtree extends what the children before it imported. */
    method ProcessChild(node: Node, j: nat, scene: AiScene, ctx: GlContext, blank: Vertex,
                        ghost l0: Loader, ghost o0: Objects, ghost b0: nat)
      requires RefsResolve(scene, FlattenAll(node.children))
      requires j < |node.children| && ChildrenDone(node, j, scene, ctx, blank, l0, o0, b0)
      modifies this`meshes, this`texturesLoaded, ctx`nextTexture, ctx`imageReads, ctx`unitTextures, ctx`textureImages
      modifies ctx`nextVao, ctx`nextBuffer, ctx`boundVao, ctx`arrayBuffer, ctx`elementBuffers,
               ctx`bufferSizes, ctx`attribs, ctx`enabledAttribs
      ensures ChildrenDone(node, j + 1, scene, ctx, blank, l0, o0, b0)
      decreases node, 0
    {
      var child := node.children[j];
      FlattenAllSplit(node.children, j + 1);
      ResolveSplit(scene, FlattenAll(node.children[..j + 1]), FlattenAll(node.children[j + 1..]));
      FlattenAllStep(node.children, j);
      ResolveSplit(scene, FlattenAll(node.children[..j]), Flatten(child));
      ghost var o := ObjectsOf(ctx);
      ProcessNode(child, scene, ctx, blank);
      KeepsTrans(o0, o, ObjectsOf(ctx));
      ImportAllAppend(l0, scene, FlattenAll(node.children[..j]), Flatten(child), blank);
    }

    /** `processNode`: the node's own meshes in order, then each child's
        subtree, left to right; so the meshes are imported in the pre-order
        of the tree. */
    method ProcessNode(node: Node, scene: AiScene, ctx: GlContext, blank: Vertex)
      requires WellFormedScene(scene) && RefsResolve(scene, Flatten(node))
      requires Valid(ctx) && Traced(ctx)
      modifies this`meshes, this`texturesLoaded, ctx`nextTexture, ctx`imageReads, ctx`unitTextures, ctx`textureImages
      modifies ctx`nextVao, ctx`nextBuffer, ctx`boundVao, ctx`arrayBuffer, ctx`elementBuffers,
               ctx`bufferSizes, ctx`attribs, ctx`enabledAttribs
      ensures Valid(ctx) && Traced(ctx)
      ensures State(ctx) == ImportAll(old(State(ctx)), scene, Flatten(node), blank)
      ensures Keeps(old(ObjectsOf(ctx)), ObjectsOf(ctx))
      ensures ctx.boundVao == if Flatten(node) == [] then old(ctx.boundVao) else 0
      decreases node, 2
    {
      ghost var l0, o0 := State(ctx), ObjectsOf(ctx);
      ResolveSplit(scene, node.meshRefs, FlattenAll(node.children));
      ProcessRefs(node.meshRefs, scene, ctx, blank);
      ghost var o := ObjectsOf(ctx);
      ProcessChildren(node, scene, ctx, blank);
      KeepsTrans(o0, o, ObjectsOf(ctx));
      ImportAllAppend(l0, scene, node.meshRefs, FlattenAll(node.children), blank);
    }

    /** `loadModel`: when the importer returned a complete scene with a
        root node, the model directory becomes the path up to its last
        '/', and the node tree is processed from the root; otherwise
        nothing changes. */
    method LoadModel(path: string, imported: Option<AiScene>, ctx: GlContext, blank: Vertex)
      requires Usable(imported) ==> WellFormedScene(imported.value)
      requires Valid(ctx)
      modifies this`meshes, this`directory, this`texturesLoaded, this`cacheBefore, this`readsBefore, this`gpuBefore
      modifies ctx`nextTexture, ctx`imageReads, ctx`unitTextures, ctx`textureImages
      modifies ctx`nextVao, ctx`nextBuffer, ctx`boundVao, ctx`arrayBuffer, ctx`elementBuffers,
               ctx`bufferSizes, ctx`attribs, ctx`enabledAttribs
      ensures Valid(ctx) && Keeps(old(ObjectsOf(ctx)), ObjectsOf(ctx))
      ensures !Usable(imported) ==> unchanged(this) && unchanged(ctx)
      ensures Usable(imported) ==>
                && directory == DirectoryOf(path)
                && RefsResolve(imported.value, Flatten(imported.value.root.value))
                && State(ctx) == ImportAll(old(State(ctx)), imported.value, Flatten(imported.value.root.value), blank)
                && ctx.boundVao == (if Flatten(imported.value.root.value) == [] then old(ctx.boundVao) else 0)
                && TraceHolds(old(texturesLoaded), texturesLoaded, directory, ctx.activeUnit, ctx.readable,
                              old(ctx.imageReads), ctx.imageReads,
                              old(TexState(ctx.unitTextures, ctx.textureImages)), TexState(ctx.unitTextures, ctx.textureImages))
    {
      if imported.None? || imported.value.flags & SceneFlagsIncomplete != 0 || imported.value.root.None? {
        return;
      }
      var scene := imported.value;
      cacheBefore, readsBefore, gpuBefore := texturesLoaded, ctx.imageReads, TexState(ctx.unitTextures, ctx.textureImages);
      directory := DirectoryOf(path);
      assert texturesLoaded[..|cacheBefore|] == cacheBefore;
      ResolveByMembers(scene, Flatten(scene.root.value));
      ProcessNode(scene.root.value, scene, ctx, blank);
    }

    /** `Model(path)`: an empty model that then loads `path`. */
    constructor (path: string, imported: Option<AiScene>, ctx: GlContext, blank: Vertex)
      requires Usable(imported) ==> WellFormedScene(imported.value)
      requires 0 < ctx.nextVao && 0 < ctx.nextBuffer
      modifies ctx`nextTexture, ctx`imageReads, ctx`unitTextures, ctx`textureImages
      modifies ctx`nextVao, ctx`nextBuffer, ctx`boundVao, ctx`arrayBuffer, ctx`elementBuffers,
               ctx`bufferSizes, ctx`attribs, ctx`enabledAttribs
      ensures Valid(ctx) && Keeps(old(ObjectsOf(ctx)), ObjectsOf(ctx))
      ensures ctx.boundVao == if meshes == [] then old(ctx.boundVao) else 0
      ensures !Usable(imported) ==> meshes == [] && directory == "" && texturesLoaded == [] && unchanged(ctx)
      ensures Usable(imported) ==>
                && directory == DirectoryOf(path)
                && RefsResolve(imported.value, Flatten(imported.value.root.value))
                && State(ctx) == ImportAll(Loader([], [], old(ctx.nextTexture)), imported.value,
                                           Flatten(imported.value.root.value), blank)
                && ctx.imageReads == old(ctx.imageReads) + ImagePaths(directory, texturesLoaded)
                && TexState(ctx.unitTextures, ctx.textureImages)
                   == UploadAll(old(TexState(ctx.unitTextures, ctx.textureImages)), ctx.activeUnit, directory,
                                ctx.readable, texturesLoaded)
    {
      meshes, directory, texturesLoaded := [], "", [];
      new;
      LoadModel(path, imported, ctx, blank);
      assert Added([], texturesLoaded) == texturesLoaded;
    }

    /** `Draw`: draws every mesh in order, each with its sampler counters
        starting at 1. */
    method Draw(ctx: GlContext)
      modifies ctx`activeUnit, ctx`uniforms, ctx`unitTextures, ctx`boundVao, ctx`draws
      ensures ctx.draws == old(ctx.draws) + DrawLog(meshes)
      ensures ctx.uniforms == UniformsAfter(old(ctx.uniforms), meshes)
      ensures ctx.unitTextures == UnitsAfter(old(ctx.unitTextures), meshes)
      ensures meshes != [] ==> ctx.activeUnit == 0 && ctx.boundVao == 0
      ensures meshes == [] ==> ctx.activeUnit == old(ctx.activeUnit) && ctx.boundVao == old(ctx.boundVao)
    {
      var i := 0;
      while i < |meshes|
        invariant 0 <= i <= |meshes|
        invariant ctx.draws == old(ctx.draws) + DrawLog(meshes[..i])
        invariant ctx.uniforms == UniformsAfter(old(ctx.uniforms), meshes[..i])
        invariant ctx.unitTextures == UnitsAfter(old(ctx.unitTextures), meshes[..i])
        invariant i > 0 ==> ctx.activeUnit == 0 && ctx.boundVao == 0
        invariant i == 0 ==> ctx.activeUnit == old(ctx.activeUnit) && ctx.boundVao == old(ctx.boundVao)
      {
        DrawStep(meshes, i, old(ctx.uniforms), old(ctx.unitTextures));
        meshes[i].Draw(ctx, 1, 1);
        i := i + 1;
      }
      assert meshes[..i] == meshes;
    }
  }
}
