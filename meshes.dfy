// A renderable mesh (src/mesh.h, src/mesh.cpp): its vertex, index and
// texture sequences, the GPU objects `setupMesh` creates for them, and the
// draw call that binds its textures to consecutive units and names their
// samplers.

module Meshes {
  import opened Records
  import opened Layout
  import opened Naming
  import opened Gl
  import opened Text

  /** The attribute pointer the vertex layout prescribes for attribute k
      when the vertices are read from buffer `vbo`. */
  function AttribFor(k: nat, vbo: nat): Attrib
    requires k < AttributeCount
  {
    Attrib(Components(Fields[k]), Stride(), OffsetAt(k), vbo)
  }

  /** The attribute table after the five pointers of vertex array `vao`
      have been set to read buffer `vbo`. */
  function SetAttribs(attribs: map<(nat, nat), Attrib>, vao: nat, vbo: nat): map<(nat, nat), Attrib>
  {
    attribs[(vao, 0) := AttribFor(0, vbo)][(vao, 1) := AttribFor(1, vbo)][(vao, 2) := AttribFor(2, vbo)]
           [(vao, 3) := AttribFor(3, vbo)][(vao, 4) := AttribFor(4, vbo)]
  }

  /** The five attribute slots of a vertex array. */
  function AttribSlots(vao: nat): set<(nat, nat)>
  {
    {(vao, 0), (vao, 1), (vao, 2), (vao, 3), (vao, 4)}
  }

  /** The GPU objects of a mesh with `vertexCount` vertices and `indexCount`
      indices are in place: the vertex array records the element buffer,
      both buffers hold the data's byte size, and the five attributes are
      enabled and read the vertex buffer by the vertex layout. */
  predicate Installed(
    elementBuffers: map<nat, nat>, bufferSizes: map<nat, nat>,
    attribs: map<(nat, nat), Attrib>, enabled: set<(nat, nat)>,
    vao: nat, vbo: nat, ebo: nat, vertexCount: nat, indexCount: nat)
  {
    && vao in elementBuffers && elementBuffers[vao] == ebo
    && vbo in bufferSizes && bufferSizes[vbo] == vertexCount * Stride()
    && ebo in bufferSizes && bufferSizes[ebo] == indexCount * IndexBytes
    && (forall k :: 0 <= k < AttributeCount ==> (vao, k) in attribs && attribs[(vao, k)] == AttribFor(k, vbo))
    && AttribSlots(vao) <= enabled
  }

  /** Setting up a mesh in a context establishes its objects there. */
  lemma SetupInstalls(
    elementBuffers: map<nat, nat>, bufferSizes: map<nat, nat>,
    attribs: map<(nat, nat), Attrib>, enabled: set<(nat, nat)>,
    vao: nat, vbo: nat, ebo: nat, vertexCount: nat, indexCount: nat)
    requires vbo != ebo
    ensures Installed(elementBuffers[vao := ebo],
                      bufferSizes[vbo := vertexCount * Stride()][ebo := indexCount * IndexBytes],
                      SetAttribs(attribs, vao, vbo), enabled + AttribSlots(vao),
                      vao, vbo, ebo, vertexCount, indexCount)
  {
  }

  /** The part of the context that holds meshes' GPU objects: the name
      counters, the element buffer of each vertex array, buffer sizes and
      the attribute table. */
  datatype Objects = Objects(
    nextVao: nat, nextBuffer: nat, elementBuffers: map<nat, nat>, bufferSizes: map<nat, nat>,
    attribs: map<(nat, nat), Attrib>, enabled: set<(nat, nat)>)

  function ObjectsOf(ctx: GlContext): Objects
    reads ctx`nextVao, ctx`nextBuffer, ctx`elementBuffers, ctx`bufferSizes, ctx`attribs, ctx`enabledAttribs
  {
    Objects(ctx.nextVao, ctx.nextBuffer, ctx.elementBuffers, ctx.bufferSizes, ctx.attribs, ctx.enabledAttribs)
  }

  /** Vertex array `v`, if named in `o`, keeps its element buffer in `o'`. */
  predicate KeptArray(o: Objects, o': Objects, v: nat)
  {
    v < o.nextVao && v in o.elementBuffers ==> v in o'.elementBuffers && o'.elementBuffers[v] == o.elementBuffers[v]
  }

  /** Buffer `b`, if named in `o`, keeps its size in `o'`. */
  predicate KeptBuffer(o: Objects, o': Objects, b: nat)
  {
    b < o.nextBuffer && b in o.bufferSizes ==> b in o'.bufferSizes && o'.bufferSizes[b] == o.bufferSizes[b]
  }

  /** Attribute slot `s` of a vertex array named in `o` keeps its pointer
      and stays enabled in `o'`. */
  predicate KeptSlot(o: Objects, o': Objects, s: (nat, nat))
  {
    s.0 < o.nextVao ==>
      && (s in o.attribs ==> s in o'.attribs && o'.attribs[s] == o.attribs[s])
      && (s in o.enabled ==> s in o'.enabled)
  }

  /** Going from `o` to `o'` leaves every object named before alone: no
      name counter goes back, and every earlier vertex array, buffer and
      attribute slot keeps its state. */
  ghost predicate Keeps(o: Objects, o': Objects)
  {
    && o.nextVao <= o'.nextVao && o.nextBuffer <= o'.nextBuffer
    && (forall v :: KeptArray(o, o', v))
    && (forall b :: KeptBuffer(o, o', b))
    && (forall s :: KeptSlot(o, o', s))
  }

  lemma KeepsTrans(o1: Objects, o2: Objects, o3: Objects)
    requires Keeps(o1, o2) && Keeps(o2, o3)
    ensures Keeps(o1, o3)
  {
    forall v ensures KeptArray(o1, o3, v) {
      assert KeptArray(o1, o2, v) && KeptArray(o2, o3, v);
    }
    forall b ensures KeptBuffer(o1, o3, b) {
      assert KeptBuffer(o1, o2, b) && KeptBuffer(o2, o3, b);
    }
    forall s ensures KeptSlot(o1, o3, s) {
      assert KeptSlot(o1, o2, s) && KeptSlot(o2, o3, s);
    }
  }

  /** A mesh set up among `o` stays set up across any change that keeps
      the earlier objects. */
  lemma KeptSetUp(m: Mesh, o: Objects, o': Objects)
    requires m.SetUpIn(o) && Keeps(o, o')
    ensures m.SetUpIn(o')
  {
    assert KeptArray(o, o', m.vao) && KeptBuffer(o, o', m.vbo) && KeptBuffer(o, o', m.ebo);
    forall k | 0 <= k < AttributeCount
      ensures (m.vao, k) in o'.attribs && o'.attribs[(m.vao, k)] == AttribFor(k, m.vbo)
    {
      assert KeptSlot(o, o', (m.vao, k));
    }
    forall s | s in AttribSlots(m.vao) ensures s in o'.enabled {
      assert KeptSlot(o, o', s);
    }
  }

  /** Binds texture i of `ts` to unit i, in order. */
  function BindUnits(units: map<nat, nat>, ts: seq<Texture>): map<nat, nat>
  {
    if ts == [] then units else BindUnits(units, ts[..|ts| - 1])[|ts| - 1 := ts[|ts| - 1].id]
  }

  /** Afterwards unit i holds texture i of `ts`, and units past the last
      texture keep what they held. */
  lemma {:induction false} BindUnitsValues(units: map<nat, nat>, ts: seq<Texture>, unit: nat)
    ensures unit < |ts| ==> unit in BindUnits(units, ts) && BindUnits(units, ts)[unit] == ts[unit].id
    ensures unit >= |ts| ==> (unit in BindUnits(units, ts) <==> unit in units)
    ensures unit >= |ts| && unit in units ==> BindUnits(units, ts)[unit] == units[unit]
  {
    if ts != [] {
      var init := ts[..|ts| - 1];
      BindUnitsValues(units, init, unit);
    }
  }

  lemma BindUnitsStep(units: map<nat, nat>, ts: seq<Texture>, i: nat)
    requires i < |ts|
    ensures BindUnits(units, ts[..i + 1]) == BindUnits(units, ts[..i])[i := ts[i].id]
  {
    assert ts[..i + 1][..i] == ts[..i];
  }

  class Mesh {
    const vertices: seq<Vertex>
    const indices: seq<U32>
    const textures: seq<Texture>
    const vao: nat
    const vbo: nat
    const ebo: nat

    function Data(): MeshData
    {
      MeshData(vertices, indices, textures)
    }

    /** This mesh's objects exist among `o` and are in place. */
    predicate SetUpIn(o: Objects)
    {
      && 0 < vao < o.nextVao && 0 < vbo < o.nextBuffer && 0 < ebo < o.nextBuffer && vbo != ebo
      && Installed(o.elementBuffers, o.bufferSizes, o.attribs, o.enabled, vao, vbo, ebo, |vertices|, |indices|)
    }

    /** This mesh's objects exist in `ctx` and are in place. */
    predicate SetUp(ctx: GlContext)
      reads ctx`nextVao, ctx`nextBuffer, ctx`elementBuffers, ctx`bufferSizes, ctx`attribs, ctx`enabledAttribs
    {
      SetUpIn(ObjectsOf(ctx))
    }

    /** `Mesh(vertices, indices, textures)`: stores the data and sets up its
        GPU objects. */
    constructor (vertices: seq<Vertex>, indices: seq<U32>, textures: seq<Texture>, ctx: GlContext)
      requires 0 < ctx.nextVao && 0 < ctx.nextBuffer
      modifies ctx`nextVao, ctx`nextBuffer, ctx`boundVao, ctx`arrayBuffer, ctx`elementBuffers,
               ctx`bufferSizes, ctx`attribs, ctx`enabledAttribs
      ensures Data() == MeshData(vertices, indices, textures)
      ensures vao == old(ctx.nextVao) && ctx.nextVao == vao + 1
      ensures vbo == old(ctx.nextBuffer) && ebo == vbo + 1 && ctx.nextBuffer == ebo + 1
      ensures ctx.boundVao == 0 && ctx.arrayBuffer == vbo
      ensures ctx.elementBuffers == old(ctx.elementBuffers)[vao := ebo]
      ensures ctx.bufferSizes == old(ctx.bufferSizes)[vbo := |vertices| * Stride()][ebo := |indices| * IndexBytes]
      ensures ctx.attribs == SetAttribs(old(ctx.attribs), vao, vbo)
      ensures ctx.enabledAttribs == old(ctx.enabledAttribs) + AttribSlots(vao)
      ensures SetUp(ctx)
      ensures Keeps(old(ObjectsOf(ctx)), ObjectsOf(ctx))
    {
      this.vertices := vertices;
      this.indices := indices;
      this.textures := textures;
      var vao, vbo, ebo := SetupMesh(ctx, vertices, indices);
      this.vao, this.vbo, this.ebo := vao, vbo, ebo;
    }

    /** `glEnableVertexAttribArray(k)` followed by the pointer of attribute
        k as the vertex layout describes it. */
    static method EnableAttribute(ctx: GlContext, k: nat)
      requires k < AttributeCount
      modifies ctx`enabledAttribs, ctx`attribs
      ensures ctx.enabledAttribs == old(ctx.enabledAttribs) + {(ctx.boundVao, k)}
      ensures ctx.attribs == old(ctx.attribs)[(ctx.boundVao, k) := AttribFor(k, ctx.arrayBuffer)]
    {
      ctx.EnableAttrib(k);
      ctx.AttribPointer(k, Components(Fields[k]), Stride(), OffsetAt(k));
    }

    /** The five attribute pointers of the bound vertex array, then the
        vertex array is unbound. */
    static method DescribeVertices(ctx: GlContext)
      modifies ctx`enabledAttribs, ctx`attribs, ctx`boundVao
      ensures ctx.enabledAttribs == old(ctx.enabledAttribs) + AttribSlots(old(ctx.boundVao))
      ensures ctx.attribs == SetAttribs(old(ctx.attribs), old(ctx.boundVao), ctx.arrayBuffer)
      ensures ctx.boundVao == 0
    {
      EnableAttribute(ctx, 0);
      EnableAttribute(ctx, 1);
      EnableAttribute(ctx, 2);
      EnableAttribute(ctx, 3);
      EnableAttribute(ctx, 4);
      ctx.BindVertexArray(0);
    }

    /** The first part of `setupMesh`: generate the vertex array and the two
        buffers, bind them and fill them with the given byte counts. */
    static method CreateBuffers(ctx: GlContext, vertexBytes: nat, indexBytes: nat) returns (vao: nat, vbo: nat, ebo: nat)
      modifies ctx`nextVao, ctx`nextBuffer, ctx`boundVao, ctx`arrayBuffer, ctx`elementBuffers, ctx`bufferSizes
      ensures vao == old(ctx.nextVao) && ctx.nextVao == vao + 1
      ensures vbo == old(ctx.nextBuffer) && ebo == vbo + 1 && ctx.nextBuffer == ebo + 1
      ensures ctx.boundVao == vao && ctx.arrayBuffer == vbo
      ensures ctx.elementBuffers == old(ctx.elementBuffers)[vao := ebo]
      ensures ctx.bufferSizes == old(ctx.bufferSizes)[vbo := vertexBytes][ebo := indexBytes]
    {
      vao := ctx.GenVertexArray();
      vbo := ctx.GenBuffer();
      ebo := ctx.GenBuffer();

      ctx.BindVertexArray(vao);
      ctx.BindArrayBuffer(vbo);
      ctx.ArrayBufferData(vertexBytes);

      ctx.BindElementBuffer(ebo);
      ctx.ElementBufferData(indexBytes);
    }

    /** `setupMesh`: one vertex array, one vertex buffer and one element
        buffer, filled with the mesh's data and described by the vertex
        layout, then the vertex array is unbound. It runs while the mesh is
        being built, so it takes the data and returns the names. */
    static method SetupMesh(ctx: GlContext, vertices: seq<Vertex>, indices: seq<U32>) returns (vao: nat, vbo: nat, ebo: nat)
      requires 0 < ctx.nextVao && 0 < ctx.nextBuffer
      modifies ctx`nextVao, ctx`nextBuffer, ctx`boundVao, ctx`arrayBuffer, ctx`elementBuffers,
               ctx`bufferSizes, ctx`attribs, ctx`enabledAttribs
      ensures vao == old(ctx.nextVao) && ctx.nextVao == vao + 1
      ensures vbo == old(ctx.nextBuffer) && ebo == vbo + 1 && ctx.nextBuffer == ebo + 1
      ensures ctx.boundVao == 0 && ctx.arrayBuffer == vbo
      ensures ctx.elementBuffers == old(ctx.elementBuffers)[vao := ebo]
      ensures ctx.bufferSizes == old(ctx.bufferSizes)[vbo := |vertices| * Stride()][ebo := |indices| * IndexBytes]
      ensures ctx.attribs == SetAttribs(old(ctx.attribs), vao, vbo)
      ensures ctx.enabledAttribs == old(ctx.enabledAttribs) + AttribSlots(vao)
      ensures Installed(ctx.elementBuffers, ctx.bufferSizes, ctx.attribs, ctx.enabledAttribs,
                        vao, vbo, ebo, |vertices|, |indices|)
    {
      vao, vbo, ebo := CreateBuffers(ctx, |vertices| * Stride(), |indices| * IndexBytes);
      DescribeVertices(ctx);
      SetupInstalls(old(ctx.elementBuffers), old(ctx.bufferSizes), old(ctx.attribs), old(ctx.enabledAttribs),
                    vao, vbo, ebo, |vertices|, |indices|);
    }

    /** One iteration of the texture loop of `Draw`: activate unit `unit`,
        point the texture's sampler uniform at it, advancing the counter of
        the texture's kind, and bind the texture there. */
    static method BindSampler(ctx: GlContext, t: Texture, unit: nat, c: Counters) returns (next: Counters)
      modifies ctx`activeUnit, ctx`uniforms, ctx`unitTextures
      ensures next == Advance(c, t.kind)
      ensures ctx.activeUnit == unit
      ensures ctx.uniforms == old(ctx.uniforms)[NameFor(t.kind, c) := unit]
      ensures ctx.unitTextures == old(ctx.unitTextures)[unit := t.id]
    {
      ctx.ActiveTexture(unit);
      var name := t.kind;
      var number := "";
      next := c;
      if name == DiffuseTag {
        number := DecimalString(next.diffuse);
        next := next.(diffuse := Increment(next.diffuse));
      } else if name == SpecularTag {
        number := DecimalString(next.specular);
        next := next.(specular := Increment(next.specular));
      } else if name == NormalTag {
        number := DecimalString(next.normal);
        next := next.(normal := Increment(next.normal));
      }
      ctx.SetInt(name + number, unit);
      ctx.BindTexture(t.id);
    }

    /** `Draw`: texture i goes to unit i and its sampler uniform, named by
        the counters started at `diffuseStart`, `specularStart` and 1, is
        set to i; then the mesh's indices are drawn as triangles. The two
        start values are parameters because the source leaves them
        uninitialised. */
    method Draw(ctx: GlContext, diffuseStart: U32, specularStart: U32)
      modifies ctx`activeUnit, ctx`uniforms, ctx`unitTextures, ctx`boundVao, ctx`draws
      ensures ctx.uniforms == ApplyUniforms(old(ctx.uniforms), SamplerNames(textures, Counters(diffuseStart, specularStart, 1)))
      ensures ctx.unitTextures == BindUnits(old(ctx.unitTextures), textures)
      ensures ctx.activeUnit == 0 && ctx.boundVao == 0
      ensures ctx.draws == old(ctx.draws) + [DrawCall(Triangles, |indices| % U32Modulus, vao)]
    {
      var c0 := Counters(diffuseStart, specularStart, 1);
      var c := c0;
      var i := 0;
      while i < |textures|
        invariant 0 <= i <= |textures|
        invariant c == CountersAfter(textures[..i], c0)
        invariant ctx.uniforms == ApplyUniforms(old(ctx.uniforms), SamplerNames(textures[..i], c0))
        invariant ctx.unitTextures == BindUnits(old(ctx.unitTextures), textures[..i])
        invariant ctx.draws == old(ctx.draws)
      {
        NamePrefixStep(textures, c0, i);
        BindUnitsStep(old(ctx.unitTextures), textures, i);
        ApplyUniformsSnoc(old(ctx.uniforms), SamplerNames(textures[..i], c0), NameFor(textures[i].kind, c));
        c := BindSampler(ctx, textures[i], i, c);
        i := i + 1;
      }
      assert textures[..i] == textures;
      ctx.BindVertexArray(vao);
      ctx.DrawElements(|indices| % U32Modulus);
      ctx.BindVertexArray(0);
      ctx.ActiveTexture(0);
    }
  }
}
