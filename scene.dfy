// The imported scene as the core reads it (the parts of Assimp's `aiScene`,
// `aiNode`, `aiMesh` and `aiMaterial` that src/model.cpp touches), and the
// pure specifications of what the importer extracts from it: the pre-order
// list of mesh references, the converted vertices and the flattened indices.

module Scene {
  import opened Records
  import opened Wrappers

  /** `aiNode`: indices into the scene's mesh table, and child nodes. */
  datatype Node = Node(meshRefs: seq<nat>, children: seq<Node>)

  /** `aiMesh`. `normals` and `uvs` are None when the pointers `mNormals`
      and `mTextureCoords[0]` are null; each face is its `mIndices`. */
  datatype AiMesh = AiMesh(
    positions: seq<Vec3>,
    normals: Option<seq<Vec3>>,
    uvs: Option<seq<Vec3>>,
    tangents: seq<Vec3>,
    bitangents: seq<Vec3>,
    faces: seq<seq<U32>>,
    materialIndex: U32)

  /** `aiMaterial`: the texture paths of the diffuse, specular and height
      slots, as `GetTexture` yields them. */
  datatype Material = Material(diffuse: seq<string>, specular: seq<string>, height: seq<string>)

  /** `aiScene`. `root` is None when `mRootNode` is null. */
  datatype AiScene = AiScene(flags: bv32, root: Option<Node>, meshes: seq<AiMesh>, materials: seq<Material>)

  /** `AI_SCENE_FLAGS_INCOMPLETE`. */
  const SceneFlagsIncomplete: bv32 := 0x1

  /** What the loader checks before it uses a scene: `ReadFile` returned a
      scene (None models a null pointer), the incomplete flag is clear and
      there is a root node. */
  predicate Usable(imported: Option<AiScene>)
  {
    imported.Some? && imported.value.flags & SceneFlagsIncomplete == 0 && imported.value.root.Some?
  }

  /** What the importer guarantees about one mesh's arrays: normals and UVs
      cover every vertex when present, and tangents exist with the UVs. */
  predicate WellFormedMesh(m: AiMesh)
  {
    (m.normals.Some? ==> |m.normals.value| >= |m.positions|)
    && (m.uvs.Some? ==>
          |m.uvs.value| >= |m.positions| && |m.tangents| >= |m.positions| && |m.bitangents| >= |m.positions|)
  }

  /** Every face has three indices (the loader requests triangulation). */
  predicate Triangulated(faces: seq<seq<U32>>)
  {
    forall k :: 0 <= k < |faces| ==> |faces[k]| == 3
  }

  /** Every mesh reference and material index resolves. */
  predicate WellFormedScene(s: AiScene)
  {
    (forall k :: 0 <= k < |s.meshes| ==>
       WellFormedMesh(s.meshes[k]) && s.meshes[k].materialIndex < |s.materials|)
    && (s.root.Some? ==> forall r :: r in Flatten(s.root.value) ==> r < |s.meshes|)
  }

  // ---- scene flattening -------------------------------------------------

  /** The mesh references of a subtree in pre-order: the node's own, in
      order, then each child's subtree, left to right. */
  function Flatten(n: Node): seq<nat>
    decreases n
  {
    n.meshRefs + FlattenAll(n.children)
  }

  function FlattenAll(ns: seq<Node>): seq<nat>
    decreases ns
  {
    if ns == [] then [] else FlattenAll(ns[..|ns| - 1]) + Flatten(ns[|ns| - 1])
  }

  /** Number of mesh references held by the nodes of a subtree. */
  function RefCount(n: Node): nat
    decreases n
  {
    |n.meshRefs| + RefCountAll(n.children)
  }

  function RefCountAll(ns: seq<Node>): nat
    decreases ns
  {
    if ns == [] then 0 else RefCountAll(ns[..|ns| - 1]) + RefCount(ns[|ns| - 1])
  }

  /** `m` is a node of the subtree rooted at `n`. */
  ghost predicate InTree(m: Node, n: Node)
    decreases n
  {
    m == n || InForest(m, n.children)
  }

  ghost predicate InForest(m: Node, ns: seq<Node>)
    decreases ns
  {
    ns != [] && (InForest(m, ns[..|ns| - 1]) || InTree(m, ns[|ns| - 1]))
  }

  /** Flattening loses no reference and invents none: its length is the
      number of references in the subtree. */
  lemma {:induction false} FlattenCount(n: Node)
    ensures |Flatten(n)| == RefCount(n)
    decreases n, 1
  {
    FlattenAllCount(n.children);
  }

  lemma {:induction false} FlattenAllCount(ns: seq<Node>)
    ensures |FlattenAll(ns)| == RefCountAll(ns)
    decreases ns, 0
  {
    if ns != [] {
      FlattenAllCount(ns[..|ns| - 1]);
      FlattenCount(ns[|ns| - 1]);
    }
  }

  /** A reference is in the flattening exactly when some node of the
      subtree holds it. */
  lemma {:induction false} FlattenMembers(n: Node, r: nat)
    ensures r in Flatten(n) <==> exists m :: InTree(m, n) && r in m.meshRefs
    decreases n, 1
  {
    FlattenAllMembers(n.children, r);
    if r in n.meshRefs {
      assert InTree(n, n);
    }
    if exists m :: InTree(m, n) && r in m.meshRefs {
      var m :| InTree(m, n) && r in m.meshRefs;
      if m != n {
        assert InForest(m, n.children);
      }
    }
  }

  lemma {:induction false} FlattenAllMembers(ns: seq<Node>, r: nat)
    ensures r in FlattenAll(ns) <==> exists m :: InForest(m, ns) && r in m.meshRefs
    decreases ns, 0
  {
    if ns != [] {
      var init, last := ns[..|ns| - 1], ns[|ns| - 1];
      FlattenAllMembers(init, r);
      FlattenMembers(last, r);
      if r in FlattenAll(ns) {
        if r in FlattenAll(init) {
          var m :| InForest(m, init) && r in m.meshRefs;
          assert InForest(m, ns);
        } else {
          var m :| InTree(m, last) && r in m.meshRefs;
          assert InForest(m, ns);
        }
      }
      if exists m :: InForest(m, ns) && r in m.meshRefs {
        var m :| InForest(m, ns) && r in m.meshRefs;
        if InForest(m, init) {
          assert r in FlattenAll(init);
        } else {
          assert InTree(m, last);
          assert r in Flatten(last);
        }
      }
    }
  }

  /** Flattening a forest is flattening its first i trees, then the rest. */
  lemma {:induction false} FlattenAllSplit(ns: seq<Node>, i: nat)
    requires i <= |ns|
    ensures FlattenAll(ns) == FlattenAll(ns[..i]) + FlattenAll(ns[i..])
  {
    if i == |ns| {
      assert ns[..i] == ns && ns[i..] == [];
    } else {
      var init := ns[..|ns| - 1];
      FlattenAllSplit(init, i);
      assert init[..i] == ns[..i];
      assert ns[i..][..|ns[i..]| - 1] == init[i..];
    }
  }

  /** Flattening one more child appends that child's references. */
  lemma FlattenAllStep(ns: seq<Node>, i: nat)
    requires i < |ns|
    ensures FlattenAll(ns[..i + 1]) == FlattenAll(ns[..i]) + Flatten(ns[i])
  {
    assert ns[..i + 1][..i] == ns[..i];
  }

  // ---- mesh conversion --------------------------------------------------

  /** Vertex i of a mesh, starting from `blank`, the value a
      default-constructed `Vertex` holds. */
  function ConvertVertex(m: AiMesh, i: nat, blank: Vertex): Vertex
    requires WellFormedMesh(m) && i < |m.positions|
  {
    var normal := if m.normals.Some? then m.normals.value[i] else blank.Normal;
    if m.uvs.Some? then
      Vertex(m.positions[i], normal, Vec2(m.uvs.value[i].x, m.uvs.value[i].y), m.tangents[i], m.bitangents[i])
    else
      Vertex(m.positions[i], normal, Vec2Zero, blank.Tangent, blank.BiTangent)
  }

  /** The first n vertices of a mesh, in source order. */
  function ConvertFirst(m: AiMesh, n: nat, blank: Vertex): seq<Vertex>
    requires WellFormedMesh(m) && n <= |m.positions|
  {
    if n == 0 then [] else ConvertFirst(m, n - 1, blank) + [ConvertVertex(m, n - 1, blank)]
  }

  /** All vertices of a mesh, in source order. */
  function ConvertVertices(m: AiMesh, blank: Vertex): seq<Vertex>
    requires WellFormedMesh(m)
  {
    ConvertFirst(m, |m.positions|, blank)
  }

  /** There is one converted vertex per position, vertex i converted from
      position i. */
  lemma {:induction false} ConvertFirstAt(m: AiMesh, n: nat, blank: Vertex)
    requires WellFormedMesh(m) && n <= |m.positions|
    ensures |ConvertFirst(m, n, blank)| == n
    ensures forall i :: 0 <= i < n ==> ConvertFirst(m, n, blank)[i] == ConvertVertex(m, i, blank)
  {
    if n > 0 {
      ConvertFirstAt(m, n - 1, blank);
    }
  }

  /** The per-face index lists joined in face order. */
  function FlattenFaces(faces: seq<seq<U32>>): seq<U32>
  {
    if faces == [] then [] else FlattenFaces(faces[..|faces| - 1]) + faces[|faces| - 1]
  }

  /** Sum of `mNumIndices` over the faces. */
  function IndexTotal(faces: seq<seq<U32>>): nat
  {
    if faces == [] then 0 else IndexTotal(faces[..|faces| - 1]) + |faces[|faces| - 1]|
  }

  lemma {:induction false} FlattenFacesLength(faces: seq<seq<U32>>)
    ensures |FlattenFaces(faces)| == IndexTotal(faces)
  {
    if faces != [] {
      FlattenFacesLength(faces[..|faces| - 1]);
    }
  }

  /** With triangle faces the index list is a list of triples, triple k
      being face k. */
  lemma {:induction false} TrianglesFlatten(faces: seq<seq<U32>>, k: nat)
    requires Triangulated(faces) && k < |faces|
    ensures |FlattenFaces(faces)| == 3 * |faces|
    ensures FlattenFaces(faces)[3 * k .. 3 * k + 3] == faces[k]
  {
    var init := faces[..|faces| - 1];
    if k < |faces| - 1 {
      TrianglesFlatten(init, k);
    } else if init != [] {
      TrianglesFlatten(init, 0);
    }
  }

  /** Indices that each face keeps below the vertex count stay below it. */
  lemma {:induction false} FlattenFacesBounded(faces: seq<seq<U32>>, n: nat)
    requires forall f, j :: 0 <= f < |faces| && 0 <= j < |faces[f]| ==> faces[f][j] < n
    ensures forall j :: 0 <= j < |FlattenFaces(faces)| ==> FlattenFaces(faces)[j] < n
  {
    if faces != [] {
      FlattenFacesBounded(faces[..|faces| - 1], n);
    }
  }
}
