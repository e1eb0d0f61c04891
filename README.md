# Model loader and mesh renderer

This project models the core of a small OpenGL renderer, in Dafny. The core
loads a 3D model through Assimp and stores it as a list of meshes. Each mesh
holds its vertices, its triangle indices and its textures, and owns one
vertex array, one vertex buffer and one element buffer on the GPU. Textures
are read from image files next to the model file. A per-model cache
(`texturesLoaded`) makes a file that several materials use load only once.
To draw, the renderer binds each mesh's textures to consecutive texture
units, points the shader's sampler uniforms (`texture_diffuse1`,
`texture_specular1`, ...) at those units, and issues one indexed triangle
draw per mesh.

The modules:

- `Records` (records.dfy) holds the plain data of src/mesh.h: `Vertex`, `Texture`, the mesh contents and the three texture tags. `Wrappers` holds `Option`.
- `Layout` (layout.dfy) is the memory layout of `Vertex`: field offsets, the stride, and the five attribute pointers that read it.
- `Text` (text.dfy) holds `std::to_string` of an unsigned number and `find_last_of`.
- `Naming` (naming.dfy) is how `Mesh::Draw` names sampler uniforms. It keeps per-kind counters and shows what the shader's integer uniforms hold after the calls.
- `Gl` (gl.dfy) is the OpenGL state the core drives, as a class `GlContext`. Its fields are the texture units, uniforms, bindings, buffers, attribute pointers, the draw log and the image files read. Each GL call becomes a method. `stbi_load` is `ReadImage`. Whether an image file exists and decodes is the context's constant set `readable`.
- `Scene` (scene.dfy) is the part of Assimp's `aiScene`, `aiNode`, `aiMesh` and `aiMaterial` that the loader reads. It also holds the pure specifications of the node walk (pre-order flattening), of vertex conversion and of index flattening.
- `TextureCache` (texture_cache.dfy) specifies `loadMaterialTextures` over a sequence of paths as the function `Resolve`, and proves the cache's properties.
- `Import` (import_spec.dfy) specifies a whole import as the function `ImportAll`, a fold of `processMesh` over the pre-order mesh references. It also holds the cache invariants an import keeps and the GPU effect of the texture uploads.
- `Meshes` (meshes.dfy) holds the class `Mesh`: its constructor, `setupMesh` and `Draw`.
- `Models` (model.dfy) holds the class `Model`: `loadModel`, `processNode`, `processMesh`, `loadMaterialTextures`, `textureFromFile`, `Draw` and the constructor.

The methods of `Model` are proved against `ImportAll`. After a load, the
model's meshes, its texture cache and the context's next texture name are
exactly what `ImportAll` computes from the scene. A ghost invariant
(`Model.Traced`) says which image files have been read since the load
started, and what the GPU textures then hold. Every mesh built so far keeps
its GPU objects in place (`Model.Valid`).

Assimp's file parsing is not modelled. The scene it returns is an input:
`Option<AiScene>`, where `None` stands for a null pointer. The methods that
walk it require that mesh references and material indices are in range,
and that the normal and UV arrays, when present, cover every vertex; Assimp
guarantees these of a scene it returns. They also require that a mesh with
UV channel 0 has tangents and bitangents for every vertex. Assimp does not
guarantee that (a point or line mesh with UVs gets no tangents), and for
such a mesh the vertex loop reads through a null tangent pointer; that
crashing case is excluded by the requires rather than modelled (see
"## Left out").

## Model

| member | source | states |
|---|---|---|
| `Layout.LayoutValues` | src/mesh.h:9-15 | The five fields of `Vertex` lie at byte offsets 0, 12, 24, 32 and 44, and a vertex takes 56 bytes. |
| `Layout.OffsetsIncrease` | src/mesh.h:9-15 | Field offsets strictly increase in declaration order. |
| `Layout.FieldWithinStride` | src/mesh.h:9-15 | Each field ends where the next one begins, and all fit in one stride. |
| `Layout.RecordMatchesAttributes` | src/mesh.cpp:71-89 | A vertex record is exactly one stride of floats, and attribute k, read at its `offsetof` with its component count, yields field k of the vertex. |
| `Text.DecimalString` | src/mesh.cpp:29 | `std::to_string` of an unsigned value is a non-empty string of decimal digits with no leading zero. |
| `Text.ParseDecimalString` | src/mesh.cpp:29 | Reading the digits back gives the number, so the printed number is exact. |
| `Text.DecimalStringInjective` | src/mesh.cpp:29-35 | Different numbers print as different strings. |
| `Text.LastIndexOf` | src/model.cpp:39 | `find_last_of` finds no position exactly when the character does not occur. Otherwise the position holds the character and no later one does. |
| `Naming.AdvanceCounter` | src/mesh.cpp:28-36 | Naming a texture increments only its own kind's counter, with 32-bit wrap-around. The other two counters keep their values. |
| `Naming.CountersCount` | src/mesh.cpp:22-40 | After the loop, each counter is its start value plus the number of textures of its kind, modulo 2^32. |
| `Naming.SamplerNamesAt` | src/mesh.cpp:23-38 | Texture i is named from the counters that the textures before it have left. |
| `Naming.KnownKindName` | src/mesh.cpp:26-38 | For a diffuse, specular or normal texture, the uniform name is the tag followed by its number. The number is the start value plus the count of earlier textures of that kind, modulo 2^32. |
| `Naming.OtherKindName` | src/mesh.cpp:26-38 | A tag of any other kind is used as the uniform name with no number. |
| `Naming.NumberingFromOne` | src/mesh.cpp:22-36 | With counters starting at 1, the k-th texture of each kind is named with k. |
| `Naming.SameKindNamesDiffer` | src/mesh.cpp:28-36 | Two textures of the same known kind get different uniform names, unless the counter wraps around. |
| `Naming.ApplyUniformsValues` | src/mesh.cpp:38 | After the `setInt` calls, a uniform name used by some texture holds the unit of the last texture with that name. Every other uniform keeps its value. |
| `Naming.ExampleNaming` | src/mesh.cpp:22-38 | Diffuse, specular, diffuse, diffuse counted from 1 are named `texture_diffuse1`, `texture_specular1`, `texture_diffuse2`, `texture_diffuse3`. |
| `Naming.UninitialisedCounterMisnames` | src/mesh.cpp:22 | If the uninitialised diffuse counter holds 0, the first diffuse texture is named `texture_diffuse0`. Counted from 1, it is `texture_diffuse1`. |
| `Gl.GlContext.ReadImage` | src/model.cpp:165-167 | `stbi_load` succeeds exactly when the file at the path is a readable image. Either way the read is logged. |
| `Gl.GlContext.TexImage` | src/model.cpp:180-182 | The texture bound on the active unit now holds the image. With nothing bound, nothing changes. |
| `Scene.FlattenCount` | src/model.cpp:44-56 | The pre-order walk visits as many mesh references as the subtree's nodes hold in total. |
| `Scene.FlattenMembers` | src/model.cpp:44-56 | A reference is visited exactly when some node of the subtree holds it. |
| `Scene.FlattenAllSplit` | src/model.cpp:53-55 | Walking the children splits at any child: the walk of the first i subtrees, then the walk of the rest. |
| `Scene.ConvertFirstAt` | src/model.cpp:64-92 | There is one converted vertex per position, and vertex i is converted from attribute slot i of the scene mesh. |
| `Scene.FlattenFacesLength` | src/model.cpp:95-101 | The index list holds as many indices as the faces hold in total. |
| `Scene.TrianglesFlatten` | src/model.cpp:95-101 | With triangulated faces, there are three indices per face, and triple k is face k. |
| `Scene.FlattenFacesBounded` | src/model.cpp:95-101 | If every face index is below the vertex count, so is every index of the list. |
| `TextureCache.FindCached` | src/model.cpp:137-143 | The search finds nothing exactly when no cached record has the file name. Otherwise it yields the first record that has it. |
| `TextureCache.FirstMatch` | src/model.cpp:137-143 | The `break` makes the first record with the name the one found. |
| `TextureCache.FindCachedExtend` | src/model.cpp:137-151 | Appending a record changes no lookup that already hit. A lookup for the new record's name that missed now finds it. |
| `TextureCache.Resolve` | src/model.cpp:128-155 | There is one result per path. The cache only grows, and the next texture name advances by one per record added. |
| `TextureCache.ResolveLookup` | src/model.cpp:132-152 | Result i carries path i as its file name, and is the record the final cache holds under that name. |
| `TextureCache.HitKeepsRecord` | src/model.cpp:137-142 | A path already cached returns the cached record as stored, with its original texture name and kind tag, whatever kind was asked for. |
| `TextureCache.AddedRecords` | src/model.cpp:145-152 | Records added by a call are tagged with the requested kind, and carry consecutive fresh texture names in the order they were added. |
| `TextureCache.ResultKinds` | src/model.cpp:137-152 | Every result has the requested kind or was already in the cache. |
| `TextureCache.ResolveUnique` | src/model.cpp:137-152 | The cache never holds two records for one file name. |
| `TextureCache.ResolveKeys` | src/model.cpp:145-151 | The cache's file names after a call are the old ones plus the call's paths. |
| `TextureCache.ResolveIds` | src/model.cpp:145-151 | Cached texture names stay distinct, and stay below the next one to be handed out. |
| `TextureCache.UploadsPerName` | src/model.cpp:132-152 | A call loads exactly one texture per distinct path that was not cached yet. |
| `TextureCache.SameNameSameTexture` | src/model.cpp:132-152 | Results with the same file name are the same record. Results with different file names have different texture names. |
| `TextureCache.ImagePathsAt` | src/model.cpp:163 | The image file read for added record k is the directory, a '/', then the record's file name. |
| `TextureCache.ResolveNames` | src/model.cpp:149 | The results carry the call's paths, in order, as file names. |
| `TextureCache.ResolveCached` | src/model.cpp:139-151 | Every result is a record of the cache after the call. |
| `Import.MaterialTextures` | src/model.cpp:104-124 | A mesh gets one texture per material path. Its three calls only grow the cache and advance the texture names by one per upload. |
| `Import.MaterialTextureNames` | src/model.cpp:104-124 | The mesh's textures carry the material's diffuse, specular and height paths, in that order. |
| `Import.MaterialTexturesUnique` | src/model.cpp:104-124 | The three calls keep the cache free of duplicate file names. |
| `Import.MaterialTexturesIds` | src/model.cpp:104-124 | The three calls keep the texture names distinct and below the next one. |
| `Import.MaterialTexturesKeys` | src/model.cpp:104-124 | The three calls add exactly the material's paths to the cache's file names. |
| `Import.ImportAll` | src/model.cpp:44-56 | An import appends one mesh per visited reference, and only grows the cache. |
| `Import.ImportAllAppend` | src/model.cpp:44-56 | Importing the node's own references and then the children's is importing them all in pre-order. |
| `Import.ImportAllAt` | src/model.cpp:45-55 | Mesh k is the mesh `processMesh` builds once the references before it have been imported. |
| `Import.ImportedMesh` | src/model.cpp:58-126 | Mesh k has the converted vertices and flattened faces of the scene mesh of reference k, and one texture per material path. |
| `Import.ImportMeshInvariant` | src/model.cpp:58-126 | One mesh keeps the cache invariants: no duplicate file names, distinct and fresh texture names, and every mesh texture a cache record. |
| `Import.ImportInvariant` | src/model.cpp:128-155 | A whole import keeps the cache invariants. The cache ends up holding exactly the imported materials' paths. |
| `Import.OneUploadPerPath` | src/model.cpp:137-152 | Loading from an empty cache uploads each distinct texture path of the model exactly once. |
| `Import.SharedTextures` | src/model.cpp:137-152 | Two textures of any two loaded meshes that share a file name are one record with one texture name. Different file names mean different texture names. |
| `Import.UploadedImage` | src/model.cpp:158-198 | After the uploads, an added record's texture holds its image if the file reads. If it does not, the texture keeps what it held. |
| `Import.UntouchedImage` | src/model.cpp:180-182 | A texture name that no added record carries keeps its image. |
| `Import.OtherUnitsKept` | src/model.cpp:180 | Uploads bind only on the active unit. Every other unit is untouched. |
| `Import.AddedDistinct` | src/model.cpp:145-151 | Records a call adds have pairwise distinct texture names. |
| `Import.ResolveSplit` | src/model.cpp:45-55 | If every reference of a concatenation names a scene mesh, so does every reference of each part. |
| `Import.LoadedImages` | src/model.cpp:158-198 | After a model loads, every cached texture whose file reads holds that file's image. The others keep their previous contents. |
| `Meshes.SetupInstalls` | src/mesh.cpp:50-91 | After setup, the vertex array records the element buffer and both buffers hold the data's byte size. All five attributes are enabled and read the vertex buffer by the layout. |
| `Meshes.KeepsTrans` | src/mesh.cpp:51-53 | Keeping the earlier objects composes: two changes that each keep them keep them together. |
| `Meshes.KeptSetUp` | src/mesh.cpp:50-91 | A set-up mesh stays set up across any change that keeps the earlier objects: their element buffers, buffer sizes, attribute pointers and enabled slots. |
| `Meshes.BindUnitsValues` | src/mesh.cpp:23-40 | Unit i ends up holding texture i's name. Units past the last texture keep their texture. |
| `Meshes.Mesh.constructor` | src/mesh.cpp:10-19 | The mesh stores its data. It gets fresh names: one vertex array, then two buffers. Its objects are set up as `SetupInstalls` describes. Every object named before keeps its state (`Keeps`), and no vertex array is left bound. |
| `Meshes.Mesh.EnableAttribute` | src/mesh.cpp:71-89 | Attribute k of the bound vertex array is enabled, and reads the bound array buffer with the layout's size, stride and offset. |
| `Meshes.Mesh.DescribeVertices` | src/mesh.cpp:70-90 | All five attribute slots are enabled and described, then the vertex array is unbound. |
| `Meshes.Mesh.CreateBuffers` | src/mesh.cpp:51-68 | The names are fresh and in generation order. The vertex array records the element buffer, and both buffers hold the given byte counts. |
| `Meshes.Mesh.SetupMesh` | src/mesh.cpp:50-91 | The whole new state of `setupMesh`. The objects are installed, with byte sizes of count times `sizeof`. |
| `Meshes.Mesh.BindSampler` | src/mesh.cpp:24-39 | One loop iteration: unit i is active, the texture's uniform is set to i, the texture is bound there and its kind's counter advances. |
| `Meshes.Mesh.Draw` | src/mesh.cpp:21-47 | The uniforms are set as `SamplerNames` names them from the given counter start values. Texture i goes to unit i. There is one triangle draw of the index count, wrapped to 32 bits, on the mesh's vertex array. The vertex array is unbound and unit 0 is active. |
| `Models.DirectoryOf` | src/model.cpp:39 | The directory is the path before its last '/', so path = directory + "/" + a name without '/'. It is the whole path when there is no '/'. |
| `Models.CollectVertices` | src/model.cpp:64-92 | The vertex loop yields the converted vertices of the mesh. |
| `Models.CollectIndices` | src/model.cpp:95-101 | The index loop yields the faces' indices joined face by face. |
| `Models.TextureFromFile` | src/model.cpp:158-198 | A fresh texture name. The file `directory/fName` is read. If the file reads, the new texture is bound on the active unit and filled with the image; otherwise no unit binding or texture image changes. |
| `Models.AllSetUpKept` | src/model.cpp:44-56 | Meshes that are all set up stay set up across any change that keeps the earlier objects. |
| `Models.DrawLog` | src/model.cpp:16-20 | Drawing the model issues one draw call per mesh. |
| `Models.DrawLogAt` | src/model.cpp:16-20 | Draw call k is mesh k's: its index count and its vertex array. |
| `Models.DrawnBuffers` | src/mesh.cpp:41-43 | Once every mesh is set up, draw call k's vertex array has an element buffer whose size is mesh k's index count times `sizeof(unsigned int)`. |
| `Models.TraceMiss` | src/model.cpp:145-152 | A cache miss adds one record, one image read and one upload, which keeps the load's trace. |
| `Models.Model.SearchLoaded` | src/model.cpp:137-143 | The search loop finds the first cached record with the file name, or nothing. |
| `Models.Model.LoadOne` | src/model.cpp:134-152 | On a hit, the cached record is returned and nothing changes. On a miss, a new record is loaded under the next texture name and appended to the cache, with its read and upload. |
| `Models.Model.LoadMaterialTextures` | src/model.cpp:128-155 | The results, the new cache and the next texture name are what `Resolve` computes. The trace is kept. |
| `Models.Model.LoadTextures` | src/model.cpp:104-124 | The three slot calls compute `MaterialTextures` of the mesh's material. |
| `Models.Model.NewMesh` | src/model.cpp:125 | A fresh mesh with the data, set up on the GPU. Every object named before is kept, so every mesh built earlier, by this model or any other, stays set up. No vertex array is left bound. |
| `Models.Model.MeshParts` | src/model.cpp:58-124 | The vertices, indices and textures are those of `ImportMesh` of the scene mesh. |
| `Models.Model.ProcessMesh` | src/model.cpp:58-126 | Adding the returned mesh to the model gives `ImportMesh` of the old state. Earlier objects are kept and no vertex array is left bound. |
| `Models.Model.Push` | src/model.cpp:50 | The mesh is appended, and all meshes stay set up. |
| `Models.Model.AddMesh` | src/model.cpp:49-50 | The new state is `ImportMesh` of the old one, for the referenced scene mesh. Earlier objects are kept and no vertex array is left bound. |
| `Models.Model.ProcessRefs` | src/model.cpp:45-51 | The node's references are imported in order. Earlier objects are kept. The bound vertex array is 0 after at least one reference and unchanged after none. |
| `Models.Model.AddRef` | src/model.cpp:49-50 | One iteration of the first loop extends the loop invariant `RefsDone` from i references to i + 1. |
| `Models.Model.ProcessChildren` | src/model.cpp:53-55 | The children's subtrees are imported left to right. Earlier objects are kept. The bound vertex array is 0 once a subtree held a mesh and unchanged otherwise. |
| `Models.Model.ProcessChild` | src/model.cpp:54 | One iteration of the second loop extends the loop invariant `ChildrenDone` from j children to j + 1. |
| `Models.Model.ProcessNode` | src/model.cpp:44-56 | The subtree's references are imported in pre-order. Earlier objects are kept. The bound vertex array is 0 if the subtree holds a mesh and unchanged otherwise. |
| `Models.Model.LoadModel` | src/model.cpp:22-42 | A null, incomplete or rootless scene changes nothing. Otherwise the directory is set, the tree is imported from the root in pre-order, and exactly the newly cached textures are read and uploaded, in order. In every case the objects named before are kept, so the meshes of other models stay set up. The bound vertex array is 0 if the tree holds a mesh and unchanged otherwise. |
| `Models.Model.constructor` | src/model.h:13-15 | A model built from a path holds `ImportAll` of the scene from empty. Its image reads and uploads are those of its cache, in order. A failed import leaves it empty. The objects named before are kept, and once the model has a mesh no vertex array is bound. |
| `Models.Model.Draw` | src/model.cpp:16-20 | The meshes are drawn in order, each with its counters from 1 (the corrected counters). The result is one draw call per mesh, and the uniforms and units that `Mesh.Draw` leaves, mesh after mesh. |

## Left out

- Assimp's parsing of the model file and its post-processing flags (triangulation, smooth normals, flipped UVs, tangent space) are not modelled. The scene is an input and the flags are assumed applied. Only `Scene.TrianglesFlatten` relies on triangulation, and it requires `Scene.Triangulated`.
- `Models.Model.LoadModel`: the error message printed on a failed import is left out, because it is console output only.
- Console output of image paths and load failures in `textureFromFile` is left out, for the same reason.
- Image decoding is reduced to whether the file reads (the context's `readable` set). Width, height, channels and pixel bytes are not modelled: a texture holds "the image at this path".
- The pixel-format switch in `textureFromFile` is not modelled. A two-channel image leaves `format` uninitialised; the model does not track formats, so this is not represented.
- Mipmap generation, the four texture parameters and `stbi_image_free` are left out, because they do not affect which texture holds which image.
- The Shader is reduced to its integer uniform map. Shader compilation is not part of this model.
- The `Vertex vertex;` in the vertex loop is not initialised when normals or UVs are missing. The model uses one parameter `blank` for the leftover fields of every vertex of every mesh in a load. In the source the local is indeterminate anew on each iteration, so the leftover values may differ from vertex to vertex; that is not modelled.
- `aiMesh->mMaterialIndex >= 0` is always true for an unsigned index, so the branch is always taken. The model has no test.
- `Meshes.Mesh`: its data fields and GPU names are `const`, because nothing changes them after setup. `setupMesh` is the static `Mesh.SetupMesh`, which returns the names the constructor stores.
- The copies of `Mesh` made by the range-for in `Model::Draw` and by `push_back` are not modelled. A copy shares the GPU names; no destructor frees them.
- Object names from `glGen*` come from unbounded counters. Running out of 32-bit names is not modelled. OpenGL only promises that a generated name is unused; that consecutive calls yield consecutive names (`ebo == vbo + 1` in `Meshes.Mesh.constructor` and `Meshes.Mesh.CreateBuffers`, the "consecutive fresh texture names" of `TextureCache.AddedRecords`) is a property of this counter model, not of OpenGL. The cache and setup properties use only that the names are fresh and distinct.
- Scene.WellFormedMesh: requires tangents and bitangents for every vertex whenever UV channel 0 is present. Assimp's tangent-space step skips point and line meshes and meshes without normals, so such a mesh can carry UVs with a null `mTangents`; src/model.cpp:81-87 then dereferences a null pointer. That undefined behaviour is not modelled: scenes holding such a mesh are outside the model's requires.
- Models.Model.Draw: draws each mesh with all three sampler counters starting at 1, the evidently intended start values. The source's indeterminate `diffuseNr` and `specularNr` (src/mesh.cpp:22) are reachable only through the start-value parameters of `Meshes.Mesh.Draw` (see "## Findings").
- Models.Model.SearchLoaded: compares whole strings, and `TextureCache.FindCached` likewise. The source compares with `strcmp` and builds `fName` from `C_Str()`, both of which stop at an embedded NUL; texture paths are assumed NUL-free, so paths that differ only after a NUL are treated as different here.
- `Meshes.Mesh.Draw`: the index count is wrapped to 32 unsigned bits as `static_cast<unsigned int>` does. Its further conversion to the signed `GLsizei` parameter is not modelled.
- `size_t` loop counters and `vector` sizes are unbounded `nat`s. Overflow of a byte count such as `indices.size() * sizeof(unsigned int)` is not modelled.
- Buffer contents are not modelled, only their byte sizes: `glBufferData` records how many bytes a buffer holds, not the vertex or index data copied into it.
- Meshes.Mesh.Draw: texture units are unbounded. A mesh with more textures than `GL_MAX_COMBINED_TEXTURE_IMAGE_UNITS` makes `glActiveTexture(GL_TEXTURE0 + i)` fail with `GL_INVALID_ENUM` and leave the active unit unchanged, so the following `glBindTexture` rebinds the previous unit and the sampler value is rejected; those GL errors are not modelled, and "unit i holds texture i" (`Meshes.BindUnitsValues`) is proved only for the unbounded unit model.
- The `Layout` values (offsets 0, 12, 24, 32, 44 and stride 56) rest on 4-byte `float` and `unsigned int` and on `Vertex` having no padding between or after its fields; the compiler's actual layout is not modelled.
- Float vertex components are opaque bit patterns (`bv32`), because the core only copies them.
- The camera and the main program (src/camera.cpp, src/main.cpp) are outside the core.

## Findings

| source | as written | input that shows it | evidently intended | confidence | as-written member | corrected member |
|---|---|---|---|---|---|---|
| src/mesh.cpp:22 | `diffuseNr` and `specularNr` are declared without an initialiser; only `normalNr` starts at 1 | a mesh with one diffuse texture, drawn while the indeterminate diffuse counter holds 0: its sampler is set under `texture_diffuse0`, a name the shaders do not declare | all three counters start at 1, so the k-th texture of a kind is `texture_<kind>k` | not executed | `Naming.UninitialisedCounterMisnames` | `Naming.NumberingFromOne` |
