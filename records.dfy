// Plain data records of the renderer (src/mesh.h): one vertex, one texture
// reference, the contents of a mesh, and the fixed tag strings that name
// the three texture kinds.

module Wrappers {
  datatype Option<T> = None | Some(value: T)
}

module Records {

  /** A 32-bit unsigned integer (C++ `unsigned int`, OpenGL `GLuint`). */
  type U32 = x: int | 0 <= x < 0x1_0000_0000

  const U32Modulus: int := 0x1_0000_0000

  /** An IEEE-754 single-precision value, kept as its bit pattern. The core
      never computes with vertex components; it only copies them. */
  type Float = bv32

  const FloatZero: Float := 0

  datatype Vec2 = Vec2(x: Float, y: Float)
  datatype Vec3 = Vec3(x: Float, y: Float, z: Float)

  /** One vertex as uploaded to the GPU: five fields in this order. */
  datatype Vertex = Vertex(
    Position: Vec3,
    Normal: Vec3,
    TexCoords: Vec2,
    Tangent: Vec3,
    BiTangent: Vec3)

  const Vec2Zero: Vec2 := Vec2(FloatZero, FloatZero)

  /** A texture reference: the GPU texture name, the sampler tag ("type" in
      the source, a keyword here) and the file name that keys the cache. */
  datatype Texture = Texture(id: nat, kind: string, fName: string)

  /** The three sequences a `Mesh` owns, as plain values. */
  datatype MeshData = MeshData(vertices: seq<Vertex>, indices: seq<U32>, textures: seq<Texture>)

  const DiffuseTag: string := "texture_diffuse"
  const SpecularTag: string := "texture_specular"
  const NormalTag: string := "texture_normal"
}
