// The memory layout of `Vertex` (src/mesh.h) as the attribute pointers of
// `Mesh::setupMesh` (src/mesh.cpp) read it: five interleaved fields, each
// made of 4-byte float components, with no padding between them.

module Layout {
  import opened Records

  datatype Field = Position | Normal | TexCoords | Tangent | BiTangent

  /** The declaration order of the fields of `Vertex`. */
  const Fields: seq<Field> := [Position, Normal, TexCoords, Tangent, BiTangent]

  const AttributeCount: nat := 5

  /** `sizeof(float)`, assumed to be 4. */
  const FloatBytes: nat := 4

  /** `sizeof(unsigned int)`, assumed to be 4. */
  const IndexBytes: nat := 4

  /** Number of float components of a field: vec3 or vec2. */
  function Components(f: Field): nat
  {
    match f
    case TexCoords => 2
    case _ => 3
  }

  function FieldBytes(f: Field): nat
  {
    Components(f) * FloatBytes
  }

  /** `offsetof(Vertex, Fields[k])` without padding: the bytes taken by the
      fields declared before it; `OffsetAt(5)` is `sizeof(Vertex)`. */
  function OffsetAt(k: nat): nat
    requires k <= AttributeCount
  {
    if k == 0 then 0 else OffsetAt(k - 1) + FieldBytes(Fields[k - 1])
  }

  /** `sizeof(Vertex)`: the common stride of the five attributes. */
  function Stride(): nat
  {
    OffsetAt(AttributeCount)
  }

  /** The concrete offsets and stride. */
  lemma LayoutValues()
    ensures OffsetAt(0) == 0 && OffsetAt(1) == 12 && OffsetAt(2) == 24
    ensures OffsetAt(3) == 32 && OffsetAt(4) == 44 && Stride() == 56
  {
  }

  /** Offsets strictly increase in declaration order. */
  lemma {:induction false} OffsetsIncrease(j: nat, k: nat)
    requires j < k <= AttributeCount
    ensures OffsetAt(j) < OffsetAt(k)
  {
    if j < k - 1 {
      OffsetsIncrease(j, k - 1);
    }
  }

  /** Every field ends where the next begins, and lies within the stride. */
  lemma {:induction false} FieldWithinStride(k: nat)
    requires k < AttributeCount
    ensures OffsetAt(k) + FieldBytes(Fields[k]) == OffsetAt(k + 1)
    ensures OffsetAt(k) + FieldBytes(Fields[k]) <= Stride()
  {
    if k + 1 < AttributeCount {
      OffsetsIncrease(k + 1, AttributeCount);
    }
  }

  /** The float components of one field, in x, y, z order. */
  function FieldFloats(v: Vertex, f: Field): (r: seq<Float>)
    ensures |r| == Components(f)
  {
    match f
    case Position => [v.Position.x, v.Position.y, v.Position.z]
    case Normal => [v.Normal.x, v.Normal.y, v.Normal.z]
    case TexCoords => [v.TexCoords.x, v.TexCoords.y]
    case Tangent => [v.Tangent.x, v.Tangent.y, v.Tangent.z]
    case BiTangent => [v.BiTangent.x, v.BiTangent.y, v.BiTangent.z]
  }

  /** The floats of a vertex record as they lie in memory. */
  function VertexFloats(v: Vertex): seq<Float>
  {
    FieldFloats(v, Position) + FieldFloats(v, Normal) + FieldFloats(v, TexCoords)
    + FieldFloats(v, Tangent) + FieldFloats(v, BiTangent)
  }

  /** The record occupies exactly one stride, and the attribute with offset
      `OffsetAt(k)` and `Components(Fields[k])` floats reads field k. */
  lemma RecordMatchesAttributes(v: Vertex, k: nat)
    requires k < AttributeCount
    ensures |VertexFloats(v)| * FloatBytes == Stride()
    ensures OffsetAt(k) % FloatBytes == 0
    ensures OffsetAt(k) / FloatBytes + Components(Fields[k]) <= |VertexFloats(v)|
    ensures VertexFloats(v)[OffsetAt(k) / FloatBytes .. OffsetAt(k) / FloatBytes + Components(Fields[k])]
         == FieldFloats(v, Fields[k])
  {
    LayoutValues();
  }
}
