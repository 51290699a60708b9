/** The vertex-buffer layout of the vertex-slot demo (src/vertexSlot/index.ts):
    the colour buffer is bound as vertex buffer 0 with one `float32x4`
    attribute at offset 0 and a stride of 16 bytes, and `draw(3)` runs three
    vertices. */
module VertexSlot {
  import opened ColorPicker

  const ArrayStride: nat := 16
  const AttributeOffset: nat := 0
  const DrawVertexCount: nat := 3

  /** The `float32x4` attribute vertex v fetches from the buffer: four floats
      starting at byte v * arrayStride + offset. */
  function VertexAttribute(buffer: seq<Num>, v: nat): seq<Num>
    requires (v * ArrayStride + AttributeOffset) / BytesPerFloat + 4 <= |buffer|
  {
    var first := (v * ArrayStride + AttributeOffset) / BytesPerFloat;
    buffer[first .. first + 4]
  }

  /** The three vertices read exactly the 48 bytes written, and vertex v gets
      colour row v of the table. */
  lemma VertexReadsRow(rows: seq<Row>, v: nat)
    requires WellShaped(rows) && v < DrawVertexCount
    ensures DrawVertexCount * ArrayStride == ColorBufferSize == BytesPerFloat * |Flatten(rows)|
    ensures (v * ArrayStride + AttributeOffset) / BytesPerFloat + 4 <= |Flatten(rows)|
    ensures VertexAttribute(Flatten(rows), v) == rows[v]
  {
    FlattenFillsBuffer(rows);
    assert (v * ArrayStride + AttributeOffset) / BytesPerFloat == 4 * v;
    assert VertexAttribute(Flatten(rows), v) == Vec4At(Flatten(rows), v);
  }
}
