/** Meshes: a submesh keeps its indices packed into bytes, and a static mesh
    owns a vertex buffer, one index buffer per submesh and the vertex array
    that draws them. Index bytes are in the little-endian order of the
    machines the renderer runs on. */
module Mesh {
  import opened Base
  import opened OpenGL
  import opened Buffer
  import opened VertexArray

  /** The two bytes of a 16-bit index, low byte first. */
  function Le16(x: u16): seq<u8>
  {
    [(x % 0x100) as u8, (x / 0x100) as u8]
  }

  /** The 16-bit index whose bytes, low byte first, are `b0` and `b1`. */
  function FromLe16(b0: u8, b1: u8): u16
  {
    (b0 as int + 0x100 * b1 as int) as u16
  }

  /** The four bytes of a 32-bit index, low byte first. */
  function Le32(x: u32): seq<u8>
  {
    [(x % 0x100) as u8, (x / 0x100 % 0x100) as u8, (x / 0x1_0000 % 0x100) as u8, (x / 0x100_0000) as u8]
  }

  /** The 32-bit index whose bytes, low byte first, are `b0` .. `b3`. */
  function FromLe32(b0: u8, b1: u8, b2: u8, b3: u8): u32
  {
    (b0 as int + 0x100 * b1 as int + 0x1_0000 * b2 as int + 0x100_0000 * b3 as int) as u32
  }

  lemma Le16RoundTrip(x: u16)
    ensures FromLe16(Le16(x)[0], Le16(x)[1]) == x
  {
  }

  lemma FromLe16RoundTrip(b0: u8, b1: u8)
    ensures Le16(FromLe16(b0, b1)) == [b0, b1]
  {
    var x := b0 as int + 0x100 * b1 as int;
    assert x / 0x100 == b1 as int;
  }

  lemma Le32RoundTrip(x: u32)
    ensures var b := Le32(x); FromLe32(b[0], b[1], b[2], b[3]) == x
  {
    var n := x as int;
    var q1 := n / 0x100;
    var q2 := q1 / 0x100;
    var q3 := q2 / 0x100;
    assert n / 0x1_0000 == q2;
    assert n / 0x100_0000 == q3;
    assert n == n % 0x100 + 0x100 * q1;
    assert q1 == q1 % 0x100 + 0x100 * q2;
    assert q2 == q2 % 0x100 + 0x100 * q3;
    assert q3 < 0x100;
  }

  lemma FromLe32RoundTrip(b0: u8, b1: u8, b2: u8, b3: u8)
    ensures Le32(FromLe32(b0, b1, b2, b3)) == [b0, b1, b2, b3]
  {
    var n := b0 as int + 0x100 * b1 as int + 0x1_0000 * b2 as int + 0x100_0000 * b3 as int;
    var q1 := b1 as int + 0x100 * b2 as int + 0x1_0000 * b3 as int;
    var q2 := b2 as int + 0x100 * b3 as int;
    assert n == b0 as int + 0x100 * q1;
    assert n / 0x100 == q1;
    assert q1 == b1 as int + 0x100 * q2;
    assert q1 / 0x100 == q2;
    assert n / 0x1_0000 == q2 by {
      assert n == (b0 as int + 0x100 * b1 as int) + 0x1_0000 * q2;
    }
    assert q2 / 0x100 == b3 as int;
    assert n / 0x100_0000 == b3 as int by {
      assert n == (b0 as int + 0x100 * b1 as int + 0x1_0000 * b2 as int) + 0x100_0000 * b3 as int;
    }
  }

  /** The bytes of a vector of 16-bit indices, as it lies in memory. */
  function Pack16(xs: seq<u16>): (b: seq<u8>)
    ensures |b| == 2 * |xs|
  {
    if xs == [] then [] else Le16(xs[0]) + Pack16(xs[1..])
  }

  /** The bytes read back as 16-bit indices (`getIndexData16`). */
  function Unpack16(b: seq<u8>): (xs: seq<u16>)
    requires |b| % 2 == 0
    ensures |xs| == |b| / 2
  {
    if b == [] then [] else [FromLe16(b[0], b[1])] + Unpack16(b[2..])
  }

  /** The bytes of a vector of 32-bit indices, as it lies in memory. */
  function Pack32(xs: seq<u32>): (b: seq<u8>)
    ensures |b| == 4 * |xs|
  {
    if xs == [] then [] else Le32(xs[0]) + Pack32(xs[1..])
  }

  /** The bytes read back as 32-bit indices (`getIndexData32`). */
  function Unpack32(b: seq<u8>): (xs: seq<u32>)
    requires |b| % 4 == 0
    ensures |xs| == |b| / 4
  {
    if b == [] then [] else [FromLe32(b[0], b[1], b[2], b[3])] + Unpack32(b[4..])
  }

  lemma {:induction false} Unpack16Pack16(xs: seq<u16>)
    ensures Unpack16(Pack16(xs)) == xs
  {
    if xs != [] {
      var b := Pack16(xs);
      assert b[..2] == Le16(xs[0]) && b[2..] == Pack16(xs[1..]);
      Le16RoundTrip(xs[0]);
      Unpack16Pack16(xs[1..]);
    }
  }

  lemma {:induction false} Pack16Unpack16(b: seq<u8>)
    requires |b| % 2 == 0
    ensures Pack16(Unpack16(b)) == b
  {
    if b != [] {
      var xs := Unpack16(b);
      assert xs[0] == FromLe16(b[0], b[1]) && xs[1..] == Unpack16(b[2..]);
      FromLe16RoundTrip(b[0], b[1]);
      Pack16Unpack16(b[2..]);
      assert b == [b[0], b[1]] + b[2..];
    }
  }

  lemma {:induction false} Unpack32Pack32(xs: seq<u32>)
    ensures Unpack32(Pack32(xs)) == xs
  {
    if xs != [] {
      var b := Pack32(xs);
      assert b[..4] == Le32(xs[0]) && b[4..] == Pack32(xs[1..]);
      Le32RoundTrip(xs[0]);
      Unpack32Pack32(xs[1..]);
    }
  }

  lemma {:induction false} Pack32Unpack32(b: seq<u8>)
    requires |b| % 4 == 0
    ensures Pack32(Unpack32(b)) == b
  {
    if b != [] {
      var xs := Unpack32(b);
      assert xs[0] == FromLe32(b[0], b[1], b[2], b[3]) && xs[1..] == Unpack32(b[4..]);
      FromLe32RoundTrip(b[0], b[1], b[2], b[3]);
      Pack32Unpack32(b[4..]);
      assert b == [b[0], b[1], b[2], b[3]] + b[4..];
    }
  }

  /** Byte width of one index of the format. */
  function IndexWidth(format: IndexType): nat
  {
    match format
    case UInt16 => 2
    case UInt32 => 4
  }

  /** A range of a mesh's triangles drawn with one material: its indices
      packed into bytes, their number and their format. */
  datatype SubMesh = SubMesh(indices: seq<u8>, materialIndex: u32, count: u32, indexFormat: IndexType)

  /** The number of indices fits the byte buffer: `count` is the number of
      indices of the format's width (kept to 32 bits). */
  ghost predicate Consistent(m: SubMesh)
  {
    |m.indices| % IndexWidth(m.indexFormat) == 0 &&
    m.count as int == (|m.indices| / IndexWidth(m.indexFormat)) % U32Limit
  }

  /** memcpy of `source` into a new byte buffer of the same size. */
  method CopyBytes(source: seq<u8>) returns (bytes: array<u8>)
    ensures fresh(bytes) && bytes[..] == source
  {
    bytes := new u8[|source|];
    for j := 0 to |source|
      invariant bytes[..j] == source[..j]
    {
      bytes[j] := source[j];
    }
  }

  /** SubMesh(const std::vector<uint32_t>&, materialIndex): the indices are
      copied byte for byte; reading them back gives the indices again. */
  method NewSubMesh32(indices: seq<u32>, materialIndex: u32) returns (m: SubMesh)
    ensures m.indexFormat == UInt32 && m.materialIndex == materialIndex
    ensures m.count == TruncateU32(|indices|)
    ensures m.indices == Pack32(indices) && |m.indices| == 4 * |indices|
    ensures Consistent(m) && Unpack32(m.indices) == indices
  {
    var bytes := CopyBytes(Pack32(indices));
    m := SubMesh(bytes[..], materialIndex, TruncateU32(|indices|), UInt32);
    Unpack32Pack32(indices);
  }

  /** SubMesh(const std::vector<uint16_t>&, materialIndex): as above with
      two bytes per index. */
  method NewSubMesh16(indices: seq<u16>, materialIndex: u32) returns (m: SubMesh)
    ensures m.indexFormat == UInt16 && m.materialIndex == materialIndex
    ensures m.count == TruncateU32(|indices|)
    ensures m.indices == Pack16(indices) && |m.indices| == 2 * |indices|
    ensures Consistent(m) && Unpack16(m.indices) == indices
  {
    var bytes := CopyBytes(Pack16(indices));
    m := SubMesh(bytes[..], materialIndex, TruncateU32(|indices|), UInt16);
    Unpack16Pack16(indices);
  }

  /** getIndexData16: the bytes seen as 16-bit indices. */
  function GetIndexData16(m: SubMesh): (r: seq<u16>)
    requires |m.indices| % 2 == 0
    ensures |r| == |m.indices| / 2 && Pack16(r) == m.indices
  {
    Pack16Unpack16(m.indices);
    Unpack16(m.indices)
  }

  /** getIndexData32: the bytes seen as 32-bit indices. */
  function GetIndexData32(m: SubMesh): (r: seq<u32>)
    requires |m.indices| % 4 == 0
    ensures |r| == |m.indices| / 4 && Pack32(r) == m.indices
  {
    Pack32Unpack32(m.indices);
    Unpack32(m.indices)
  }

  /** getIndexData8: the packed bytes themselves; for a consistent submesh
      there are count indices of the format's width (below 2^32 indices). */
  function GetIndexData8(m: SubMesh): (r: seq<u8>)
    ensures r == m.indices
    ensures Consistent(m) && |r| < IndexWidth(m.indexFormat) * U32Limit ==>
              |r| == IndexWidth(m.indexFormat) * m.count as int
  {
    m.indices
  }

  /** getCount: for a consistent submesh, the number of indices its bytes
      hold (kept to 32 bits). */
  function GetCount(m: SubMesh): (r: u32)
    ensures Consistent(m) ==> r as int == (|m.indices| / IndexWidth(m.indexFormat)) % U32Limit
  {
    m.count
  }

  /** A mesh whose vertices share one layout and whose submeshes each have
      an index buffer. */
  class StaticMesh {
    const vao: VertexArray
    const vbo: VertexBuffer
    const vertices: seq<real>
    const subMeshes: seq<SubMesh>
    const ibo: seq<IndexBuffer>
    const vertCount: u32

    /** Index buffer i holds exactly the bytes, count and format of
        submesh i. */
    ghost predicate Valid()
    {
      |ibo| == |subMeshes| >= 1 &&
      forall i :: 0 <= i < |ibo| ==>
        ibo[i].data == subMeshes[i].indices && ibo[i].count == subMeshes[i].count &&
        ibo[i].format == subMeshes[i].indexFormat
    }

    /** Copies the vertices and submeshes, counts the vertices by the
        layout's stride, uploads the vertices with the layout, creates one
        index buffer per submesh and binds the first one. */
    constructor (gl: GlContext, vertices: seq<real>, subMeshes: seq<SubMesh>, layout: BufferLayout)
      requires |subMeshes| >= 1 && layout.stride >= 4
      modifies gl
      ensures Valid()
      ensures this.vertices == vertices && this.subMeshes == subMeshes
      ensures vertCount as int == (|vertices| / (layout.stride as int / 4)) % U32Limit
      ensures fresh(vao) && fresh(vbo)
      ensures vbo.vertices == vertices && vbo.layout == layout
      ensures vao.vertexBuffers == [vbo] && vao.indexBuffer == Some(ibo[0])
      ensures vao.vertexBufferIndex == SlotCount(layout.attributes, |layout.attributes|)
      // one name each for the vertex array, the vertex buffer and every index buffer
      ensures gl.nextName == old(gl.nextName) + 2 + |subMeshes|
      ensures vao.name == old(gl.nextName) && vbo.name == old(gl.nextName) + 1
      ensures forall i :: 0 <= i < |ibo| ==> ibo[i].name == old(gl.nextName) + 2 + i
      // AddVertexBuffer's calls, then SetIndexBuffer's
      ensures gl.calls == old(gl.calls) + [BindVertexArray(vao.name), BindArrayBuffer(vbo.name)]
                          + LayoutCalls(layout.attributes, |layout.attributes|, layout.stride, 0)
                          + [BindVertexArray(vao.name), BindElementArrayBuffer(ibo[0].name)]
    {
      this.vertices := vertices;
      this.subMeshes := subMeshes;
      vertCount := TruncateU32(|vertices| / (layout.stride as int / 4));
      var vertexArray := new VertexArray(gl);
      var vertexBuffer := new VertexBuffer(gl, vertices);
      vertexBuffer.SetLayout(layout);
      var buffers: seq<IndexBuffer> := [];
      for i := 0 to |subMeshes|
        invariant vertexBuffer.layout == layout
        invariant vertexArray.vertexBuffers == [] && vertexArray.vertexBufferIndex == 0
        invariant |buffers| == i
        invariant gl.nextName == old(gl.nextName) + 2 + i && gl.calls == old(gl.calls)
        invariant vertexArray.name == old(gl.nextName) && vertexBuffer.name == old(gl.nextName) + 1
        invariant forall k :: 0 <= k < i ==> buffers[k].name == old(gl.nextName) + 2 + k
        invariant forall k :: 0 <= k < i ==>
                    buffers[k].data == subMeshes[k].indices && buffers[k].count == subMeshes[k].count &&
                    buffers[k].format == subMeshes[k].indexFormat
      {
        var buffer := new IndexBuffer(gl, GetIndexData8(subMeshes[i]), GetCount(subMeshes[i]), subMeshes[i].indexFormat);
        buffers := buffers + [buffer];
      }
      vao := vertexArray;
      vbo := vertexBuffer;
      ibo := buffers;
      new;
      vao.AddVertexBuffer(gl, vbo);
      vao.SetIndexBuffer(gl, ibo[0]);
    }

    /** bindSubMesh: makes the index buffer of submesh `index` the one the
        vertex array draws with. */
    method BindSubMesh(gl: GlContext, index: int)
      requires Valid() && 0 <= index < |ibo|
      modifies vao`indexBuffer, gl`calls
      ensures vao.indexBuffer == Some(ibo[index])
      ensures vao.indexBuffer.value.data == subMeshes[index].indices
      ensures gl.calls == old(gl.calls) + [BindVertexArray(vao.name), BindElementArrayBuffer(ibo[index].name)]
    {
      vao.SetIndexBuffer(gl, ibo[index]);
    }

    /** subMeshCount: the number of submeshes, as a 32-bit value. */
    function SubMeshCount(): (r: u32)
      ensures r as int == |subMeshes| % U32Limit
      ensures Valid() && |subMeshes| < U32Limit ==> r as int == |ibo|
    {
      TruncateU32(|subMeshes|)
    }

    /** getSubMesh: a copy of submesh `index`, whose bytes are those of the
        index buffer bindSubMesh(index) binds. */
    function GetSubMesh(index: int): (r: SubMesh)
      requires 0 <= index < |subMeshes|
      ensures r == subMeshes[index]
      ensures Valid() ==> r.indices == ibo[index].data && r.count == ibo[index].count
    {
      subMeshes[index]
    }
  }
}
