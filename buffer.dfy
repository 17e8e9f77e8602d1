/** Vertex attribute types, buffer layouts and the vertex and index buffer
    objects. A layout lists the attributes of one vertex; its stride is the
    byte size of a whole vertex. */
module Buffer {
  import opened Base
  import opened OpenGL

  datatype ShaderDataType = None | Float | Float2 | Float3 | Int | Int2 | Int3

  /** Byte size of one attribute of type `t`; the unknown type `None` fails
      the assertion and yields 0. */
  function ShaderDataTypeSize(t: ShaderDataType): (r: u32)
    ensures r == 0 <==> t.None?
    ensures r as int % 4 == 0 && r <= 12
  {
    match t
    case Float => 4
    case Float2 => 8
    case Float3 => 12
    case Int => 4
    case Int2 => 8
    case Int3 => 12
    case None => 0
  }

  predicate IsFloatType(t: ShaderDataType)
  {
    t == Float || t == Float2 || t == Float3
  }

  predicate IsIntType(t: ShaderDataType)
  {
    t == Int || t == Int2 || t == Int3
  }

  /** The GL component type of `t`: GL_FLOAT for the float kinds, GL_INT
      for the integer kinds, 0 (after the failed assertion) for `None`. */
  function ShaderDataTypeToGLType(t: ShaderDataType): (r: nat)
    ensures r == GL_FLOAT <==> IsFloatType(t)
    ensures r == GL_INT <==> IsIntType(t)
    ensures r == 0 <==> t.None?
  {
    match t
    case Float => GL_FLOAT
    case Float2 => GL_FLOAT
    case Float3 => GL_FLOAT
    case Int => GL_INT
    case Int2 => GL_INT
    case Int3 => GL_INT
    case None => 0
  }

  /** One attribute of a vertex: its type, byte size, byte offset inside the
      vertex and whether GL normalises integer data. */
  datatype BufferAttribute = BufferAttribute(dataType: ShaderDataType, size: u32, offset: nat, normalized: bool)

  /** The BufferAttribute constructor: the size comes from the size table and
      the offset starts at 0. */
  function NewBufferAttribute(t: ShaderDataType, normalized: bool): (a: BufferAttribute)
    ensures a.dataType == t && a.normalized == normalized && a.offset == 0
    ensures a.size == ShaderDataTypeSize(t)
  {
    BufferAttribute(t, ShaderDataTypeSize(t), 0, normalized)
  }

  /** Number of scalar components of the attribute: 1, 2 or 3 by its type,
      0 (after the failed assertion) for `None`. Every attribute built by
      NewBufferAttribute takes four bytes per component. */
  function GetComponentCount(a: BufferAttribute): (r: u32)
    ensures r == 0 <==> a.dataType.None?
    ensures 1 <= r <= 3 <==> !a.dataType.None?
    ensures ShaderDataTypeSize(a.dataType) as int == 4 * r as int
  {
    match a.dataType
    case Float => 1
    case Float2 => 2
    case Float3 => 3
    case Int => 1
    case Int2 => 2
    case Int3 => 3
    case None => 0
  }

  /** Total byte size of the first `n` attributes; for all of them, the
      intended stride of a vertex. */
  function SizeSum(attributes: seq<BufferAttribute>, n: nat): nat
    requires n <= |attributes|
  {
    if n == 0 then 0 else SizeSum(attributes, n - 1) + attributes[n - 1].size as nat
  }

  lemma ModAddLeft(a: nat, b: nat)
    ensures (a % U32Limit + b) % U32Limit == (a + b) % U32Limit
  {
    var q := a / U32Limit;
    assert a == q * U32Limit + a % U32Limit;
    assert a + b == q * U32Limit + (a % U32Limit + b);
  }

  /** The ordered attributes of a vertex and its stride. Nothing changes a
      layout once it is built, so sharing one is the same as copying it. */
  class BufferLayout {
    var attributes: seq<BufferAttribute>
    var stride: u32

    /** The stride is the total size of the attributes, kept to 32 bits. */
    ghost predicate Valid()
      reads this
    {
      stride as int == SizeSum(attributes, |attributes|) % U32Limit
    }

    /** The default constructor: no attributes; the stride is left
        uninitialised, so any value is possible. */
    constructor Default()
      ensures attributes == []
    {
      attributes := [];
    }

    /** The list constructor: keeps the attributes as given and computes the
        stride. */
    constructor FromList(attributes: seq<BufferAttribute>)
      ensures this.attributes == attributes
      ensures stride as int == SizeSum(attributes, |attributes|) % U32Limit
      ensures Valid()
    {
      this.attributes := attributes;
      new;
      CalculateOffsetAndStride();
    }

    /** calculateOffsetAndStride: adds every size into the stride, with
        32-bit wrap-around. Each attribute is visited as a copy, so the
        offset written into it is lost and the stored attributes keep the
        offsets they came with. */
    method CalculateOffsetAndStride()
      modifies this`stride
      ensures stride as int == SizeSum(attributes, |attributes|) % U32Limit
      ensures Valid()
    {
      var offset: u32 := 0;
      stride := 0;
      for i := 0 to |attributes|
        invariant stride as int == SizeSum(attributes, i) % U32Limit
        invariant offset == stride
      {
        var attrib := attributes[i];
        attrib := attrib.(offset := offset as nat);
        ModAddLeft(SizeSum(attributes, i), attrib.size as nat);
        stride := TruncateU32(stride as nat + attrib.size as nat);
        offset := TruncateU32(offset as nat + attrib.size as nat);
      }
    }

    /** What calculateOffsetAndStride evidently intends: the loop writes each
        running offset into the stored attribute itself. */
    method StoreRunningOffsets()
      modifies this`attributes, this`stride
      ensures attributes == WithRunningOffsets(old(attributes), |old(attributes)|)
      ensures stride as int == SizeSum(old(attributes), |old(attributes)|) % U32Limit
      ensures Valid()
    {
      var offset: nat := 0;
      var updated := [];
      stride := 0;
      for i := 0 to |attributes|
        invariant attributes == old(attributes)
        invariant updated == WithRunningOffsets(attributes, i)
        invariant offset == SizeSum(attributes, i)
        invariant stride as int == offset % U32Limit
      {
        var attrib := attributes[i];
        updated := updated + [attrib.(offset := offset)];
        ModAddLeft(offset, attrib.size as nat);
        stride := TruncateU32(stride as nat + attrib.size as nat);
        offset := offset + attrib.size as nat;
      }
      attributes := updated;
      RunningOffsetsKeepSizes(old(attributes), |old(attributes)|);
    }

    /** GetStride: for a layout built by the list constructor, the byte
        size of a whole vertex (modulo 2^32). */
    function GetStride(): (r: u32)
      reads this
      ensures Valid() ==> r as int == SizeSum(attributes, |attributes|) % U32Limit
    {
      stride
    }
  }

  /** The first `n` attributes with the offsets calculateOffsetAndStride
      evidently means to store: each attribute starts where the previous one
      ends. */
  function WithRunningOffsets(attributes: seq<BufferAttribute>, n: nat): (r: seq<BufferAttribute>)
    requires n <= |attributes|
    ensures |r| == n
  {
    if n == 0 then []
    else WithRunningOffsets(attributes, n - 1) + [attributes[n - 1].(offset := SizeSum(attributes, n - 1))]
  }

  /** Attribute i keeps its type, size and flag and is placed at the sum of
      the sizes before it. */
  lemma {:induction false} RunningOffsetIsPrefixSum(attributes: seq<BufferAttribute>, n: nat, i: nat)
    requires i < n <= |attributes|
    ensures WithRunningOffsets(attributes, n)[i] == attributes[i].(offset := SizeSum(attributes, i))
  {
    if i < n - 1 {
      RunningOffsetIsPrefixSum(attributes, n - 1, i);
    }
  }

  /** The sum of the first `k` sizes depends only on the first `k` attributes. */
  lemma {:induction false} SizeSumOfPrefix(s: seq<BufferAttribute>, t: seq<BufferAttribute>, k: nat)
    requires k <= |s|
    ensures SizeSum(s + t, k) == SizeSum(s, k)
  {
    if k > 0 {
      SizeSumOfPrefix(s, t, k - 1);
    }
  }

  /** Storing the running offsets changes no size, so the stride stays the
      total size of the attributes. */
  lemma {:induction false} RunningOffsetsKeepSizes(attributes: seq<BufferAttribute>, n: nat)
    requires n <= |attributes|
    ensures SizeSum(WithRunningOffsets(attributes, n), n) == SizeSum(attributes, n)
  {
    if n > 0 {
      RunningOffsetsKeepSizes(attributes, n - 1);
      SizeSumOfPrefix(WithRunningOffsets(attributes, n - 1), [attributes[n - 1].(offset := SizeSum(attributes, n - 1))], n - 1);
    }
  }

  /** Attribute i ends no later than the sum of the sizes before any later
      attribute j (or than the total, for j = |attributes|). */
  lemma {:induction false} AttributeEndsBefore(attributes: seq<BufferAttribute>, i: nat, j: nat)
    requires i < j <= |attributes|
    ensures SizeSum(attributes, i) + attributes[i].size as nat <= SizeSum(attributes, j)
  {
    if j > i + 1 {
      AttributeEndsBefore(attributes, i, j - 1);
    }
  }

  /** With the corrected offsets the attributes lie one after another,
      without overlap, inside the (unwrapped) stride. */
  lemma CorrectedAttributesAreDisjoint(attributes: seq<BufferAttribute>, i: nat, j: nat)
    requires i < j < |attributes|
    ensures var r := WithRunningOffsets(attributes, |attributes|);
            r[i].offset + r[i].size as nat <= r[j].offset &&
            r[j].offset + r[j].size as nat <= SizeSum(attributes, |attributes|)
  {
    RunningOffsetIsPrefixSum(attributes, |attributes|, i);
    RunningOffsetIsPrefixSum(attributes, |attributes|, j);
    AttributeEndsBefore(attributes, i, j);
    AttributeEndsBefore(attributes, j, |attributes|);
  }

  /** A position (Float3) followed by texture coordinates (Float2): as built,
      both attributes claim offset 0, so the coordinates are read from the
      position's bytes; the corrected offsets are 0 and 12. */
  lemma PositionAndUvOverlap()
    ensures var attributes := [NewBufferAttribute(Float3, false), NewBufferAttribute(Float2, false)];
            attributes[1].offset < attributes[0].offset + attributes[0].size as nat &&
            SizeSum(attributes, 2) == 20 &&
            WithRunningOffsets(attributes, 2) == [attributes[0], attributes[1].(offset := 12)]
  {
    var attributes := [NewBufferAttribute(Float3, false), NewBufferAttribute(Float2, false)];
    assert SizeSum(attributes, 1) == 12;
  }

  /** A GPU buffer of vertex data together with the layout of its vertices. */
  class VertexBuffer {
    const name: nat
    const vertices: seq<real>
    var layout: BufferLayout

    /** VertexBuffer(vertices, size): a new buffer object holding the
        vertices, with a default layout. */
    constructor (gl: GlContext, vertices: seq<real>)
      modifies gl
      ensures name == old(gl.nextName) && gl.nextName == name + 1 && gl.calls == old(gl.calls)
      ensures this.vertices == vertices && fresh(layout) && layout.attributes == []
    {
      var n := gl.GenName();
      name := n;
      this.vertices := vertices;
      layout := new BufferLayout.Default();
    }

    method Bind(gl: GlContext)
      modifies gl`calls
      ensures gl.calls == old(gl.calls) + [BindArrayBuffer(name)]
    {
      gl.Call(BindArrayBuffer(name));
    }

    method SetLayout(layout: BufferLayout)
      modifies this`layout
      ensures this.layout == layout
    {
      this.layout := layout;
    }

    function GetLayout(): BufferLayout
      reads this`layout
    {
      layout
    }
  }

  /** A GPU buffer of `count` indices in the given format, holding the packed
      index bytes. */
  class IndexBuffer {
    const name: nat
    const data: seq<u8>
    const count: u32
    const format: IndexType

    constructor (gl: GlContext, data: seq<u8>, count: u32, format: IndexType)
      modifies gl
      ensures name == old(gl.nextName) && gl.nextName == name + 1 && gl.calls == old(gl.calls)
      ensures this.data == data && this.count == count && this.format == format
    {
      var n := gl.GenName();
      name := n;
      this.data := data;
      this.count := count;
      this.format := format;
    }

    method Bind(gl: GlContext)
      modifies gl`calls
      ensures gl.calls == old(gl.calls) + [BindElementArrayBuffer(name)]
    {
      gl.Call(BindElementArrayBuffer(name));
    }
  }
}
