/** The vertex array object: it binds vertex buffers, gives each float
    attribute of their layouts the next attribute slot, and holds the index
    buffer in use. Its effect on OpenGL is the trace of calls it makes. */
module VertexArray {
  import opened Base
  import opened OpenGL
  import opened Buffer

  /** Whether AddVertexBuffer configures an attribute of type `t`; every
      other type only fails an assertion. */
  predicate HasSlot(t: ShaderDataType)
  {
    t == Float2 || t == Float3
  }

  /** Number of the first `n` attributes that take a slot. */
  function SlotCount(attributes: seq<BufferAttribute>, n: nat): nat
    requires n <= |attributes|
  {
    if n == 0 then 0
    else SlotCount(attributes, n - 1) + (if HasSlot(attributes[n - 1].dataType) then 1 else 0)
  }

  /** The configuration of slot `slot` for attribute `a`: its component
      count and GL type, GL_TRUE exactly when it is normalised, the layout's
      stride and the attribute's stored offset. */
  function AttribSetupCall(a: BufferAttribute, stride: u32, slot: nat): GlCall
  {
    VertexAttribPointer(slot, GetComponentCount(a) as nat, ShaderDataTypeToGLType(a.dataType),
                        if a.normalized then GL_TRUE else GL_FALSE, stride as nat, a.offset)
  }

  /** The message of the assertion an attribute without a slot fails. */
  function AssertionMessage(t: ShaderDataType): string
  {
    if t.None? then "Unknown ShaderDataType!" else "Not implemented"
  }

  /** The calls AddVertexBuffer makes for one attribute, given the slot it
      would take. */
  function AttributeCalls(a: BufferAttribute, stride: u32, slot: nat): seq<GlCall>
  {
    if HasSlot(a.dataType) then [EnableVertexAttribArray(slot), AttribSetupCall(a, stride, slot)]
    else [AssertionFailed(AssertionMessage(a.dataType))]
  }

  /** The calls AddVertexBuffer makes for the first `n` attributes of a
      layout, slots numbered from `first`. */
  function LayoutCalls(attributes: seq<BufferAttribute>, n: nat, stride: u32, first: nat): seq<GlCall>
    requires n <= |attributes|
  {
    if n == 0 then []
    else LayoutCalls(attributes, n - 1, stride, first) + AttributeCalls(attributes[n - 1], stride, first + SlotCount(attributes, n - 1))
  }

  /** Slot-taking attributes get distinct slots, later ones higher: the
      slot of attribute i is first + SlotCount(attributes, i). */
  lemma {:induction false} SlotsIncrease(attributes: seq<BufferAttribute>, i: nat, j: nat)
    requires i < j <= |attributes| && HasSlot(attributes[i].dataType)
    ensures SlotCount(attributes, i) < SlotCount(attributes, j)
    decreases j - i
  {
    if j > i + 1 {
      SlotsIncrease(attributes, i, j - 1);
    }
  }

  /** The slots leave no gap: each of the SlotCount(attributes, n) slots
      after `first` belongs to one of the first n attributes. */
  lemma {:induction false} SlotsAreDense(attributes: seq<BufferAttribute>, n: nat, k: nat)
    requires n <= |attributes| && k < SlotCount(attributes, n)
    ensures exists i :: 0 <= i < n && HasSlot(attributes[i].dataType) && SlotCount(attributes, i) == k
  {
    if k < SlotCount(attributes, n - 1) {
      SlotsAreDense(attributes, n - 1, k);
      var i :| 0 <= i < n - 1 && HasSlot(attributes[i].dataType) && SlotCount(attributes, i) == k;
      assert 0 <= i < n;
    } else {
      assert HasSlot(attributes[n - 1].dataType) && SlotCount(attributes, n - 1) == k;
    }
  }

  /** Every attribute configuration in the trace of a layout carries the
      layout's stride, a component count of 2 or 3, the float type and the
      stored offset of one of the layout's attributes. */
  lemma {:induction false} LayoutAttribsUseStride(attributes: seq<BufferAttribute>, n: nat, stride: u32, first: nat)
    requires n <= |attributes|
    ensures forall c :: c in LayoutCalls(attributes, n, stride, first) && c.VertexAttribPointer? ==>
              && c.stride == stride as nat && 2 <= c.size <= 3 && c.glType == GL_FLOAT
              && exists i :: 0 <= i < n && c.offset == attributes[i].offset
  {
    if n != 0 {
      LayoutAttribsUseStride(attributes, n - 1, stride, first);
      var a := attributes[n - 1];
      forall c | c in AttributeCalls(a, stride, first + SlotCount(attributes, n - 1)) && c.VertexAttribPointer?
        ensures c.offset == attributes[n - 1].offset
      {
      }
    }
  }

  /** With the offsets calculateOffsetAndStride leaves (all 0), every
      attribute of the buffer is configured to start at byte 0 of the vertex. */
  lemma ZeroOffsetsConfigureZero(attributes: seq<BufferAttribute>, stride: u32, first: nat)
    requires forall i :: 0 <= i < |attributes| ==> attributes[i].offset == 0
    ensures forall c :: c in LayoutCalls(attributes, |attributes|, stride, first) && c.VertexAttribPointer? ==> c.offset == 0
  {
    LayoutAttribsUseStride(attributes, |attributes|, stride, first);
  }

  /** An OpenGL vertex array object. */
  class VertexArray {
    const name: nat
    var vertexBufferIndex: nat
    var vertexBuffers: seq<VertexBuffer>
    var indexBuffer: Option<IndexBuffer>

    constructor (gl: GlContext)
      modifies gl
      ensures name == old(gl.nextName) && gl.nextName == name + 1 && gl.calls == old(gl.calls)
      ensures vertexBufferIndex == 0 && vertexBuffers == [] && indexBuffer == Option.None
    {
      var n := gl.GenName();
      name := n;
      vertexBufferIndex := 0;
      vertexBuffers := [];
      indexBuffer := Option.None;
    }

    method Bind(gl: GlContext)
      modifies gl`calls
      ensures gl.calls == old(gl.calls) + [BindVertexArray(name)]
    {
      gl.Call(BindVertexArray(name));
    }

    method Unbind(gl: GlContext)
      modifies gl`calls
      ensures gl.calls == old(gl.calls) + [BindVertexArray(0)]
    {
      gl.Call(BindVertexArray(0));
    }

    /** Binds this array and the buffer, configures one slot for each Float2
        or Float3 attribute of the buffer's layout, numbering on from the
        slots earlier buffers took, and keeps the buffer. */
    method AddVertexBuffer(gl: GlContext, vertexBuffer: VertexBuffer)
      modifies this`vertexBufferIndex, this`vertexBuffers, gl`calls
      ensures var attributes := vertexBuffer.layout.attributes;
              gl.calls == old(gl.calls) + [BindVertexArray(name), BindArrayBuffer(vertexBuffer.name)]
                          + LayoutCalls(attributes, |attributes|, vertexBuffer.layout.stride, old(vertexBufferIndex))
      ensures vertexBufferIndex == old(vertexBufferIndex) + SlotCount(vertexBuffer.layout.attributes, |vertexBuffer.layout.attributes|)
      ensures vertexBuffers == old(vertexBuffers) + [vertexBuffer]
    {
      gl.Call(BindVertexArray(name));
      vertexBuffer.Bind(gl);
      var layout := vertexBuffer.GetLayout();
      AddAttributes(gl, layout.attributes, layout.GetStride());
      vertexBuffers := vertexBuffers + [vertexBuffer];
    }

    /** The loop of AddVertexBuffer over the attributes of the layout. */
    method AddAttributes(gl: GlContext, attributes: seq<BufferAttribute>, stride: u32)
      modifies this`vertexBufferIndex, gl`calls
      ensures gl.calls == old(gl.calls) + LayoutCalls(attributes, |attributes|, stride, old(vertexBufferIndex))
      ensures vertexBufferIndex == old(vertexBufferIndex) + SlotCount(attributes, |attributes|)
    {
      ghost var start := gl.calls;
      ghost var first := vertexBufferIndex;
      for i := 0 to |attributes|
        invariant gl.calls == start + LayoutCalls(attributes, i, stride, first)
        invariant vertexBufferIndex == first + SlotCount(attributes, i)
      {
        ghost var done := LayoutCalls(attributes, i, stride, first);
        ghost var added := AttributeCalls(attributes[i], stride, vertexBufferIndex);
        AddAttribute(gl, attributes[i], stride);
        assert gl.calls == start + LayoutCalls(attributes, i + 1, stride, first) by {
          assert LayoutCalls(attributes, i + 1, stride, first) == done + added;
          assert (start + done) + added == start + (done + added);
        }
      }
    }

    /** One step of AddVertexBuffer's loop: a Float2 or Float3 attribute is
        enabled and configured at the current slot, which then advances; any
        other type fails an assertion. */
    method AddAttribute(gl: GlContext, attrib: BufferAttribute, stride: u32)
      modifies this`vertexBufferIndex, gl`calls
      ensures gl.calls == old(gl.calls) + AttributeCalls(attrib, stride, old(vertexBufferIndex))
      ensures vertexBufferIndex == old(vertexBufferIndex) + (if HasSlot(attrib.dataType) then 1 else 0)
    {
      match attrib.dataType {
        case Float2 | Float3 =>
          gl.Call(EnableVertexAttribArray(vertexBufferIndex));
          gl.Call(VertexAttribPointer(vertexBufferIndex, GetComponentCount(attrib) as nat,
                                      ShaderDataTypeToGLType(attrib.dataType),
                                      if attrib.normalized then GL_TRUE else GL_FALSE,
                                      stride as nat, attrib.offset));
          vertexBufferIndex := vertexBufferIndex + 1;
        case Float | Int | Int2 | Int3 =>
          gl.Call(AssertionFailed("Not implemented"));
        case None =>
          gl.Call(AssertionFailed("Unknown ShaderDataType!"));
      }
    }

    /** Binds this array and the index buffer and makes it the current one. */
    method SetIndexBuffer(gl: GlContext, indexBuffer: IndexBuffer)
      modifies this`indexBuffer, gl`calls
      ensures gl.calls == old(gl.calls) + [BindVertexArray(name), BindElementArrayBuffer(indexBuffer.name)]
      ensures this.indexBuffer == Some(indexBuffer)
    {
      gl.Call(BindVertexArray(name));
      indexBuffer.Bind(gl);
      this.indexBuffer := Some(indexBuffer);
    }
  }
}
