/** The part of the OpenGL API the buffer code drives, seen as a trace of calls.
    Object names come from a counter, standing for the glCreate and glGen calls. */
module OpenGL {

  const GL_FALSE: nat := 0
  const GL_TRUE: nat := 1
  const GL_INT: nat := 0x1404
  const GL_FLOAT: nat := 0x1406

  datatype GlCall =
    | BindVertexArray(vertexArray: nat)
    | BindArrayBuffer(buffer: nat)
    | BindElementArrayBuffer(buffer: nat)
    | EnableVertexAttribArray(index: nat)
    | VertexAttribPointer(index: nat, size: nat, glType: nat, normalized: nat, stride: nat, offset: nat)
      /** An `assertm(false, message)` reached: a debug build stops here, a release build goes on. */
    | AssertionFailed(message: string)

  class GlContext {
    var calls: seq<GlCall>
    var nextName: nat

    constructor ()
      ensures calls == [] && nextName == 1
    {
      calls := [];
      nextName := 1;
    }

    /** A new object name, as glCreateBuffers / glCreateVertexArrays hand out. */
    method GenName() returns (name: nat)
      modifies this`nextName
      ensures name == old(nextName)
      ensures nextName == name + 1 && calls == old(calls)
    {
      name := nextName;
      nextName := nextName + 1;
    }

    method Call(c: GlCall)
      modifies this`calls
      ensures calls == old(calls) + [c] && nextName == old(nextName)
    {
      calls := calls + [c];
    }
  }
}
