/**
 * An abstract WebGL 2 context. Nothing the device does is modelled: every
 * entry point the core uses only appends a record of itself to a ghost call
 * log, and the two `create` entry points hand out fresh, opaque handles.
 */
module GL {
  import opened Wrappers

  /** A device resource: a WebGLBuffer or a WebGLVertexArrayObject. */
  datatype Handle = Handle(id: nat)

  /** Buffer binding points (`gl.ARRAY_BUFFER`, `gl.ELEMENT_ARRAY_BUFFER`, `gl.UNIFORM_BUFFER`). */
  datatype Target = ArrayBufferTarget | ElementArrayBufferTarget | UniformBufferTarget

  /** A component type enumerant (`gl.FLOAT`, `gl.UNSIGNED_SHORT`, ...); its value is abstract. */
  datatype DataType = DataType(code: nat)

  /** The buffer usage hints of WebGL 2. */
  datatype Usage =
    | StaticDraw | DynamicDraw | StreamDraw
    | StaticRead | DynamicRead | StreamRead
    | StaticCopy | DynamicCopy | StreamCopy

  /** One device call, with its arguments. `T` is the element type of uploaded data. */
  datatype Call<T> =
    | CreateBuffer(createdBuffer: Handle)
    | CreateVertexArray(createdVertexArray: Handle)
    | DeleteVertexArray(deletedVertexArray: Handle)
    | BindBuffer(target: Target, buffer: Option<Handle>)
    | BindBufferBase(target: Target, index: nat, buffer: Option<Handle>)
    | BufferData(target: Target, byteSize: nat, usage: Usage)
    | BufferSubData(target: Target, byteOffset: nat, contents: seq<T>)
    | BindVertexArray(vertexArray: Option<Handle>)
    | VertexAttribPointer(location: nat, size: nat, componentType: DataType, normalized: bool, stride: nat, offset: nat)
    | VertexAttribIPointer(location: nat, size: nat, componentType: DataType, stride: nat, offset: nat)
    | VertexAttribDivisor(location: nat, divisor: nat)
    | EnableVertexAttribArray(location: nat)

  /** The graphics context: the handles it has given out and the calls it has received. */
  class Context<T> {
    var nextId: nat
    ghost var log: seq<Call<T>>

    constructor ()
      ensures nextId == 0 && log == []
    {
      nextId := 0;
      log := [];
    }

    method CreateBuffer() returns (h: Handle)
      modifies this
      ensures h == Handle(old(nextId)) && nextId == old(nextId) + 1
      ensures log == old(log) + [Call.CreateBuffer(h)]
    {
      h := Handle(nextId);
      nextId := nextId + 1;
      log := log + [Call.CreateBuffer(h)];
    }

    method CreateVertexArray() returns (h: Handle)
      modifies this
      ensures h == Handle(old(nextId)) && nextId == old(nextId) + 1
      ensures log == old(log) + [Call.CreateVertexArray(h)]
    {
      h := Handle(nextId);
      nextId := nextId + 1;
      log := log + [Call.CreateVertexArray(h)];
    }

    method DeleteVertexArray(h: Handle)
      modifies this`log
      ensures log == old(log) + [Call.DeleteVertexArray(h)]
    {
      log := log + [Call.DeleteVertexArray(h)];
    }

    method BindBuffer(target: Target, buffer: Option<Handle>)
      modifies this`log
      ensures log == old(log) + [Call.BindBuffer(target, buffer)]
    {
      log := log + [Call.BindBuffer(target, buffer)];
    }

    method BindBufferBase(target: Target, index: nat, buffer: Option<Handle>)
      modifies this`log
      ensures log == old(log) + [Call.BindBufferBase(target, index, buffer)]
    {
      log := log + [Call.BindBufferBase(target, index, buffer)];
    }

    method BufferData(target: Target, byteSize: nat, usage: Usage)
      modifies this`log
      ensures log == old(log) + [Call.BufferData(target, byteSize, usage)]
    {
      log := log + [Call.BufferData(target, byteSize, usage)];
    }

    method BufferSubData(target: Target, byteOffset: nat, contents: seq<T>)
      modifies this`log
      ensures log == old(log) + [Call.BufferSubData(target, byteOffset, contents)]
    {
      log := log + [Call.BufferSubData(target, byteOffset, contents)];
    }

    method BindVertexArray(vertexArray: Option<Handle>)
      modifies this`log
      ensures log == old(log) + [Call.BindVertexArray(vertexArray)]
    {
      log := log + [Call.BindVertexArray(vertexArray)];
    }

    method VertexAttribPointer(location: nat, size: nat, componentType: DataType, normalized: bool, stride: nat, offset: nat)
      modifies this`log
      ensures log == old(log) + [Call.VertexAttribPointer(location, size, componentType, normalized, stride, offset)]
    {
      log := log + [Call.VertexAttribPointer(location, size, componentType, normalized, stride, offset)];
    }

    method VertexAttribIPointer(location: nat, size: nat, componentType: DataType, stride: nat, offset: nat)
      modifies this`log
      ensures log == old(log) + [Call.VertexAttribIPointer(location, size, componentType, stride, offset)]
    {
      log := log + [Call.VertexAttribIPointer(location, size, componentType, stride, offset)];
    }

    method VertexAttribDivisor(location: nat, divisor: nat)
      modifies this`log
      ensures log == old(log) + [Call.VertexAttribDivisor(location, divisor)]
    {
      log := log + [Call.VertexAttribDivisor(location, divisor)];
    }

    method EnableVertexAttribArray(location: nat)
      modifies this`log
      ensures log == old(log) + [Call.EnableVertexAttribArray(location)]
    {
      log := log + [Call.EnableVertexAttribArray(location)];
    }
  }
}
