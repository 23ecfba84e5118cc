/**
 * The vertex-array state tracker: a VertexArray owns one vertex array object
 * and tracks the draw parameters its attachments imply (element count,
 * instance count, whether it is instanced or indexed, the index type).
 * Attaching an attribute buffer configures one attribute location per column
 * of the buffer; binding is skipped when the shared application state says
 * this object is already bound.
 */
module VertexArrays {
  import opened Wrappers
  import opened GL

  /** What the tracker reads of a vertex buffer object. */
  datatype VertexBuffer = VertexBuffer(
    buffer: Handle,
    binding: Target,          // the target the buffer binds to
    componentType: DataType,  // component type of the data
    itemSize: nat,            // components per column
    numItems: nat,            // vertices, instances or indices held
    numColumns: nat)          // attribute locations one item spans (4 for a mat4)

  /** The draw parameters a vertex array tracks. */
  datatype DrawState = DrawState(
    numElements: nat,
    numInstances: nat,
    instanced: bool,
    indexed: bool,
    indexType: Option<DataType>)

  /** The state of a fresh vertex array. */
  const Initial := DrawState(0, 0, false, false, None)

  /** One attachment: an attribute buffer (per-vertex or per-instance) or an index buffer. */
  datatype Attachment =
    | AttributeAttachment(perInstance: bool, count: nat)
    | IndexAttachment(count: nat, indexType: DataType)

  predicate IsInstancedAttribute(a: Attachment) {
    a.AttributeAttachment? && a.perInstance
  }

  predicate IsVertexAttribute(a: Attachment) {
    a.AttributeAttachment? && !a.perInstance
  }

  /** The draw parameters after one attachment. */
  function Step(s: DrawState, a: Attachment): (r: DrawState)
    ensures r.instanced == (s.instanced || IsInstancedAttribute(a))
    ensures r.indexed == (s.indexed || a.IndexAttachment?)
    ensures IsInstancedAttribute(a) ==> r.numInstances == a.count && r.numElements == s.numElements
    ensures IsVertexAttribute(a) ==> (r.numInstances == s.numInstances &&
      (s.numElements != 0 ==> r.numElements == s.numElements) && (s.numElements == 0 ==> r.numElements == a.count))
    ensures a.AttributeAttachment? ==> r.indexType == s.indexType
    ensures a.IndexAttachment? ==>
      r.numElements == 3 * a.count && r.indexType == Some(a.indexType) && r.numInstances == s.numInstances
  {
    match a
    case AttributeAttachment(perInstance, count) =>
      var s' := s.(instanced := s.instanced || perInstance);
      if perInstance then s'.(numInstances := count)
      else s'.(numElements := if s.numElements != 0 then s.numElements else count)
    case IndexAttachment(count, indexType) =>
      s.(numElements := count * 3, indexType := Some(indexType), indexed := true)
  }

  /** The draw parameters after a sequence of attachments, oldest first. */
  function Replay(s: DrawState, history: seq<Attachment>): (r: DrawState)
    ensures s.instanced ==> r.instanced
    ensures s.indexed ==> r.indexed
    ensures s.indexType.Some? ==> r.indexType.Some?
    decreases |history|
  {
    if history == [] then s else Replay(Step(s, history[0]), history[1..])
  }

  /** Replaying one more attachment is one more step. */
  lemma {:induction false} ReplayAppend(s: DrawState, history: seq<Attachment>, a: Attachment)
    ensures Replay(s, history + [a]) == Step(Replay(s, history), a)
    decreases |history|
  {
    if history != [] {
      assert (history + [a])[1..] == history[1..] + [a];
      ReplayAppend(Step(s, history[0]), history[1..], a);
    }
  }

  /** `instanced` is sticky: it holds after a history exactly when it held before or
    * the history attached a per-instance buffer. */
  lemma {:induction false} InstancedSticky(s: DrawState, history: seq<Attachment>)
    ensures Replay(s, history).instanced <==>
      s.instanced || exists k :: 0 <= k < |history| && IsInstancedAttribute(history[k])
    decreases |history|
  {
    if history != [] {
      InstancedSticky(Step(s, history[0]), history[1..]);
      if exists k :: 0 <= k < |history| - 1 && IsInstancedAttribute(history[1..][k]) {
        var k :| 0 <= k < |history| - 1 && IsInstancedAttribute(history[1..][k]);
        assert IsInstancedAttribute(history[k + 1]);
      }
      if exists k :: 0 <= k < |history| && IsInstancedAttribute(history[k]) {
        var k :| 0 <= k < |history| && IsInstancedAttribute(history[k]);
        if k > 0 {
          assert IsInstancedAttribute(history[1..][k - 1]);
        }
      }
    }
  }

  /** `indexed` is sticky: it holds after a history exactly when it held before or the
    * history attached an index buffer. */
  lemma {:induction false} IndexedSticky(s: DrawState, history: seq<Attachment>)
    ensures Replay(s, history).indexed <==>
      s.indexed || exists k :: 0 <= k < |history| && history[k].IndexAttachment?
    decreases |history|
  {
    if history != [] {
      IndexedSticky(Step(s, history[0]), history[1..]);
      if exists k :: 0 <= k < |history| - 1 && history[1..][k].IndexAttachment? {
        var k :| 0 <= k < |history| - 1 && history[1..][k].IndexAttachment?;
        assert history[k + 1].IndexAttachment?;
      }
      if exists k :: 0 <= k < |history| && history[k].IndexAttachment? {
        var k :| 0 <= k < |history| && history[k].IndexAttachment?;
        if k > 0 {
          assert history[1..][k - 1].IndexAttachment?;
        }
      }
    }
  }

  /** A history without per-instance buffers leaves the instance count alone. */
  lemma {:induction false} InstanceCountUntouched(s: DrawState, history: seq<Attachment>)
    requires forall k :: 0 <= k < |history| ==> !IsInstancedAttribute(history[k])
    ensures Replay(s, history).numInstances == s.numInstances
    decreases |history|
  {
    if history != [] {
      assert !IsInstancedAttribute(history[0]);
      InstanceCountUntouched(Step(s, history[0]), history[1..]);
    }
  }

  /** The last per-instance buffer sets the instance count. */
  lemma {:induction false} LastInstanceCountWins(s: DrawState, history: seq<Attachment>, k: nat)
    requires k < |history| && IsInstancedAttribute(history[k])
    requires forall j :: k < j < |history| ==> !IsInstancedAttribute(history[j])
    ensures Replay(s, history).numInstances == history[k].count
    decreases |history|
  {
    if k == 0 {
      InstanceCountUntouched(Step(s, history[0]), history[1..]);
    } else {
      LastInstanceCountWins(Step(s, history[0]), history[1..], k - 1);
    }
  }

  /** Without index buffers, a non-zero element count is never replaced. */
  lemma {:induction false} ElementCountSticks(s: DrawState, history: seq<Attachment>)
    requires s.numElements != 0
    requires forall j :: 0 <= j < |history| ==> !history[j].IndexAttachment?
    ensures Replay(s, history).numElements == s.numElements
    decreases |history|
  {
    if history != [] {
      assert !history[0].IndexAttachment?;
      ElementCountSticks(Step(s, history[0]), history[1..]);
    }
  }

  /** Without index buffers, starting from no elements, the first per-vertex buffer with
    * a non-zero item count sets the element count. */
  lemma {:induction false} FirstElementCountWins(s: DrawState, history: seq<Attachment>, k: nat)
    requires s.numElements == 0
    requires forall j :: 0 <= j < |history| ==> !history[j].IndexAttachment?
    requires k < |history| && IsVertexAttribute(history[k]) && history[k].count != 0
    requires forall j :: 0 <= j < k && IsVertexAttribute(history[j]) ==> history[j].count == 0
    ensures Replay(s, history).numElements == history[k].count
    decreases |history|
  {
    assert !history[0].IndexAttachment?;
    if k == 0 {
      ElementCountSticks(Step(s, history[0]), history[1..]);
    } else {
      FirstElementCountWins(Step(s, history[0]), history[1..], k - 1);
    }
  }

  /** An index buffer sets the element count to three per index item, records the index
    * type and marks the array indexed whatever came before, and leaves the instancing
    * state as it was. */
  lemma {:induction false} IndexBufferOverrides(s: DrawState, history: seq<Attachment>, count: nat, indexType: DataType)
    ensures var before, after := Replay(s, history), Replay(s, history + [IndexAttachment(count, indexType)]);
      && after.numElements == count * 3
      && after.indexType == Some(indexType)
      && after.indexed
      && after.instanced == before.instanced
      && after.numInstances == before.numInstances
  {
    ReplayAppend(s, history, IndexAttachment(count, indexType));
  }

  /** Bytes one column of an item occupies. */
  function ColumnWidth(itemSize: nat, typeSize: nat): (r: nat)
    ensures r == 0 <==> itemSize == 0 || typeSize == 0
  {
    itemSize * typeSize
  }

  /** Byte distance between consecutive items of a buffer whose items span `numColumns` columns. */
  function ColumnStride(numColumns: nat, itemSize: nat, typeSize: nat): (r: nat)
    ensures numColumns > 0 ==> r >= ColumnWidth(itemSize, typeSize)
    ensures r == 0 <==> numColumns == 0 || itemSize == 0 || typeSize == 0
  {
    numColumns * ColumnWidth(itemSize, typeSize)
  }

  /** Byte offset of column `column` inside an item. */
  function ColumnOffset(column: nat, itemSize: nat, typeSize: nat): (r: nat)
    ensures column == 0 ==> r == 0
    ensures r == 0 <==> column == 0 || itemSize == 0 || typeSize == 0
  {
    column * ColumnWidth(itemSize, typeSize)
  }

  /** Columns are laid side by side: each starts where the previous one ends and all of
    * them fit in the stride, so every column offset is below a positive stride. */
  lemma {:induction false} ColumnsTileStride(column: nat, numColumns: nat, itemSize: nat, typeSize: nat)
    requires column < numColumns
    ensures ColumnOffset(column + 1, itemSize, typeSize) == ColumnOffset(column, itemSize, typeSize) + ColumnWidth(itemSize, typeSize)
    ensures ColumnOffset(column, itemSize, typeSize) + ColumnWidth(itemSize, typeSize) <= ColumnStride(numColumns, itemSize, typeSize)
    ensures itemSize > 0 && typeSize > 0 ==>
      ColumnOffset(column, itemSize, typeSize) < ColumnStride(numColumns, itemSize, typeSize)
  {
    var width := ColumnWidth(itemSize, typeSize);
    var rest: nat := numColumns - (column + 1);
    assert (column + 1) * width == column * width + width;
    assert numColumns * width == (column + 1) * width + rest * width;
    assert rest * width >= 0;
    if itemSize > 0 && typeSize > 0 {
      assert width > 0;
    }
  }

  /** The pointer call for one column: integer attributes keep their integer type,
    * the others carry the normalization flag. */
  function ColumnPointer<T>(attributeIndex: nat, vb: VertexBuffer, typeSize: nat, integer: bool, normalized: bool, column: nat): Call<T> {
    var stride := ColumnStride(vb.numColumns, vb.itemSize, typeSize);
    var offset := ColumnOffset(column, vb.itemSize, typeSize);
    if integer then VertexAttribIPointer(attributeIndex + column, vb.itemSize, vb.componentType, stride, offset)
    else VertexAttribPointer(attributeIndex + column, vb.itemSize, vb.componentType, normalized, stride, offset)
  }

  /** The calls that configure one column. */
  function ColumnSetup<T>(attributeIndex: nat, vb: VertexBuffer, typeSize: nat, instanced: bool, integer: bool, normalized: bool, column: nat): seq<Call<T>> {
    [ColumnPointer(attributeIndex, vb, typeSize, integer, normalized, column)]
    + (if instanced then [VertexAttribDivisor(attributeIndex + column, 1)] else [])
    + [EnableVertexAttribArray(attributeIndex + column)]
  }

  /** The calls that configure columns `0..count`, in order. */
  function ColumnSetups<T>(attributeIndex: nat, vb: VertexBuffer, typeSize: nat, instanced: bool, integer: bool, normalized: bool, count: nat): seq<Call<T>> {
    if count == 0 then []
    else ColumnSetups(attributeIndex, vb, typeSize, instanced, integer, normalized, count - 1)
         + ColumnSetup(attributeIndex, vb, typeSize, instanced, integer, normalized, count - 1)
  }

  /** Every call an attribute attachment issues: bind the vertex array and the buffer,
    * configure each column, unbind both. */
  function AttributeCalls<T>(vertexArray: Option<Handle>, attributeIndex: nat, vb: VertexBuffer, typeSize: nat, instanced: bool, integer: bool, normalized: bool): seq<Call<T>> {
    [BindVertexArray(vertexArray), BindBuffer(vb.binding, Some(vb.buffer))]
    + ColumnSetups(attributeIndex, vb, typeSize, instanced, integer, normalized, vb.numColumns)
    + [BindVertexArray(None), BindBuffer(vb.binding, None)]
  }

  /** A call that configures one of the buffer's column locations as the attachment asks. */
  predicate ConfiguresColumn<T>(c: Call<T>, attributeIndex: nat, vb: VertexBuffer, typeSize: nat, instanced: bool, integer: bool, normalized: bool) {
    match c
    case VertexAttribPointer(location, size, componentType, norm, stride, offset) =>
      && !integer && norm == normalized
      && attributeIndex <= location < attributeIndex + vb.numColumns
      && size == vb.itemSize && componentType == vb.componentType
      && stride == ColumnStride(vb.numColumns, vb.itemSize, typeSize)
      && offset == ColumnOffset(location - attributeIndex, vb.itemSize, typeSize)
    case VertexAttribIPointer(location, size, componentType, stride, offset) =>
      && integer
      && attributeIndex <= location < attributeIndex + vb.numColumns
      && size == vb.itemSize && componentType == vb.componentType
      && stride == ColumnStride(vb.numColumns, vb.itemSize, typeSize)
      && offset == ColumnOffset(location - attributeIndex, vb.itemSize, typeSize)
    case VertexAttribDivisor(location, divisor) =>
      instanced && divisor == 1 && attributeIndex <= location < attributeIndex + vb.numColumns
    case EnableVertexAttribArray(location) =>
      attributeIndex <= location < attributeIndex + vb.numColumns
    case _ => false
  }

  /** The column loop issues nothing but column configuration: pointer calls of the
    * requested kind with the column's stride and offset, divisors of 1 only for an
    * instanced attachment, and enables, all at the buffer's column locations. */
  lemma {:induction false} ColumnSetupsSound<T>(attributeIndex: nat, vb: VertexBuffer, typeSize: nat, instanced: bool, integer: bool, normalized: bool, count: nat)
    requires count <= vb.numColumns
    ensures forall c :: c in ColumnSetups<T>(attributeIndex, vb, typeSize, instanced, integer, normalized, count) ==>
      ConfiguresColumn(c, attributeIndex, vb, typeSize, instanced, integer, normalized)
  {
    if count > 0 {
      ColumnSetupsSound<T>(attributeIndex, vb, typeSize, instanced, integer, normalized, count - 1);
    }
  }

  /** `calls` hold the pointer call and the enable of column `column`, and its divisor of 1
    * when the attachment is instanced. */
  ghost predicate SetsUpColumn<T>(calls: seq<Call<T>>, attributeIndex: nat, vb: VertexBuffer, typeSize: nat, instanced: bool, integer: bool, normalized: bool, column: nat) {
    && ColumnPointer(attributeIndex, vb, typeSize, integer, normalized, column) in calls
    && EnableVertexAttribArray(attributeIndex + column) in calls
    && (instanced ==> VertexAttribDivisor(attributeIndex + column, 1) in calls)
  }

  /** Every column location gets its pointer call and is enabled, and an instanced
    * attachment gives each of them a divisor of 1. */
  lemma {:induction false} ColumnSetupsComplete<T>(attributeIndex: nat, vb: VertexBuffer, typeSize: nat, instanced: bool, integer: bool, normalized: bool, count: nat)
    ensures forall column :: 0 <= column < count ==>
      SetsUpColumn(ColumnSetups<T>(attributeIndex, vb, typeSize, instanced, integer, normalized, count),
        attributeIndex, vb, typeSize, instanced, integer, normalized, column)
  {
    if count > 0 {
      ColumnSetupsComplete<T>(attributeIndex, vb, typeSize, instanced, integer, normalized, count - 1);
      var prev := ColumnSetups<T>(attributeIndex, vb, typeSize, instanced, integer, normalized, count - 1);
      var setup := ColumnSetup<T>(attributeIndex, vb, typeSize, instanced, integer, normalized, count - 1);
      var calls := ColumnSetups<T>(attributeIndex, vb, typeSize, instanced, integer, normalized, count);
      assert calls == prev + setup;
      forall column | 0 <= column < count
        ensures SetsUpColumn(calls, attributeIndex, vb, typeSize, instanced, integer, normalized, column)
      {
        if column < count - 1 {
          assert SetsUpColumn(prev, attributeIndex, vb, typeSize, instanced, integer, normalized, column);
        } else {
          assert setup[0] == ColumnPointer(attributeIndex, vb, typeSize, integer, normalized, column);
          assert setup[|setup| - 1] == EnableVertexAttribArray(attributeIndex + column);
          if instanced {
            assert setup[1] == VertexAttribDivisor(attributeIndex + column, 1);
          }
        }
      }
    }
  }

  /** Each column costs two calls, three when instanced. */
  lemma {:induction false} ColumnSetupsLength<T>(attributeIndex: nat, vb: VertexBuffer, typeSize: nat, instanced: bool, integer: bool, normalized: bool, count: nat)
    ensures |ColumnSetups<T>(attributeIndex, vb, typeSize, instanced, integer, normalized, count)| == count * (if instanced then 3 else 2)
  {
    if count > 0 {
      ColumnSetupsLength<T>(attributeIndex, vb, typeSize, instanced, integer, normalized, count - 1);
    }
  }

  /** The shared application state: which vertex array is currently bound. */
  class AppState<T> {
    var vertexArray: VertexArray?<T>

    constructor ()
      ensures vertexArray == null
    {
      vertexArray := null;
    }
  }

  class VertexArray<T> {
    const gl: Context<T>
    const appState: AppState<T>
    /** Bytes per component of each component type. */
    const typeSize: DataType -> nat
    var vertexArray: Option<Handle>
    var numElements: nat
    var indexType: Option<DataType>
    var instancedBuffers: nat
    var indexed: bool
    var instanced: bool
    var numInstances: nat

    /** The tracked draw parameters. */
    function State(): DrawState
      reads this
    {
      DrawState(numElements, numInstances, instanced, indexed, indexType)
    }

    constructor (gl: Context<T>, appState: AppState<T>, typeSize: DataType -> nat)
      modifies gl
      ensures this.gl == gl && this.appState == appState && this.typeSize == typeSize
      ensures State() == Initial && instancedBuffers == 0
      ensures vertexArray == Some(Handle(old(gl.nextId))) && gl.nextId == old(gl.nextId) + 1
      ensures gl.log == old(gl.log) + [CreateVertexArray(vertexArray.value)]
    {
      this.gl := gl;
      var handle := gl.CreateVertexArray();
      vertexArray := Some(handle);
      this.appState := appState;
      this.typeSize := typeSize;
      numElements := 0;
      indexType := None;
      instancedBuffers := 0;
      indexed := false;
      instanced := false;
      numInstances := 0;
    }

    /** Attach `vertexBuffer` at locations `attributeIndex`, `attributeIndex + 1`, ...
      * (one per column), per instance or per vertex, read as integers or as floats
      * (normalized or not). */
    method AttributeBuffer(attributeIndex: nat, vertexBuffer: VertexBuffer, instanced: bool, integer: bool, normalized: bool)
      modifies this`numElements, this`numInstances, this`instanced, gl`log
      ensures this.instanced == (old(this.instanced) || instanced)
      ensures instanced ==> numInstances == vertexBuffer.numItems && numElements == old(numElements)
      ensures !instanced ==> (numInstances == old(numInstances) &&
        numElements == (if old(numElements) != 0 then old(numElements) else vertexBuffer.numItems))
      ensures State() == Step(old(State()), AttributeAttachment(instanced, vertexBuffer.numItems))
      ensures gl.log == old(gl.log) + AttributeCalls(vertexArray, attributeIndex, vertexBuffer,
        typeSize(vertexBuffer.componentType), instanced, integer, normalized)
    {
      var bytes := typeSize(vertexBuffer.componentType);
      gl.BindVertexArray(vertexArray);
      gl.BindBuffer(vertexBuffer.binding, Some(vertexBuffer.buffer));
      ConfigureColumns(attributeIndex, vertexBuffer, bytes, instanced, integer, normalized);
      RecordAttribute(instanced, vertexBuffer.numItems);
      gl.BindVertexArray(None);
      gl.BindBuffer(vertexBuffer.binding, None);
    }

    /** The draw-state update of an attribute attachment: instancing is sticky, a
      * per-instance buffer sets the instance count, a per-vertex buffer sets the
      * element count unless one is already set. */
    method RecordAttribute(perInstance: bool, numItems: nat)
      modifies this`numElements, this`numInstances, this`instanced
      ensures State() == Step(old(State()), AttributeAttachment(perInstance, numItems))
    {
      instanced := instanced || perInstance;
      if perInstance {
        numInstances := numItems;
      } else {
        numElements := if numElements != 0 then numElements else numItems;
      }
    }

    /** One pass of the column loop. */
    method ConfigureColumn(attributeIndex: nat, vertexBuffer: VertexBuffer, bytes: nat, instanced: bool, integer: bool, normalized: bool, column: nat)
      modifies gl`log
      ensures gl.log == old(gl.log) + ColumnSetup(attributeIndex, vertexBuffer, bytes, instanced, integer, normalized, column)
    {
      var stride := ColumnStride(vertexBuffer.numColumns, vertexBuffer.itemSize, bytes);
      var offset := ColumnOffset(column, vertexBuffer.itemSize, bytes);
      if integer {
        gl.VertexAttribIPointer(attributeIndex + column, vertexBuffer.itemSize, vertexBuffer.componentType, stride, offset);
      } else {
        gl.VertexAttribPointer(attributeIndex + column, vertexBuffer.itemSize, vertexBuffer.componentType, normalized, stride, offset);
      }
      if instanced {
        gl.VertexAttribDivisor(attributeIndex + column, 1);
      }
      gl.EnableVertexAttribArray(attributeIndex + column);
    }

    /** The column loop of an attribute attachment: one pointer call per column, a
      * divisor for instanced data, and an enable. */
    method ConfigureColumns(attributeIndex: nat, vertexBuffer: VertexBuffer, bytes: nat, instanced: bool, integer: bool, normalized: bool)
      modifies gl`log
      ensures gl.log == old(gl.log) + ColumnSetups(attributeIndex, vertexBuffer, bytes, instanced, integer, normalized, vertexBuffer.numColumns)
    {
      var numColumns := vertexBuffer.numColumns;
      var i := 0;
      while i < numColumns
        invariant 0 <= i <= numColumns
        invariant gl.log == old(gl.log) + ColumnSetups(attributeIndex, vertexBuffer, bytes, instanced, integer, normalized, i)
      {
        ConfigureColumn(attributeIndex, vertexBuffer, bytes, instanced, integer, normalized, i);
        i := i + 1;
      }
    }

    /** Per-vertex float attribute. */
    method VertexAttributeBuffer(attributeIndex: nat, vertexBuffer: VertexBuffer)
      modifies this`numElements, this`numInstances, this`instanced, gl`log
      ensures State() == Step(old(State()), AttributeAttachment(false, vertexBuffer.numItems))
      ensures gl.log == old(gl.log) + AttributeCalls(vertexArray, attributeIndex, vertexBuffer,
        typeSize(vertexBuffer.componentType), false, false, false)
    {
      AttributeBuffer(attributeIndex, vertexBuffer, false, false, false);
    }

    /** Per-instance float attribute. */
    method InstanceAttributeBuffer(attributeIndex: nat, vertexBuffer: VertexBuffer)
      modifies this`numElements, this`numInstances, this`instanced, gl`log
      ensures State() == Step(old(State()), AttributeAttachment(true, vertexBuffer.numItems))
      ensures gl.log == old(gl.log) + AttributeCalls(vertexArray, attributeIndex, vertexBuffer,
        typeSize(vertexBuffer.componentType), true, false, false)
    {
      AttributeBuffer(attributeIndex, vertexBuffer, true, false, false);
    }

    /** Per-vertex integer attribute. */
    method VertexIntegerAttributeBuffer(attributeIndex: nat, vertexBuffer: VertexBuffer)
      modifies this`numElements, this`numInstances, this`instanced, gl`log
      ensures State() == Step(old(State()), AttributeAttachment(false, vertexBuffer.numItems))
      ensures gl.log == old(gl.log) + AttributeCalls(vertexArray, attributeIndex, vertexBuffer,
        typeSize(vertexBuffer.componentType), false, true, false)
    {
      AttributeBuffer(attributeIndex, vertexBuffer, false, true, false);
    }

    /** Per-instance integer attribute. */
    method InstanceIntegerAttributeBuffer(attributeIndex: nat, vertexBuffer: VertexBuffer)
      modifies this`numElements, this`numInstances, this`instanced, gl`log
      ensures State() == Step(old(State()), AttributeAttachment(true, vertexBuffer.numItems))
      ensures gl.log == old(gl.log) + AttributeCalls(vertexArray, attributeIndex, vertexBuffer,
        typeSize(vertexBuffer.componentType), true, true, false)
    {
      AttributeBuffer(attributeIndex, vertexBuffer, true, true, false);
    }

    /** Per-vertex normalized attribute. */
    method VertexNormalizedAttributeBuffer(attributeIndex: nat, vertexBuffer: VertexBuffer)
      modifies this`numElements, this`numInstances, this`instanced, gl`log
      ensures State() == Step(old(State()), AttributeAttachment(false, vertexBuffer.numItems))
      ensures gl.log == old(gl.log) + AttributeCalls(vertexArray, attributeIndex, vertexBuffer,
        typeSize(vertexBuffer.componentType), false, false, true)
    {
      AttributeBuffer(attributeIndex, vertexBuffer, false, false, true);
    }

    /** Per-instance normalized attribute. */
    method InstanceNormalizedAttributeBuffer(attributeIndex: nat, vertexBuffer: VertexBuffer)
      modifies this`numElements, this`numInstances, this`instanced, gl`log
      ensures State() == Step(old(State()), AttributeAttachment(true, vertexBuffer.numItems))
      ensures gl.log == old(gl.log) + AttributeCalls(vertexArray, attributeIndex, vertexBuffer,
        typeSize(vertexBuffer.componentType), true, false, true)
    {
      AttributeBuffer(attributeIndex, vertexBuffer, true, false, true);
    }

    /** Attach an index buffer. */
    method IndexBuffer(vertexBuffer: VertexBuffer)
      modifies this`numElements, this`indexType, this`indexed, gl`log
      ensures numElements == vertexBuffer.numItems * 3
      ensures indexType == Some(vertexBuffer.componentType) && indexed
      ensures State() == Step(old(State()), IndexAttachment(vertexBuffer.numItems, vertexBuffer.componentType))
      ensures gl.log == old(gl.log) + [
        BindVertexArray(vertexArray), BindBuffer(vertexBuffer.binding, Some(vertexBuffer.buffer)),
        BindVertexArray(None), BindBuffer(vertexBuffer.binding, None)]
    {
      gl.BindVertexArray(vertexArray);
      gl.BindBuffer(vertexBuffer.binding, Some(vertexBuffer.buffer));
      numElements := vertexBuffer.numItems * 3;
      indexType := Some(vertexBuffer.componentType);
      indexed := true;
      gl.BindVertexArray(None);
      gl.BindBuffer(vertexBuffer.binding, None);
    }

    /** Release the vertex array object, if it is still held, and unbind. */
    method Delete()
      modifies this`vertexArray, gl`log
      ensures vertexArray == None
      ensures gl.log == old(gl.log)
        + (if old(vertexArray).Some? then [DeleteVertexArray(old(vertexArray).value)] else [])
        + [BindVertexArray(None)]
    {
      if vertexArray.Some? {
        gl.DeleteVertexArray(vertexArray.value);
        vertexArray := None;
      }
      gl.BindVertexArray(None);
    }

    /** Make this the bound vertex array, skipping the device call when the application
      * state says it already is. */
    method Bind()
      modifies appState`vertexArray, gl`log
      ensures appState.vertexArray == this
      ensures gl.log == if old(appState.vertexArray) == this then old(gl.log)
                        else old(gl.log) + [BindVertexArray(vertexArray)]
    {
      if appState.vertexArray != this {
        gl.BindVertexArray(vertexArray);
        appState.vertexArray := this;
      }
    }
  }

  /** Deleting twice releases the handle once; both calls unbind. */
  method DeleteTwice<T>(va: VertexArray<T>)
    modifies va`vertexArray, va.gl`log
    ensures va.vertexArray == None
    ensures va.gl.log == old(va.gl.log)
      + (if old(va.vertexArray).Some? then [DeleteVertexArray(old(va.vertexArray).value)] else [])
      + [BindVertexArray(None), BindVertexArray(None)]
  {
    va.Delete();
    va.Delete();
  }

  /** Binding twice in a row issues at most one device call. */
  method BindTwice<T>(va: VertexArray<T>)
    modifies va.appState`vertexArray, va.gl`log
    ensures va.appState.vertexArray == va
    ensures va.gl.log == if old(va.appState.vertexArray) == va then old(va.gl.log)
                         else old(va.gl.log) + [BindVertexArray(va.vertexArray)]
  {
    va.Bind();
    va.Bind();
  }
}
