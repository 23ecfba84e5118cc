# PicoGL uniform buffers and vertex arrays, modelled in Dafny

This project models two leaf components of the PicoGL WebGL 2 library.

**The uniform-buffer packer** (`uniform_buffer.dfy`, module `UniformBuffers`) lays out a uniform block. Its input is an ordered list of field type tags.
- It places every `FLOAT`, `FLOAT_VEC2`, `FLOAT_VEC4` and `FLOAT_MAT4` field in a shadow array of 4-byte units. Each field starts on its std140 alignment boundary: 1, 2, 4 and 4 units.
- It pads the block to a multiple of 4 units and allocates a device buffer of four bytes per unit.
- `set` writes one field of the shadow array, `update` uploads the whole array, and `bind` attaches the buffer to a uniform-block binding point.
- The layout is specified by the pure function `Pack`. The constructor's loop (`PlaceFields`) is proved to compute it.

**The vertex-array state tracker** (`vertex_array.dfy`, module `VertexArrays`) owns one vertex array object.
- Attaching an attribute buffer configures one attribute location per column of the buffer. Each location gets the column's stride and offset, a divisor of 1 when per-instance, and an enable.
- Attachments update the draw parameters: element count, instance count, the instanced and indexed flags, and the index type. The effect of one attachment is the function `Step`, and `Replay` folds it over a history of attachments. The lemmas about `Replay` state the last-writer and first-writer rules.
- `bind` skips the device call when the shared application state already names this vertex array. `delete` releases the handle at most once.

The WebGL context (`gl.dfy`, module `GL`) is a class with a ghost log of the calls made to it. Each WebGL entry point appends exactly one `Call`. Handles come from a counter. The contracts of both components state their device traffic as exact additions to this log. `wrappers.dfy` holds `Option` and `Outcome`.

Points of the code's behaviour that the model keeps:
- Offsets and sizes are counted in 4-byte units.
- An unsupported layout tag only produces a console message. Its table entries stay unset and the cursor does not move.
- `set` checks neither the index nor the value's length. An unset offset reads as 0, and a component array that does not fit raises the typed array's range error.
- The element count is set by the first per-vertex attachment whose item count is non-zero.

## Model

| member | source | states |
|---|---|---|
| UniformBuffers.RoundUp4 | src/uniformbuffer.js:66 | the padded size is the first multiple of 4 at or after the cursor: aligned, less than 4 units beyond it, and no multiple of 4 lies in between |
| UniformBuffers.AlignUp | src/uniformbuffer.js:39-56 | a field starts at the smallest unit at or after the cursor that lies on its alignment boundary (1, 2, 4, 4 units) |
| UniformBuffers.Place | src/uniformbuffer.js:37-63 | visiting one field keeps every earlier table entry and appends one entry each; a supported field gets the first aligned unit at or after the cursor and its type's size, and the cursor moves just past it; an unsupported one gets unset entries and leaves the cursor |
| UniformBuffers.Pack | src/uniformbuffer.js:36-64 | the offset and size tables have one entry per layout field, and an entry is set exactly when the field's type is supported |
| UniformBuffers.PlaceNext | src/uniformbuffer.js:37-63 | one pass of the loop, with the source's cursor arithmetic, computes exactly `Place` |
| UniformBuffers.PlaceFields | src/uniformbuffer.js:36-64 | the constructor's loop, with its exact cursor arithmetic, produces the tables and cursor of `Pack` |
| UniformBuffers.PackPrefix | src/uniformbuffer.js:36-64 | placing later fields never changes the entries of earlier ones and never moves the cursor back |
| UniformBuffers.PackField | src/uniformbuffer.js:38-63 | field i starts at the first aligned unit after the cursor left by fields 0..i-1 and has its type's size (1, 2, 4, 16), and the cursor ends right after it; an unsupported field is left unset and the cursor stays put |
| UniformBuffers.PackStep | src/uniformbuffer.js:36-64 | visiting field i extends the placement of fields 0..i-1 by exactly that field |
| UniformBuffers.PackCursorMonotone | src/uniformbuffer.js:36-64 | the cursor never decreases as fields are placed |
| UniformBuffers.PackSound | src/uniformbuffer.js:38-60 | every supported field is aligned to its class, has its type's size and ends at or before the final cursor |
| UniformBuffers.PackDisjoint | src/uniformbuffer.js:36-64 | supported fields do not overlap and appear in layout order: offsets[i] + sizes[i] <= offsets[j] for i < j |
| UniformBuffers.PackFits | src/uniformbuffer.js:66-68 | every recorded field lies inside the padded block |
| UniformBuffers.ScalarFieldsAreFloats | src/uniformbuffer.js:38-42 | the fields of size 1, which `set` writes as scalars, are exactly the `FLOAT` fields |
| UniformBuffers.PackExamples | src/uniformbuffer.js:36-66 | [float, vec2, vec4] packs at 0, 2, 4 into 8 units; [float, float, vec4] at 0, 1, 4 into 8; [mat4, float] at 0, 16 into 17 units, padded to 20 |
| UniformBuffers.FieldsApart | src/uniformbuffer.js:36-68 | two distinct supported fields lie inside the padded block and their ranges are disjoint |
| UniformBuffers.Written | src/uniformbuffer.js:79 | copying components in at an offset replaces exactly the units from that offset on and keeps the length |
| UniformBuffers.WrittenElsewhere | src/uniformbuffer.js:79 | a copy leaves every range outside the written one as it was |
| UniformBuffers.SetKeepsOtherFields | src/uniformbuffer.js:75-80 | writing a full value into one field leaves every other field's units unchanged |
| UniformBuffers.UniformBuffer.constructor | src/uniformbuffer.js:27-73 | the tables are the packing of the layout, the shadow array is zero-filled with the padded size (a multiple of 4), usage defaults to dynamic draw, and the device sees create, bind to point 0, allocate size*4 bytes, unbind |
| UniformBuffers.UniformBuffer.Set | src/uniformbuffer.js:75-83 | a scalar field gets the value at its offset and nothing else changes; otherwise the components are copied in at the field's offset (0 when unset) if they fit, with a range error and no change if they do not; the layout invariant is kept |
| UniformBuffers.UniformBuffer.Update | src/uniformbuffer.js:85-91 | the whole shadow array is uploaded at offset 0 between binding and unbinding point 0 |
| UniformBuffers.UniformBuffer.Bind | src/uniformbuffer.js:93-97 | exactly one call binds the buffer to the requested binding point |
| VertexArrays.ReplayAppend | src/vertex-array.js:141-224 | the draw state after one more attachment is one more step from the state before it |
| VertexArrays.InstancedSticky | src/vertex-array.js:212 | `instanced` holds after a history exactly when it held before or some attachment was per-instance |
| VertexArrays.IndexedSticky | src/vertex-array.js:145-147 | `indexed` holds after a history exactly when it held before or an index buffer was attached |
| VertexArrays.InstanceCountUntouched | src/vertex-array.js:214-218 | a history without per-instance attachments leaves the instance count unchanged |
| VertexArrays.LastInstanceCountWins | src/vertex-array.js:214-215 | the instance count is the item count of the last per-instance attachment |
| VertexArrays.ElementCountSticks | src/vertex-array.js:216-217 | without index buffers, a non-zero element count is never replaced |
| VertexArrays.FirstElementCountWins | src/vertex-array.js:216-217 | without index buffers, starting from zero, the element count is the first non-zero per-vertex item count |
| VertexArrays.IndexBufferOverrides | src/vertex-array.js:145-147 | an index buffer sets the element count to three per item, the index type and `indexed`, whatever came before, and keeps `instanced` and the instance count |
| VertexArrays.Step | src/vertex-array.js:145-218 | the draw-state update of one attachment: `instanced` is or-ed with per-instance, `indexed` with index; a per-instance buffer sets the instance count and keeps the element count; a per-vertex buffer keeps the instance count and sets the element count only if it was 0; an index buffer sets the element count to three per item and the index type |
| VertexArrays.Replay | src/vertex-array.js:141-224 | the draw state after a history of attachments; `instanced`, `indexed` and a recorded index type are never lost |
| VertexArrays.ColumnsTileStride | src/vertex-array.js:193-202 | each column starts where the previous one ends, every column fits in the stride, and a column's offset is below the stride when item size and type size are positive |
| VertexArrays.ColumnStride | src/vertex-array.js:193 | the stride of a buffer is at least one column's width when it has a column, and is zero exactly when the column count, item size or type size is zero |
| VertexArrays.ColumnOffset | src/vertex-array.js:194 | column 0 starts at byte 0, and a column's offset is zero exactly when it is column 0 or the item or type size is zero |
| VertexArrays.ColumnSetupsSound | src/vertex-array.js:187-209 | the column loop issues only column configuration at locations attributeIndex..attributeIndex+numColumns-1: integer pointers only for integer attachments, float pointers carrying `normalized` otherwise, each with its column's stride and offset; divisors of 1 only when instanced; enables |
| VertexArrays.ColumnSetupsComplete | src/vertex-array.js:187-209 | every column location gets its pointer call and its enable, and its divisor of 1 when instanced |
| VertexArrays.ColumnSetupsLength | src/vertex-array.js:187-209 | the loop issues two calls per column, three when instanced |
| VertexArrays.AppState.constructor | src/vertex-array.js:171-178 | the shared application state starts with no vertex array bound, so the first bind of any vertex array issues its device call |
| VertexArrays.VertexArray.constructor | src/vertex-array.js:38-47 | a fresh vertex array holds a new handle, has no elements and no instances, is neither indexed nor instanced, has no index type, and logs one create call |
| VertexArrays.VertexArray.AttributeBuffer | src/vertex-array.js:181-224 | `instanced` becomes old `instanced` or the flag; a per-instance buffer sets the instance count, a per-vertex one sets the element count only if it was 0; the device sees bind array and buffer, the column setups, unbind both |
| VertexArrays.VertexArray.RecordAttribute | src/vertex-array.js:212-218 | the draw-state update of an attribute attachment is one `Step` |
| VertexArrays.VertexArray.ConfigureColumns | src/vertex-array.js:185-210 | the column loop issues the setups of all columns in order |
| VertexArrays.VertexArray.ConfigureColumn | src/vertex-array.js:188-209 | one pass of the loop issues the column's pointer call, its divisor when instanced, and its enable |
| VertexArrays.VertexArray.VertexAttributeBuffer | src/vertex-array.js:56-60 | a per-vertex float attachment |
| VertexArrays.VertexArray.InstanceAttributeBuffer | src/vertex-array.js:69-73 | a per-instance float attachment |
| VertexArrays.VertexArray.VertexIntegerAttributeBuffer | src/vertex-array.js:84-88 | a per-vertex integer attachment |
| VertexArrays.VertexArray.InstanceIntegerAttributeBuffer | src/vertex-array.js:99-103 | a per-instance integer attachment |
| VertexArrays.VertexArray.VertexNormalizedAttributeBuffer | src/vertex-array.js:114-118 | a per-vertex normalized attachment |
| VertexArrays.VertexArray.InstanceNormalizedAttributeBuffer | src/vertex-array.js:129-133 | a per-instance normalized attachment |
| VertexArrays.VertexArray.IndexBuffer | src/vertex-array.js:141-153 | element count = items * 3, the index type is recorded and `indexed` set, the instancing state is kept; the device sees bind array and buffer, unbind both |
| VertexArrays.VertexArray.Delete | src/vertex-array.js:160-168 | the handle is released if still held, the array is left without a handle, and the call ends by unbinding the vertex array |
| VertexArrays.VertexArray.Bind | src/vertex-array.js:171-178 | no device call when the application state already names this array, otherwise exactly one bind of its handle; afterwards the application state names this array |
| VertexArrays.DeleteTwice | src/vertex-array.js:160-168 | across two deletes the handle is released at most once, and each delete unbinds |
| VertexArrays.BindTwice | src/vertex-array.js:171-178 | two binds in a row issue at most one device call |

## Left out

- Float32 storage: shadow-array elements have a generic type `T` and are stored unchanged. Rounding to single precision is not modelled.
- UniformBuffers.UniformBuffer.Set: a component array given for a one-unit field is reported as `NotAScalar`. JavaScript would instead coerce the array to a single number (NaN, or its only element). Values that are neither a number nor an array are not modelled.
- UniformBuffers.UniformBuffer.Set: indices are natural numbers. Negative or fractional indices read as unset entries in JavaScript, as indices past the table do here.
- The fluent `return this` of every method is not modelled.
- The console message for an unsupported layout tag is not modelled (I/O). Its effect on the tables is modelled.
- The offset and size tables are JavaScript arrays with holes. They are modelled as sequences of `Option`, with `None` for a hole.
- The numeric values of the type tags and WebGL enums are not modelled. Unsupported tags are `OtherType(code)`, component types are `DataType(code)`, and usages are a datatype.
- A falsy `usage` argument is modelled as `None`, giving the dynamic-draw default.
- constants.js is not part of this model. The type-size table is a constructor parameter of `VertexArray`.
- The vertex-buffer class is not part of this model. Only the fields the tracker reads are modelled.
- `instanced` is never initialised by the constructor, and an undefined value reads as false. The model starts it at false.
- The `instancedBuffers` field is set to 0 and never used. It is modelled as a field and nothing more.
- The WebGL context is modelled by the calls made to it. Device-side state, validation errors and allocation failure are not modelled. Handles are distinct values drawn from a counter.
