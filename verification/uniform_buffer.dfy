/**
 * The uniform-buffer layout packer: a uniform block is described by an
 * ordered list of field types; the constructor places each field in a shadow
 * array of 4-byte units, following the std140 alignment of the four types it
 * supports, and allocates the device buffer; `Set` writes one field of the
 * shadow array; `Update` uploads the whole array; `Bind` attaches the buffer
 * to a uniform-block binding point.
 */
module UniformBuffers {
  import opened Wrappers
  import opened GL

  /** A field type tag of a layout. Every tag other than the four supported ones is `OtherType`. */
  datatype UniformType = Float | FloatVec2 | FloatVec4 | FloatMat4 | OtherType(code: nat)
  {
    predicate Supported() {
      !OtherType?
    }
  }

  /** Number of 4-byte units a field of type `t` occupies. */
  function FieldSize(t: UniformType): nat
    requires t.Supported()
  {
    match t
    case Float => 1
    case FloatVec2 => 2
    case FloatVec4 => 4
    case FloatMat4 => 16
  }

  /** The unit boundary a field of type `t` must start on. */
  function Alignment(t: UniformType): nat
    requires t.Supported()
  {
    match t
    case Float => 1
    case FloatVec2 => 2
    case FloatVec4 => 4
    case FloatMat4 => 4
  }

  predicate Aligned(unit: nat, alignment: nat)
    requires alignment > 0
  {
    unit % alignment == 0
  }

  /** Two distinct units on the same 2- or 4-unit boundary are at least one alignment apart. */
  lemma {:induction false} AlignedApart(u: nat, r: nat, alignment: nat)
    requires alignment == 2 || alignment == 4
    requires u < r && Aligned(u, alignment) && Aligned(r, alignment)
    ensures u + alignment <= r
  {
    if alignment == 2 {
      assert u % 2 == 0 && r % 2 == 0;
      var k := r / 2 - u / 2;
      assert r - u == 2 * k;
    } else {
      assert u % 4 == 0 && r % 4 == 0;
      var k := r / 4 - u / 4;
      assert r - u == 4 * k;
    }
  }

  /** An aligned unit less than one alignment past `cursor` is the first aligned unit at
    * or after `cursor`. */
  lemma {:induction false} FirstAligned(cursor: nat, r: nat, alignment: nat)
    requires (alignment == 2 || alignment == 4) && cursor <= r < cursor + alignment && Aligned(r, alignment)
    ensures forall u :: cursor <= u < r ==> !Aligned(u, alignment)
  {
    forall u | cursor <= u < r
      ensures !Aligned(u, alignment)
    {
      if Aligned(u, alignment) {
        AlignedApart(u, r, alignment);
      }
    }
  }

  /** The first multiple of 4 at or after `cursor`. */
  function RoundUp4(cursor: nat): (r: nat)
    ensures cursor <= r < cursor + 4
    ensures Aligned(r, 4)
    ensures forall u :: cursor <= u < r ==> !Aligned(u, 4)
  {
    var r := cursor + (4 - cursor % 4) % 4;
    FirstAligned(cursor, r, 4);
    r
  }

  /** Where a field of type `t` starts when the previous fields end at `cursor`:
    * the smallest unit at or after `cursor` on the field's alignment boundary. */
  function AlignUp(cursor: nat, t: UniformType): (r: nat)
    requires t.Supported()
    ensures cursor <= r < cursor + Alignment(t)
    ensures Aligned(r, Alignment(t))
    ensures forall u :: cursor <= u < r ==> !Aligned(u, Alignment(t))
  {
    match t
    case Float => cursor
    case FloatVec2 =>
      var r := cursor + cursor % 2;
      FirstAligned(cursor, r, 2);
      r
    case FloatVec4 => RoundUp4(cursor)
    case FloatMat4 => RoundUp4(cursor)
  }

  /** The offset table, the size table and the cursor after placing some fields.
    * `None` is an entry the constructor leaves unset. */
  datatype Packing = Packing(offsets: seq<Option<nat>>, sizes: seq<Option<nat>>, cursor: nat)

  /** The tables and cursor after placing one more field, of type `t`, behind those of `p`. */
  function Place(p: Packing, t: UniformType): (q: Packing)
    ensures |q.offsets| == |p.offsets| + 1 && |q.sizes| == |p.sizes| + 1
    ensures forall i :: 0 <= i < |p.offsets| ==> q.offsets[i] == p.offsets[i]
    ensures forall i :: 0 <= i < |p.sizes| ==> q.sizes[i] == p.sizes[i]
    ensures t.Supported() ==>
      && q.offsets[|p.offsets|].Some? && q.sizes[|p.sizes|] == Some(FieldSize(t))
      && p.cursor <= q.offsets[|p.offsets|].value < p.cursor + Alignment(t)
      && Aligned(q.offsets[|p.offsets|].value, Alignment(t))
      && q.cursor == q.offsets[|p.offsets|].value + FieldSize(t)
    ensures !t.Supported() ==>
      q.offsets[|p.offsets|] == None && q.sizes[|p.sizes|] == None && q.cursor == p.cursor
  {
    if t.Supported() then
      var offset := AlignUp(p.cursor, t);
      Packing(p.offsets + [Some(offset)], p.sizes + [Some(FieldSize(t))], offset + FieldSize(t))
    else
      Packing(p.offsets + [None], p.sizes + [None], p.cursor)
  }

  /** The placement of every field of `layout`, one field after the other. */
  function Pack(layout: seq<UniformType>): (p: Packing)
    ensures |p.offsets| == |layout| && |p.sizes| == |layout|
    ensures forall i :: 0 <= i < |layout| ==>
      (p.offsets[i].Some? <==> layout[i].Supported()) && (p.sizes[i].Some? <==> layout[i].Supported())
  {
    if layout == [] then Packing([], [], 0)
    else Place(Pack(layout[..|layout| - 1]), layout[|layout| - 1])
  }

  /** Placing more fields never moves the ones already placed, nor the cursor back. */
  lemma {:induction false} PackPrefix(layout: seq<UniformType>, n: nat)
    requires n <= |layout|
    ensures Pack(layout[..n]).offsets == Pack(layout).offsets[..n]
    ensures Pack(layout[..n]).sizes == Pack(layout).sizes[..n]
    ensures Pack(layout[..n]).cursor <= Pack(layout).cursor
    decreases |layout| - n
  {
    if n == |layout| {
      assert layout[..n] == layout;
    } else {
      var init := layout[..|layout| - 1];
      assert init[..n] == layout[..n];
      PackPrefix(init, n);
    }
  }

  /** Field `i` is placed at the smallest unit on its alignment boundary at or after the
    * cursor left by fields `0..i`, gets its type's size, and moves the cursor past it;
    * an unsupported field is left unset and does not move the cursor. */
  lemma {:induction false} PackField(layout: seq<UniformType>, i: nat)
    requires i < |layout|
    ensures var before, after, p, t := Pack(layout[..i]).cursor, Pack(layout[..i + 1]).cursor, Pack(layout), layout[i];
      if t.Supported() then
        && before <= p.offsets[i].value < before + Alignment(t)
        && Aligned(p.offsets[i].value, Alignment(t))
        && p.sizes[i] == Some(FieldSize(t))
        && after == p.offsets[i].value + FieldSize(t)
      else
        p.offsets[i] == None && p.sizes[i] == None && after == before
  {
    PackPrefix(layout, i + 1);
    assert layout[..i + 1][..i] == layout[..i];
  }

  /** Placing field `i` extends the tables of fields `0..i` by one entry each. */
  lemma {:induction false} PackStep(layout: seq<UniformType>, i: nat)
    requires i < |layout|
    ensures Pack(layout[..i + 1]) == Place(Pack(layout[..i]), layout[i])
  {
    assert layout[..i + 1][..i] == layout[..i];
  }

  /** Every recorded field of the packing lies inside the padded block. */
  lemma {:induction false} PackFits(layout: seq<UniformType>)
    ensures var p := Pack(layout);
      forall i :: 0 <= i < |p.sizes| && p.sizes[i].Some? ==>
        p.offsets[i].Some? && p.offsets[i].value + p.sizes[i].value <= RoundUp4(p.cursor)
  {
    PackSound(layout);
  }

  /** The cursor only moves forward as fields are placed. */
  lemma {:induction false} PackCursorMonotone(layout: seq<UniformType>, m: nat, n: nat)
    requires m <= n <= |layout|
    ensures Pack(layout[..m]).cursor <= Pack(layout[..n]).cursor
  {
    assert layout[..n][..m] == layout[..m];
    PackPrefix(layout[..n], m);
  }

  /** Every supported field is aligned to its class, has its type's size and ends at or
    * before the final cursor. */
  lemma {:induction false} PackSound(layout: seq<UniformType>)
    ensures var p := Pack(layout);
      forall i :: 0 <= i < |layout| && layout[i].Supported() ==>
        && Aligned(p.offsets[i].value, Alignment(layout[i]))
        && p.sizes[i] == Some(FieldSize(layout[i]))
        && p.offsets[i].value + FieldSize(layout[i]) <= p.cursor
  {
    var p := Pack(layout);
    forall i | 0 <= i < |layout| && layout[i].Supported()
      ensures Aligned(p.offsets[i].value, Alignment(layout[i]))
      ensures p.sizes[i] == Some(FieldSize(layout[i]))
      ensures p.offsets[i].value + FieldSize(layout[i]) <= p.cursor
    {
      PackField(layout, i);
      PackCursorMonotone(layout, i + 1, |layout|);
      assert layout[..|layout|] == layout;
    }
  }

  /** Supported fields do not overlap and appear in layout order. */
  lemma {:induction false} PackDisjoint(layout: seq<UniformType>)
    ensures var p := Pack(layout);
      forall i, j :: 0 <= i < j < |layout| && layout[i].Supported() && layout[j].Supported() ==>
        p.offsets[i].value + p.sizes[i].value <= p.offsets[j].value
  {
    var p := Pack(layout);
    forall i, j | 0 <= i < j < |layout| && layout[i].Supported() && layout[j].Supported()
      ensures p.offsets[i].value + p.sizes[i].value <= p.offsets[j].value
    {
      PackField(layout, i);
      PackField(layout, j);
      PackCursorMonotone(layout, i + 1, j);
    }
  }

  /** The one-unit fields, which `Set` writes as scalars, are exactly the `Float` fields. */
  lemma {:induction false} ScalarFieldsAreFloats(layout: seq<UniformType>)
    ensures var p := Pack(layout);
      forall i :: 0 <= i < |layout| ==> (p.sizes[i] == Some(1) <==> layout[i] == Float)
  {
    forall i | 0 <= i < |layout|
      ensures Pack(layout).sizes[i] == Some(1) <==> layout[i] == Float
    {
      PackField(layout, i);
    }
  }

  /** The worked layouts: [float, vec2, vec4], [float, float, vec4] and [mat4, float]. */
  lemma {:induction false} PackExamples()
    ensures Pack([Float, FloatVec2, FloatVec4]) == Packing([Some(0), Some(2), Some(4)], [Some(1), Some(2), Some(4)], 8)
    ensures Pack([Float, Float, FloatVec4]) == Packing([Some(0), Some(1), Some(4)], [Some(1), Some(1), Some(4)], 8)
    ensures Pack([FloatMat4, Float]) == Packing([Some(0), Some(16)], [Some(16), Some(1)], 17)
    ensures RoundUp4(17) == 20
  {
    assert [Float, FloatVec2, FloatVec4][..2] == [Float, FloatVec2];
    assert [Float, FloatVec2][..1] == [Float];
    assert [Float, Float, FloatVec4][..2] == [Float, Float];
    assert [Float, Float][..1] == [Float];
    assert [FloatMat4, Float][..1] == [FloatMat4];
  }

  /** One pass of the constructor's loop: align the cursor for a field of type `t`, record
    * its offset and size, and move the cursor past it; an unsupported type leaves both
    * entries unset and the cursor where it was. */
  method PlaceNext(offsets: seq<Option<nat>>, sizes: seq<Option<nat>>, size: nat, t: UniformType)
    returns (offsets': seq<Option<nat>>, sizes': seq<Option<nat>>, size': nat)
    ensures Packing(offsets', sizes', size') == Place(Packing(offsets, sizes, size), t)
  {
    offsets', sizes', size' := offsets, sizes, size;
    match t {
      case Float =>
        offsets' := offsets' + [Some(size')];
        sizes' := sizes' + [Some(1)];
        size' := size' + 1;
      case FloatVec2 =>
        size' := size' + size' % 2;
        offsets' := offsets' + [Some(size')];
        sizes' := sizes' + [Some(2)];
        size' := size' + 2;
      case FloatVec4 =>
        size' := size' + (4 - size' % 4) % 4;
        offsets' := offsets' + [Some(size')];
        sizes' := sizes' + [Some(4)];
        size' := size' + 4;
      case FloatMat4 =>
        size' := size' + (4 - size' % 4) % 4;
        offsets' := offsets' + [Some(size')];
        sizes' := sizes' + [Some(16)];
        size' := size' + 16;
      case OtherType(_) =>
        // Reported as unsupported: the entries stay unset and the cursor does not move.
        offsets' := offsets' + [None];
        sizes' := sizes' + [None];
    }
  }

  /** The constructor's loop over the layout: a cursor counted in 4-byte units walks the
    * fields in order, aligning and recording each supported one. Entry `i` of each table
    * is filled when field `i` is visited, so the tables grow in index order. */
  method PlaceFields(layout: seq<UniformType>) returns (offsets: seq<Option<nat>>, sizes: seq<Option<nat>>, size: nat)
    ensures Packing(offsets, sizes, size) == Pack(layout)
  {
    offsets, sizes, size := [], [], 0;
    var i := 0;
    while i < |layout|
      invariant 0 <= i <= |layout|
      invariant Packing(offsets, sizes, size) == Pack(layout[..i])
    {
      PackStep(layout, i);
      offsets, sizes, size := PlaceNext(offsets, sizes, size, layout[i]);
      i := i + 1;
    }
    assert layout[..i] == layout;
  }

  /** `d` with `xs` copied in from unit `offset` on. */
  function Written<T>(d: seq<T>, offset: nat, xs: seq<T>): (r: seq<T>)
    requires offset + |xs| <= |d|
    ensures |r| == |d|
    ensures forall k :: 0 <= k < |d| ==> r[k] == (if offset <= k < offset + |xs| then xs[k - offset] else d[k])
  {
    d[..offset] + xs + d[offset + |xs|..]
  }

  /** Two distinct supported fields occupy disjoint ranges inside the padded block. */
  lemma {:induction false} FieldsApart(layout: seq<UniformType>, i: nat, j: nat)
    requires i < |layout| && j < |layout| && i != j
    requires layout[i].Supported() && layout[j].Supported()
    ensures var p := Pack(layout);
      var oi, oj := p.offsets[i].value, p.offsets[j].value;
      && oi + FieldSize(layout[i]) <= RoundUp4(p.cursor)
      && oj + FieldSize(layout[j]) <= RoundUp4(p.cursor)
      && (oi + FieldSize(layout[i]) <= oj || oj + FieldSize(layout[j]) <= oi)
  {
    PackSound(layout);
    PackDisjoint(layout);
  }

  /** Units outside the written range keep their contents. */
  lemma {:induction false} WrittenElsewhere<T>(d: seq<T>, offset: nat, xs: seq<T>, lo: nat, hi: nat)
    requires offset + |xs| <= |d| && lo <= hi <= |d|
    requires hi <= offset || offset + |xs| <= lo
    ensures Written(d, offset, xs)[lo..hi] == d[lo..hi]
  {
    var w := Written(d, offset, xs);
    assert forall k :: 0 <= k < hi - lo ==> w[lo..hi][k] == w[lo + k] == d[lo + k];
  }

  /** Writing a full value into one supported field leaves every other field's units as they were. */
  lemma {:induction false} SetKeepsOtherFields<T>(layout: seq<UniformType>, d: seq<T>, i: nat, j: nat, xs: seq<T>)
    requires i < |layout| && j < |layout| && i != j
    requires layout[i].Supported() && layout[j].Supported()
    requires |d| == RoundUp4(Pack(layout).cursor)
    requires |xs| == FieldSize(layout[i])
    ensures var p := Pack(layout);
      && p.offsets[i].value + |xs| <= |d|
      && p.offsets[j].value + FieldSize(layout[j]) <= |d|
      && Written(d, p.offsets[i].value, xs)[p.offsets[j].value..p.offsets[j].value + FieldSize(layout[j])]
         == d[p.offsets[j].value..p.offsets[j].value + FieldSize(layout[j])]
  {
    FieldsApart(layout, i, j);
    var p := Pack(layout);
    WrittenElsewhere(d, p.offsets[i].value, xs, p.offsets[j].value, p.offsets[j].value + FieldSize(layout[j]));
  }

  /** A value passed to `Set`: a number, or an array of components. */
  datatype UniformValue<T> = Scalar(x: T) | Components(xs: seq<T>)

  datatype SetError =
    | NotAScalar   // a component array given for a one-unit field
    | RangeError   // the components do not fit in the shadow array

  class UniformBuffer<T> {
    const gl: Context<T>
    const buffer: Handle
    const usage: Usage
    ghost const layout: seq<UniformType>
    var offsets: seq<Option<nat>>
    var sizes: seq<Option<nat>>
    var size: nat
    var data: array<T>

    /** The tables are the packing of the layout, the shadow array has the padded size,
      * and every recorded field lies inside it. */
    ghost predicate Valid()
      reads this
    {
      var p := Pack(layout);
      && offsets == p.offsets && sizes == p.sizes
      && size == RoundUp4(p.cursor) && data.Length == size
      && forall i :: 0 <= i < |sizes| && sizes[i].Some? ==>
           offsets[i].Some? && offsets[i].value + sizes[i].value <= data.Length
    }

    constructor (gl: Context<T>, layout: seq<UniformType>, usage: Option<Usage>, zero: T)
      modifies gl
      ensures Valid()
      ensures this.gl == gl && this.layout == layout
      ensures this.usage == (if usage.Some? then usage.value else DynamicDraw)
      ensures size % 4 == 0 && fresh(data) && data[..] == seq(size, _ => zero)
      ensures buffer == Handle(old(gl.nextId)) && gl.nextId == old(gl.nextId) + 1
      ensures gl.log == old(gl.log) + [
        CreateBuffer(buffer),
        BindBufferBase(UniformBufferTarget, 0, Some(buffer)),
        BufferData(UniformBufferTarget, size * 4, this.usage),
        BindBufferBase(UniformBufferTarget, 0, None)]
    {
      this.gl := gl;
      var handle := gl.CreateBuffer();
      buffer := handle;
      var placedOffsets, placedSizes, cursor := PlaceFields(layout);
      offsets, sizes := placedOffsets, placedSizes;
      var padded := cursor + (4 - cursor % 4) % 4;
      size := padded;
      data := new T[padded](_ => zero);
      var effectiveUsage := if usage.Some? then usage.value else DynamicDraw;
      this.usage := effectiveUsage;
      this.layout := layout;
      PackFits(layout);
      gl.BindBufferBase(UniformBufferTarget, 0, Some(handle));
      gl.BufferData(UniformBufferTarget, padded * 4, effectiveUsage);
      gl.BindBufferBase(UniformBufferTarget, 0, None);
    }

    /** Whether `index` names a one-unit field (`sizes[index] === 1`). */
    function IsScalarField(index: nat): bool
      reads this
    {
      index < |sizes| && sizes[index] == Some(1)
    }

    /** `offsets[index]`; an entry that is unset or past the table reads as 0, as a
      * typed array converts an `undefined` offset. */
    function FieldOffset(index: nat): nat
      reads this
    {
      if index < |offsets| && offsets[index].Some? then offsets[index].value else 0
    }

    method Set(index: nat, value: UniformValue<T>) returns (r: Outcome<SetError>)
      requires Valid()
      modifies data
      ensures Valid()
      ensures IsScalarField(index) ==>
        match value
        case Scalar(x) => r == Pass && data[..] == Written(old(data[..]), FieldOffset(index), [x])
        case Components(_) => r == Fail(NotAScalar) && data[..] == old(data[..])
      ensures !IsScalarField(index) ==>
        match value
        case Scalar(_) => r == Pass && data[..] == old(data[..])
        case Components(xs) =>
          if FieldOffset(index) + |xs| <= data.Length
          then r == Pass && data[..] == Written(old(data[..]), FieldOffset(index), xs)
          else r == Fail(RangeError) && data[..] == old(data[..])
    {
      if IsScalarField(index) {
        match value
        case Scalar(x) =>
          data[FieldOffset(index)] := x;
          r := Pass;
        case Components(_) =>
          r := Fail(NotAScalar);
      } else {
        var offset := FieldOffset(index);
        match value
        case Scalar(_) =>
          // A number has no components: nothing is copied.
          r := Pass;
        case Components(xs) =>
          if offset + |xs| <= data.Length {
            forall k | offset <= k < offset + |xs| {
              data[k] := xs[k - offset];
            }
            r := Pass;
          } else {
            r := Fail(RangeError);
          }
      }
    }

    /** Upload the whole shadow array, bracketed by binding and unbinding binding point 0. */
    method Update()
      modifies gl`log
      ensures gl.log == old(gl.log) + [
        BindBufferBase(UniformBufferTarget, 0, Some(buffer)),
        BufferSubData(UniformBufferTarget, 0, data[..]),
        BindBufferBase(UniformBufferTarget, 0, None)]
    {
      gl.BindBufferBase(UniformBufferTarget, 0, Some(buffer));
      gl.BufferSubData(UniformBufferTarget, 0, data[..]);
      gl.BindBufferBase(UniformBufferTarget, 0, None);
    }

    /** Attach the buffer to uniform-block binding point `base`, and leave it there. */
    method Bind(base: nat)
      modifies gl`log
      ensures gl.log == old(gl.log) + [BindBufferBase(UniformBufferTarget, base, Some(buffer))]
    {
      gl.BindBufferBase(UniformBufferTarget, base, Some(buffer));
    }
  }
}
