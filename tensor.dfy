/** A framework tensor and its runtime buffer: setting the tensor's type also
    stamps the buffer with the runtime type tag the generated code reads. */
module HlirTensor {
  import opened CinnTypes

  /** The runtime type tags a buffer can carry (cinn_type_t values). */
  datatype RuntimeTypeTag = UnkTag | Int32Tag | Int64Tag | Float16Tag | Float32Tag | Float64Tag | BoolTag

  /** The element kind and width a known tag stands for. */
  function TagKindBits(tag: RuntimeTypeTag): (TypeKind, int)
    requires tag != UnkTag
  {
    match tag
    case Int32Tag => (Int, 32)
    case Int64Tag => (Int, 64)
    case Float16Tag => (Float, 16)
    case Float32Tag => (Float, 32)
    case Float64Tag => (Float, 64)
    case BoolTag => (UInt, 1)
  }

  /** The tag that set_type writes for a type. A known tag describes exactly
      the type's kind and width; the unknown tag is written exactly when no
      known tag describes the type. Lanes and qualifiers play no part. */
  function RuntimeTag(t: CinnType): (tag: RuntimeTypeTag)
    ensures tag != UnkTag ==> TagKindBits(tag) == (t.kind, t.bits)
    ensures tag == UnkTag <==> forall g: RuntimeTypeTag :: g != UnkTag ==> TagKindBits(g) != (t.kind, t.bits)
  {
    if IsInt(t, 32) then Int32Tag
    else if IsInt(t, 64) then Int64Tag
    else if IsFloat(t, 32) then Float32Tag
    else if IsFloat(t, 64) then Float64Tag
    else if IsFloat(t, 16) then Float16Tag
    else if IsBool(t) then BoolTag
    else UnkTag
  }

  /** The runtime buffer (cinn_buffer_t) behind a tensor. */
  class RuntimeBuffer {
    var typeTag: RuntimeTypeTag
    var dims: seq<int>
    var memory: seq<int>

    constructor (dims: seq<int>)
      ensures typeTag == UnkTag && this.dims == dims && memory == []
    {
      typeTag := UnkTag;
      this.dims := dims;
      memory := [];
    }
  }

  /** Everything observable about a tensor and its buffer. */
  datatype TensorState = TensorState(
    type_: CinnType,
    shape: seq<int>,
    typeTag: RuntimeTypeTag,
    dims: seq<int>,
    memory: seq<int>)

  /** The state after setting the type to `t`: the type and the tag change,
      nothing else does. */
  function AfterSetType(s: TensorState, t: CinnType): (s': TensorState)
  {
    s.(type_ := t, typeTag := RuntimeTag(t))
  }

  class Tensor {
    var type_: CinnType
    var shape: seq<int>
    const buffer: RuntimeBuffer

    constructor (shape: seq<int>)
      ensures this.shape == shape && fresh(buffer)
      ensures type_ == Scalar(Unk, 0) && buffer.typeTag == UnkTag
    {
      type_ := Scalar(Unk, 0);
      this.shape := shape;
      buffer := new RuntimeBuffer(shape);
    }

    function State(): TensorState
      reads this, buffer
    {
      TensorState(type_, shape, buffer.typeTag, buffer.dims, buffer.memory)
    }

    /** Records the type and writes the matching runtime tag into the buffer. */
    method SetType(t: CinnType)
      modifies this`type_, buffer`typeTag
      ensures type_ == t && buffer.typeTag == RuntimeTag(t)
      ensures State() == AfterSetType(old(State()), t)
    {
      type_ := t;
      if IsInt(t, 32) {
        buffer.typeTag := Int32Tag;
      } else if IsInt(t, 64) {
        buffer.typeTag := Int64Tag;
      } else if IsFloat(t, 32) {
        buffer.typeTag := Float32Tag;
      } else if IsFloat(t, 64) {
        buffer.typeTag := Float64Tag;
      } else if IsFloat(t, 16) {
        buffer.typeTag := Float16Tag;
      } else if IsBool(t) {
        buffer.typeTag := BoolTag;
      } else {
        buffer.typeTag := UnkTag;
      }
    }
  }

  // ---------------------------------------------------------------------------
  // Properties of the tag table and of set_type

  /** The table, row by row, for any lanes and qualifiers. */
  lemma RuntimeTagTable(t: CinnType)
    ensures IsInt(t, 32) <==> RuntimeTag(t) == Int32Tag
    ensures IsInt(t, 64) <==> RuntimeTag(t) == Int64Tag
    ensures IsFloat(t, 32) <==> RuntimeTag(t) == Float32Tag
    ensures IsFloat(t, 64) <==> RuntimeTag(t) == Float64Tag
    ensures IsFloat(t, 16) <==> RuntimeTag(t) == Float16Tag
    ensures IsBool(t) <==> RuntimeTag(t) == BoolTag
  {
  }

  /** Types without a branch get the unknown tag: 8- and 16-bit integers,
      unsigned integers other than bool, and every non-numeric kind. */
  lemma UnlistedTypesAreUnknown(t: CinnType)
    ensures IsInt(t, 8) || IsInt(t, 16) ==> RuntimeTag(t) == UnkTag
    ensures t.kind == UInt && t.bits != 1 ==> RuntimeTag(t) == UnkTag
    ensures t.kind in {Unk, String, Void, Customized} ==> RuntimeTag(t) == UnkTag
  {
  }

  /** Setting the same type twice is the same as setting it once, and a
      later call overrides an earlier one completely. */
  lemma SetTypeIdempotent(s: TensorState, t: CinnType, u: CinnType)
    ensures AfterSetType(AfterSetType(s, t), t) == AfterSetType(s, t)
    ensures AfterSetType(AfterSetType(s, u), t) == AfterSetType(s, t)
  {
  }

  /** A caller that sets the type twice observes one call's effect. */
  method SetTypeTwice(x: Tensor, t: CinnType)
    modifies x, x.buffer
    ensures x.State() == AfterSetType(old(x.State()), t)
  {
    x.SetType(t);
    x.SetType(t);
    SetTypeIdempotent(old(x.State()), t, t);
  }
}
