/** Translation of a compiler type to the shape of the LLVM type the backend
    emits for it (CinnTypeToIrType and the llvm_type_of<T> specialisations). */
module LlvmUtil {
  import opened Results
  import opened CinnTypes

  /** The LLVM types the translation can produce, as values. */
  datatype IrType =
    | IntTy(width: nat)
    | FloatTy
    | DoubleTy
    | VoidTy
    | StructTy(name: string)
    | ArrayTy(elem: IrType, count: int)
    | PointerTy(pointee: IrType)

  /** The two fatal checks of the translation. */
  datatype ConvError =
    | EmptyCustomizedName        // the customized type carries no struct name
    | CannotConvert              // no branch matched, or the module has no such struct

  /** The module's named struct types: what getTypeByName finds for a name. */
  type NamedStructs = map<string, IrType>

  /** The LLVM type of one element, before any array or pointer wrapping.
      A built-in element is a scalar of the type's own width (a bool is 8
      bits wide); a customized element is the module's struct of that name;
      everything else is refused. */
  function ElementIrType(t: CinnType, structs: NamedStructs): (r: Result<IrType, ConvError>)
    ensures r.Ok? <==>
      IsInt(t, 8) || IsInt(t, 32) || IsInt(t, 64) || IsBool(t) || IsFloat(t, 32) ||
      IsFloat(t, 64) || IsVoid(t) ||
      (IsCustomized(t) && t.customizedType != [] && "struct." + t.customizedType in structs)
    ensures r.Ok? && t.kind == Int ==> r.value == IntTy(t.bits)
    ensures r.Ok? && t.kind == UInt ==> r.value == IntTy(8)
    ensures r.Ok? && t.kind == Float ==> r.value == (if t.bits == 32 then FloatTy else DoubleTy)
    ensures r.Ok? && t.kind == Void ==> r.value == VoidTy
    ensures r.Ok? && t.kind == Customized ==> r.value == structs["struct." + t.customizedType]
    ensures r.Err? && t.kind == Customized && t.customizedType == [] ==> r.error == EmptyCustomizedName
  {
    if IsInt(t, 8) then Ok(IntTy(8))
    else if IsInt(t, 32) then Ok(IntTy(32))
    else if IsInt(t, 64) then Ok(IntTy(64))
    else if IsBool(t) then Ok(IntTy(8))
    else if IsFloat(t, 32) then Ok(FloatTy)
    else if IsFloat(t, 64) then Ok(DoubleTy)
    else if IsVoid(t) then Ok(VoidTy)
    else if IsCustomized(t) then
      if t.customizedType == [] then Err(EmptyCustomizedName)
      else if "struct." + t.customizedType in structs then Ok(structs["struct." + t.customizedType])
      else Err(CannotConvert)
    else Err(CannotConvert)
  }

  /** Removes exactly `depth` pointer levels, if there are that many. */
  function Peel(ty: IrType, depth: nat): Option<IrType>
  {
    if depth == 0 then Some(ty)
    else match ty
      case PointerTy(p) => Peel(p, depth - 1)
      case _ => None
  }

  /** The element type, made an array of `lanes` elements when the type is a
      vector, then put behind one pointer for a handle and two for a handle of
      a handle. */
  function CinnTypeToIrType(t: CinnType, structs: NamedStructs): (r: Result<IrType, ConvError>)
    ensures r.Ok? <==> ElementIrType(t, structs).Ok?
    ensures r.Err? ==> r.error == ElementIrType(t, structs).error
    ensures r.Ok? ==>
      Peel(r.value, HandleDepth(t)) ==
        Some(if t.lanes > 1 then ArrayTy(ElementIrType(t, structs).value, t.lanes)
             else ElementIrType(t, structs).value)
  {
    match ElementIrType(t, structs)
    case Err(e) => Err(e)
    case Ok(elem) =>
      var vector := if t.lanes > 1 then ArrayTy(elem, t.lanes) else elem;
      var handle := if t.cppHandle then PointerTy(vector) else vector;
      var ty := if t.cppHandleHandle then PointerTy(PointerTy(handle)) else handle;
      assert Peel(handle, if t.cppHandle then 1 else 0) == Some(vector);
      assert t.cppHandleHandle ==> Peel(ty, HandleDepth(t)) == Peel(handle, HandleDepth(t) - 2);
      Ok(ty)
  }

  /** The C types that have an llvm_type_of specialisation. */
  datatype CppType =
    | Int32T | Int64T | FloatT | DoubleT
    | BufferT | BufferPtrT | PodValuePtrT | PodValueT

  /** The compiler type of each C type (type_of<T>). */
  function TypeOf(c: CppType): CinnType
  {
    match c
    case Int32T => Scalar(Int, 32)
    case Int64T => Scalar(Int, 64)
    case FloatT => Scalar(Float, 32)
    case DoubleT => Scalar(Float, 64)
    case BufferT => CustomizedType("cinn_buffer_t")
    case BufferPtrT => CustomizedType("cinn_buffer_t").(cppHandle := true)
    case PodValuePtrT => CustomizedType("cinn_pod_value_t").(cppHandle := true)
    case PodValueT => CustomizedType("cinn_pod_value_t")
  }

  /** llvm_type_of<T>: the translation of type_of<T>. The numeric C types
      always convert, to a plain scalar; the runtime struct types convert
      exactly when the module declares the struct, and the pointer ones then
      give a pointer. */
  function LlvmTypeOf(c: CppType, structs: NamedStructs): (r: Result<IrType, ConvError>)
    ensures c in {Int32T, Int64T, FloatT, DoubleT} ==>
      r.Ok? && r.value in {IntTy(32), IntTy(64), FloatTy, DoubleTy}
    ensures c in {BufferT, BufferPtrT} ==> (r.Ok? <==> "struct.cinn_buffer_t" in structs)
    ensures c in {PodValueT, PodValuePtrT} ==> (r.Ok? <==> "struct.cinn_pod_value_t" in structs)
    ensures c in {BufferPtrT, PodValuePtrT} && r.Ok? ==> r.value.PointerTy?
  {
    assert "struct." + "cinn_buffer_t" == "struct.cinn_buffer_t";
    assert "struct." + "cinn_pod_value_t" == "struct.cinn_pod_value_t";
    CinnTypeToIrType(TypeOf(c), structs)
  }

  // ---------------------------------------------------------------------------
  // Properties of the translation

  /** A plain scalar (one lane, no handle) maps to the fixed LLVM scalar of its
      kind and width; a boolean takes the same 8-bit integer as int8. */
  lemma ScalarMapping(t: CinnType, structs: NamedStructs)
    requires t.lanes <= 1 && !t.cppHandle && !t.cppHandleHandle
    ensures IsInt(t, 8) ==> CinnTypeToIrType(t, structs) == Ok(IntTy(8))
    ensures IsInt(t, 32) ==> CinnTypeToIrType(t, structs) == Ok(IntTy(32))
    ensures IsInt(t, 64) ==> CinnTypeToIrType(t, structs) == Ok(IntTy(64))
    ensures IsBool(t) ==> CinnTypeToIrType(t, structs) == Ok(IntTy(8))
    ensures IsFloat(t, 32) ==> CinnTypeToIrType(t, structs) == Ok(FloatTy)
    ensures IsFloat(t, 64) ==> CinnTypeToIrType(t, structs) == Ok(DoubleTy)
    ensures IsVoid(t) ==> CinnTypeToIrType(t, structs) == Ok(VoidTy)
  {
  }

  /** A boolean is translated exactly like an 8-bit integer with the same
      lanes and qualifiers. */
  lemma BoolLikeInt8(t: CinnType, structs: NamedStructs)
    requires IsBool(t)
    ensures CinnTypeToIrType(t, structs) == CinnTypeToIrType(t.(kind := Int, bits := 8), structs)
  {
  }

  /** A customized type converts exactly when it has a name and the module
      holds the struct "struct.<name>", and then its element is that struct. */
  lemma CustomizedLookup(t: CinnType, structs: NamedStructs)
    requires IsCustomized(t)
    ensures CinnTypeToIrType(t, structs).Ok? <==>
              t.customizedType != [] && "struct." + t.customizedType in structs
    ensures t.customizedType == [] ==> CinnTypeToIrType(t, structs) == Err(EmptyCustomizedName)
    ensures CinnTypeToIrType(t, structs).Ok? ==>
              ElementIrType(t, structs) == Ok(structs["struct." + t.customizedType])
  {
  }

  /** Every type outside the handled kinds and widths (int16, unsigned 32,
      float16, strings, unknown, ...) fails with "can't convert", and these are
      the only failures besides the customized-type ones. */
  lemma UnmatchedFails(t: CinnType, structs: NamedStructs)
    ensures !(IsInt(t, 8) || IsInt(t, 32) || IsInt(t, 64) || IsBool(t) || IsFloat(t, 32) ||
              IsFloat(t, 64) || IsVoid(t) || IsCustomized(t))
            <==> (CinnTypeToIrType(t, structs) == Err(CannotConvert) && !IsCustomized(t))
  {
  }

  /** The const flag plays no part in the translation. */
  lemma ConstIgnored(t: CinnType, structs: NamedStructs, c: bool)
    ensures CinnTypeToIrType(t.(cppConst := c), structs) == CinnTypeToIrType(t, structs)
  {
    assert ElementIrType(t.(cppConst := c), structs) == ElementIrType(t, structs);
  }

  /** Only a vector type is wrapped in an array, of exactly `lanes` elements;
      the pointers, if any, are outside the array. */
  lemma {:induction false} ArrayInsidePointers(t: CinnType, structs: NamedStructs)
    requires CinnTypeToIrType(t, structs).Ok?
    ensures t.lanes > 1 ==>
      Peel(CinnTypeToIrType(t, structs).value, HandleDepth(t)).value.ArrayTy? &&
      Peel(CinnTypeToIrType(t, structs).value, HandleDepth(t)).value.count == t.lanes
    ensures t.lanes <= 1 ==>
      Peel(CinnTypeToIrType(t, structs).value, HandleDepth(t)).value == ElementIrType(t, structs).value
  {
  }

  /** The handle flags add one and two pointer levels, independently. */
  lemma HandleLevels(t: CinnType, structs: NamedStructs)
    requires t.lanes <= 1 && ElementIrType(t, structs).Ok?
    ensures var e := ElementIrType(t, structs).value;
      CinnTypeToIrType(t.(cppHandle := true, cppHandleHandle := false), structs) == Ok(PointerTy(e)) &&
      CinnTypeToIrType(t.(cppHandle := false, cppHandleHandle := true), structs) == Ok(PointerTy(PointerTy(e))) &&
      CinnTypeToIrType(t.(cppHandle := true, cppHandleHandle := true), structs) == Ok(PointerTy(PointerTy(PointerTy(e))))
  {
  }

  /** The llvm_type_of specialisations: fixed scalars for the numeric C types,
      the module's runtime structs (behind a pointer for the pointer types),
      and failure when the module does not declare the struct. */
  lemma LlvmTypeOfTable(structs: NamedStructs)
    ensures LlvmTypeOf(Int32T, structs) == Ok(IntTy(32))
    ensures LlvmTypeOf(Int64T, structs) == Ok(IntTy(64))
    ensures LlvmTypeOf(FloatT, structs) == Ok(FloatTy)
    ensures LlvmTypeOf(DoubleT, structs) == Ok(DoubleTy)
    ensures "struct.cinn_buffer_t" in structs ==>
      LlvmTypeOf(BufferT, structs) == Ok(structs["struct.cinn_buffer_t"]) &&
      LlvmTypeOf(BufferPtrT, structs) == Ok(PointerTy(structs["struct.cinn_buffer_t"]))
    ensures "struct.cinn_pod_value_t" in structs ==>
      LlvmTypeOf(PodValueT, structs) == Ok(structs["struct.cinn_pod_value_t"]) &&
      LlvmTypeOf(PodValuePtrT, structs) == Ok(PointerTy(structs["struct.cinn_pod_value_t"]))
    ensures "struct.cinn_buffer_t" !in structs ==>
      LlvmTypeOf(BufferT, structs).Err? && LlvmTypeOf(BufferPtrT, structs).Err?
    ensures "struct.cinn_pod_value_t" !in structs ==>
      LlvmTypeOf(PodValueT, structs).Err? && LlvmTypeOf(PodValuePtrT, structs).Err?
  {
    assert "struct." + "cinn_buffer_t" == "struct.cinn_buffer_t";
    assert "struct." + "cinn_pod_value_t" == "struct.cinn_pod_value_t";
  }
}
