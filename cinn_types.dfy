/** The compiler's scalar/vector type record (common::Type) and the queries
    that the LLVM type mapping and the tensor runtime tag read from it. */
module CinnTypes {

  /** The element kind of a type. */
  datatype TypeKind = Unk | Int | UInt | Float | String | Void | Customized

  /** A type: element kind and width, vector lanes, the C++ qualifier flags
      (const, one level of handle `T*`, two levels of handle `T**`) and, for a
      customized type, its struct name. */
  datatype CinnType = CinnType(
    kind: TypeKind,
    bits: int,
    lanes: int,
    cppConst: bool,
    cppHandle: bool,
    cppHandleHandle: bool,
    customizedType: string)

  predicate IsInt(t: CinnType, bits: int) { t.kind == Int && t.bits == bits }

  predicate IsFloat(t: CinnType, bits: int) { t.kind == Float && t.bits == bits }

  /** A boolean is an unsigned integer of one bit. */
  predicate IsBool(t: CinnType) { t.kind == UInt && t.bits == 1 }

  predicate IsVoid(t: CinnType) { t.kind == Void }

  predicate IsCustomized(t: CinnType) { t.kind == Customized }

  /** Scalar types with one lane and no qualifiers, as the type factories build them. */
  function Scalar(kind: TypeKind, bits: int): CinnType {
    CinnType(kind, bits, 1, false, false, false, "")
  }

  function BoolType(): CinnType { Scalar(UInt, 1) }

  function VoidType(): CinnType { Scalar(Void, 0) }

  function CustomizedType(name: string): CinnType {
    CinnType(Customized, 0, 1, false, false, false, name)
  }

  /** Number of pointer levels the handle flags ask for. */
  function HandleDepth(t: CinnType): nat {
    (if t.cppHandle then 1 else 0) + (if t.cppHandleHandle then 2 else 0)
  }
}
