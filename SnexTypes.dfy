/** Values shared by the SNEX register handle and its pool: register types,
    symbols, scopes, memory operands and an abstract instruction emitter that
    stands for asmjit's X86Compiler. */
module SnexTypes {

  datatype Option<T> = None | Some(value: T)

  /** A failure carries the message the source throws as a juce::String. */
  datatype Result<T> = Ok(value: T) | Err(message: string)

  /** The register-level type IDs of SNEX (Types::ID). */
  datatype RegType = Integer | Float | Double | Pointer | Block | Dynamic

  /** A SNEX TypeInfo: the register type the compiler resolves it to, whether
      it is a span of four floats (the SpanType test inside isSimd4Float), and
      an identity for the rest of the type (the complex type it wraps, such as
      span<float, 8>, and its qualifiers). Two TypeInfos are the same type
      exactly when all three agree, so handles of different span types never
      compare equal even when they share a register type. */
  datatype TypeInfo = TypeInfo(kind: RegType, isFloat4Span: bool, typeIdentity: nat)

  type Ident = string

  /** A symbol: identifier, declared type and the const/reference flags. */
  datatype Symbol = Symbol(id: Ident, typeInfo: TypeInfo, isConst: bool, isReference: bool)

  /** Scopes are identified by number; a register's scope pointer may be null. */
  type ScopeId = nat

  /** The parts of BaseScope the register handle consults.
      - scopeForSymbol: BaseScope::getScopeForSymbol, None for nullptr
      - isGlobalType: getScopeType() == BaseScope::Global
      - rootClassScope: getRootClassScope()
      - rootDataContains / rootDataPointer: the root class scope's rootData */
  datatype ScopeResolver = ScopeResolver(
    scopeForSymbol: (ScopeId, Ident) -> Option<ScopeId>,
    isGlobalType: ScopeId -> bool,
    rootClassScope: ScopeId -> ScopeId,
    rootDataContains: (ScopeId, Ident) -> bool,
    rootDataPointer: (ScopeId, Ident) -> DataPtr)

  /** A raw data pointer (void*). */
  datatype DataPtr = Null | Addr(address: nat)

  /** What createMemoryLocation reads through raw pointer casts, given as inputs:
      the int stored at a location, whether the float/double stored there is
      zero, and the data pointer a VariableStorage at a location holds. */
  datatype RawMemory = RawMemory(
    intAt: DataPtr -> int,
    isZeroAt: (RegType, DataPtr) -> bool,
    storageAddress: DataPtr -> nat)

  /** Virtual register classes of asmjit (newGpd, newGpq, newXmmSs, newXmmSd, newXmmPs). */
  datatype RegClass = Gpd | Gpq | XmmSs | XmmSd | XmmPs

  /** asmjit's X86Reg: a default-constructed (invalid) register or a virtual
      register minted by the emitter. */
  datatype PhysReg = NoReg | VirtReg(index: nat, cls: RegClass) {
    predicate IsValid() { VirtReg? }
  }

  /** asmjit's X86Mem: the default (not a memory operand), a pointer based on a
      register (dword_ptr / qword_ptr), an entry of the constant pool, or an
      absolute address (an offset without base or index). */
  datatype Operand =
    | NoMem
    | BasedOn(base: PhysReg, qword: bool)
    | PoolConstant(index: nat)
    | Absolute(address: nat)
  {
    predicate IsMem() { !NoMem? }

    /** hasOffset() && !hasBaseOrIndex(): an absolute address with a non-zero
        offset (asmjit reports no offset for offset 0). */
    predicate IsPlainOffset() { Absolute? && address != 0 }
  }

  /** The instructions the handle asks the emitter for. */
  datatype Instr =
    | LoadAddress(dst: PhysReg, at: DataPtr)          // mov r, (uint64_t)memoryLocation
    | DefineConstant(index: nat, kind: RegType, at: DataPtr)  // newFloatConst / newDoubleConst
    | MovSs(dst: PhysReg, src: Operand)
    | MovSd(dst: PhysReg, src: Operand)
    | MovFromMemory(dst: PhysReg, src: Operand)       // mov r, memory
    | MovImmediate(dst: PhysReg, value: int)          // mov r, immediateIntValue
    | Lea(dst: PhysReg, src: Operand)
    | MovAps(dst: PhysReg, src: Operand)
    | MovAddress(dst: PhysReg, address: nat)          // mov r, memory.offset()

  /** True of the instructions that read the value from a memory operand. */
  predicate ReadsMemory(i: Instr) {
    i.MovSs? || i.MovSd? || i.MovFromMemory? || i.Lea? || i.MovAps?
  }

  /** The abstract code emitter: it mints fresh virtual registers and constant
      pool entries and records the instructions it is asked to emit. */
  class Emitter {
    var nextRegister: nat
    var nextConstant: nat
    var code: seq<Instr>

    constructor ()
      ensures nextRegister == 0 && nextConstant == 0 && code == []
    {
      nextRegister, nextConstant, code := 0, 0, [];
    }

    /** A register no earlier call returned. */
    method NewRegister(cls: RegClass) returns (r: PhysReg)
      modifies this
      ensures r == VirtReg(old(nextRegister), cls) && r.IsValid()
      ensures nextRegister == old(nextRegister) + 1
      ensures nextConstant == old(nextConstant) && code == old(code)
    {
      r := VirtReg(nextRegister, cls);
      nextRegister := nextRegister + 1;
    }

    /** A new constant pool entry holding the value of type kind found at at. */
    method NewConstant(kind: RegType, at: DataPtr) returns (m: Operand)
      modifies this
      ensures m == PoolConstant(old(nextConstant)) && m.IsMem()
      ensures nextConstant == old(nextConstant) + 1
      ensures nextRegister == old(nextRegister)
      ensures code == old(code) + [DefineConstant(old(nextConstant), kind, at)]
    {
      m := PoolConstant(nextConstant);
      code := code + [DefineConstant(nextConstant, kind, at)];
      nextConstant := nextConstant + 1;
    }

    method Emit(i: Instr)
      modifies this
      ensures code == old(code) + [i]
      ensures nextRegister == old(nextRegister) && nextConstant == old(nextConstant)
    {
      code := code + [i];
    }
  }
}
