/** The per-value register handle of the SNEX JIT (AssemblyRegister): a small
    state machine that tracks whether a value is still an unresolved location,
    a resolved memory operand, or lives in a (possibly dirty) register. */
module SnexRegister {
  import opened SnexTypes

  datatype State =
    | UnloadedMemoryLocation   // location or immediate known, nothing resolved yet
    | LoadedMemoryLocation     // a memory operand is resolved, no register assigned
    | ActiveRegister           // lives in a valid register
    | DirtyGlobalRegister      // lives in a register that must be written back

  /** The scope a symbol is declared in, as seen from s; s itself when the
      resolver knows no declaring scope (the fallback of setReference and
      getRegisterForWriteOp). */
  function ResolvedScope(scopes: ScopeResolver, s: ScopeId, name: Ident): ScopeId
  {
    match scopes.scopeForSymbol(s, name)
    case Some(declaring) => declaring
    case None => s
  }

  /** The register class createRegister asks for, by register type. */
  function RegisterClassFor(kind: RegType, simd4: bool): RegClass
    requires kind != Dynamic
  {
    match kind
    case Float => XmmSs
    case Double => XmmSd
    case Integer => Gpd
    case Block => Gpq
    case Pointer => if simd4 then XmmPs else Gpq
  }

  /** The instruction loadMemoryIntoRegister emits once the register exists
      (empty for a pointer that is neither custom memory nor an absolute
      address with a non-zero offset). */
  function LoadCode(kind: RegType, simd4: bool, hasCustomMem: bool, r: PhysReg, memory: Operand, immediate: int): seq<Instr>
    requires kind != Dynamic
  {
    match kind
    case Float => [MovSs(r, memory)]
    case Double => [MovSd(r, memory)]
    case Integer => if hasCustomMem then [MovFromMemory(r, memory)] else [MovImmediate(r, immediate)]
    case Block => if hasCustomMem then [MovFromMemory(r, memory)] else [MovImmediate(r, immediate)]
    case Pointer =>
      if simd4 then [MovAps(r, memory)]
      else if hasCustomMem then [Lea(r, memory)]
      else if memory.IsPlainOffset() then [MovAddress(r, memory.address)]
      else []
  }

  /** An integer (or block) without custom memory is loaded from its immediate
      value: the load touches no memory operand. */
  lemma ImmediateLoadReadsNoMemory(kind: RegType, simd4: bool, r: PhysReg, memory: Operand, immediate: int)
    requires kind == Integer || kind == Block
    ensures LoadCode(kind, simd4, false, r, memory, immediate) == [MovImmediate(r, immediate)]
    ensures forall i :: i in LoadCode(kind, simd4, false, r, memory, immediate) ==> !ReadsMemory(i)
  {
  }

  /** A pointer without custom memory outside the simd4 case is loaded by
      moving its absolute address, and only when that address is non-zero: a
      null data pointer emits no load at all. */
  lemma PointerLoadNeedsOffset(r: PhysReg, memory: Operand, immediate: int)
    ensures LoadCode(Pointer, false, false, r, memory, immediate) == [] <==> !memory.IsPlainOffset()
    ensures LoadCode(Pointer, false, false, r, Absolute(0), immediate) == []
  {
  }

  /** What createMemoryLocation leaves in a handle: its memory operand, the
      custom-memory flag, the immediate and zero flag, the instructions it
      emits and how many registers and constant-pool entries it takes. */
  datatype Location = Location(
    memory: Operand, hasCustomMem: bool, immediate: int, isZero: bool,
    setup: seq<Instr>, registersTaken: nat, constantsTaken: nat)

  /** createMemoryLocation as a function of the handle's type, whether it takes
      the global-variable path, its fields before the call and the emitter's
      next register and constant. A global variable is addressed through a
      fresh 64-bit register loaded with the location; a float or double becomes
      a new constant read from the location; an integer reads its immediate
      from the location when there is one; a pointer becomes the absolute
      address its VariableStorage holds. Nothing else changes. */
  function CreatedLocation(
    kind: RegType, globalPath: bool, location: DataPtr,
    memory: Operand, hasCustomMem: bool, immediate: int, isZero: bool,
    nextRegister: nat, nextConstant: nat, raw: RawMemory): Location
  {
    if globalPath then
      var r := VirtReg(nextRegister, Gpq);
      Location(BasedOn(r, kind == Double || kind == Block), true, immediate, isZero, [LoadAddress(r, location)], 1, 0)
    else
      match kind
      case Float | Double =>
        Location(PoolConstant(nextConstant), hasCustomMem, immediate, raw.isZeroAt(kind, location),
                 [DefineConstant(nextConstant, kind, location)], 0, 1)
      case Integer =>
        var v := if location != Null then raw.intAt(location) else immediate;
        Location(memory, hasCustomMem, v, v == 0, [], 0, 0)
      case Pointer => Location(Absolute(raw.storageAddress(location)), hasCustomMem, immediate, isZero, [], 0, 0)
      case _ => Location(memory, hasCustomMem, immediate, isZero, [], 0, 0)
  }

  /** The setup code never reads the value from memory, and the resolved
      operand is a real memory operand on every path except an integer or
      block handle outside the global path, which keeps the operand it had
      (the trailing memory.isMem() check does not hold there unless the
      handle already had one). */
  lemma CreatedLocationFacts(
    kind: RegType, globalPath: bool, location: DataPtr,
    memory: Operand, hasCustomMem: bool, immediate: int, isZero: bool,
    nextRegister: nat, nextConstant: nat, raw: RawMemory)
    ensures var l := CreatedLocation(kind, globalPath, location, memory, hasCustomMem, immediate, isZero, nextRegister, nextConstant, raw);
      && (forall i :: i in l.setup ==> !ReadsMemory(i))
      && (globalPath || kind in {Float, Double, Pointer} ==> l.memory.IsMem())
      && (!globalPath && kind in {Integer, Block, Dynamic} ==> l.memory == memory)
      && (hasCustomMem ==> l.hasCustomMem)
      && |l.setup| == l.registersTaken + l.constantsTaken
  {
  }

  /** The message getRegisterForWriteOp throws for a rejected write. */
  const WriteToGlobalError := "can't write to global variables"

  class AssemblyRegister {
    var typeInfo: TypeInfo
    /** The compiler's AutoVectorisation optimisation flag. */
    const autoVectorisation: bool
    var state: State
    var dirty: bool
    var hasCustomMem: bool
    var globalMemory: bool
    var isIter: bool
    var isZeroValue: bool
    var reg: PhysReg
    var memory: Operand
    var memoryLocation: DataPtr
    var immediateIntValue: int
    var numMemoryReferences: nat
    /** The ReferenceCountedObject count, kept explicitly. */
    var refCount: nat
    var scope: Option<ScopeId>
    var id: Option<Symbol>

    /** The handle's consistency: custom memory is a real operand, a register
        is held exactly in the two register states, an unloaded handle has no
        custom memory, and a dirty global register is dirty. */
    ghost predicate Valid()
      reads this
    {
      && (hasCustomMem ==> memory.IsMem())
      && (reg.IsValid() <==> IsActiveOrDirtyGlobalRegister())
      && (state == UnloadedMemoryLocation ==> !hasCustomMem)
      && (state == DirtyGlobalRegister ==> dirty)
    }

    /** The state of a handle that has just been made. */
    ghost predicate IsPristine()
      reads this
    {
      && state == UnloadedMemoryLocation && !dirty && !hasCustomMem && !globalMemory && !isIter
      && reg == NoReg && memory == NoMem && memoryLocation == Null && immediateIntValue == 0
      && numMemoryReferences == 0
    }

    constructor (typeInfo: TypeInfo, autoVectorisation: bool)
      ensures Valid() && IsPristine()
      ensures this.typeInfo == typeInfo && this.autoVectorisation == autoVectorisation
      ensures refCount == 0 && scope == None && id == None
    {
      this.typeInfo := typeInfo;
      this.autoVectorisation := autoVectorisation;
      state := UnloadedMemoryLocation;
      dirty, hasCustomMem, globalMemory, isIter, isZeroValue := false, false, false, false, false;
      reg, memory, memoryLocation := NoReg, NoMem, Null;
      immediateIntValue, numMemoryReferences, refCount := 0, 0, 0;
      scope, id := None, None;
    }

    function GetType(): RegType
      reads this`typeInfo
    {
      typeInfo.kind
    }

    predicate IsMemoryLocation()
      reads this
    {
      state == LoadedMemoryLocation
    }

    predicate IsActive()
      reads this
    {
      state == ActiveRegister
    }

    predicate IsActiveOrDirtyGlobalRegister()
      reads this
    {
      state == ActiveRegister || state == DirtyGlobalRegister
    }

    predicate IsValid()
      reads this
    {
      state == ActiveRegister && reg.IsValid()
    }

    predicate ShouldLoadMemoryIntoRegister()
      reads this
    {
      numMemoryReferences > 0
    }

    predicate IsSimd4Float()
      reads this
    {
      autoVectorisation && typeInfo.isFloat4Span
    }

    /** operator== against a symbol. */
    predicate HasSymbol(s: Symbol)
      reads this
    {
      id.Some? && id.value.id == s.id
    }

    predicate MatchesScopeAndSymbol(scopes: ScopeResolver, scopeToCheck: ScopeId, symbol: Symbol)
      reads this
    {
      scopes.scopeForSymbol(scopeToCheck, symbol.id) == scope && HasSymbol(symbol)
    }

    /** Both handles have custom memory, equal types and equal memory operands. */
    predicate MatchesMemoryLocation(other: AssemblyRegister)
      reads this, other
    {
      hasCustomMem && other.hasCustomMem && other.typeInfo == typeInfo && other.memory == memory
    }

    predicate IsGlobalVariableRegister(scopes: ScopeResolver)
      reads this`id, this`scope
      requires scope.Some?
    {
      id.Some? && scopes.rootDataContains(scopes.rootClassScope(scope.value), id.value.id)
    }

    /** Whether IsGlobalMemory can be evaluated (it dereferences the scope
        unless the handle is global custom memory). */
    predicate CanTellGlobal()
      reads this`hasCustomMem, this`globalMemory, this`scope
    {
      (hasCustomMem && globalMemory) || scope.Some?
    }

    predicate IsGlobalMemory(scopes: ScopeResolver)
      reads this`hasCustomMem, this`globalMemory, this`id, this`scope
      requires CanTellGlobal()
    {
      (hasCustomMem && globalMemory) || IsGlobalVariableRegister(scopes)
    }

    predicate IsDirtyGlobalMemory(scopes: ScopeResolver)
      reads this
      requires dirty ==> CanTellGlobal()
    {
      dirty && IsGlobalMemory(scopes)
    }

    function GetAsMemoryLocation(): (m: Operand)
      reads this
      requires Valid() && state == LoadedMemoryLocation
      ensures hasCustomMem ==> m.IsMem()
    {
      memory
    }

    function GetMemoryLocationForReference(): (m: Operand)
      reads this
      requires memory.IsMem()
      ensures m.IsMem()
    {
      memory
    }

    function GetImmediateIntValue(): int
      reads this
      requires state == LoadedMemoryLocation || state == UnloadedMemoryLocation
      requires GetType() == Integer && !hasCustomMem
    {
      immediateIntValue
    }

    /** The pointer to the value's storage: the data pointer of a pointer
        handle, the root data's slot of a global variable, and the null
        pointer for any other handle. */
    function GetGlobalDataPointer(scopes: ScopeResolver): DataPtr
      reads this
      requires GetType() != Pointer ==> scope.Some?
    {
      if GetType() == Pointer then memoryLocation
      else if IsGlobalVariableRegister(scopes) then scopes.rootDataPointer(scopes.rootClassScope(scope.value), id.value.id)
      else Null
    }

    method SetReference(scopes: ScopeResolver, s: ScopeId, ref: Symbol)
      modifies this`scope, this`id
      ensures scope == Some(ResolvedScope(scopes, s, ref.id))
      ensures id == Some(ref)
    {
      var refScope := scopes.scopeForSymbol(s, ref.id);
      if refScope.Some? {
        scope := refScope;
      } else {
        scope := Some(s);
      }
      id := Some(ref);
    }

    method ReinterpretCast(newType: TypeInfo)
      modifies this`typeInfo
      ensures typeInfo == newType
    {
      typeInfo := newType;
    }

    method GetRegisterForReadOp() returns (r: PhysReg)
      requires Valid() && IsActiveOrDirtyGlobalRegister()
      ensures r == reg && r.IsValid()
    {
      r := reg;
    }

    /** A write through a symbol stores to that symbol's own storage: the
        symbol is no iterator and is declared in its root class scope or is a
        reference. */
    predicate WritesThroughSymbol(scopes: ScopeResolver)
      reads this`id, this`isIter, this`scope
      requires scope.Some?
    {
      id.Some? && !isIter &&
      var s := ResolvedScope(scopes, scope.value, id.value.id);
      scopes.rootClassScope(s) == s || id.value.isReference
    }

    /** The write is refused: a symbol that does not write through to its own
        storage and is declared in a Global scope. */
    predicate WriteRejected(scopes: ScopeResolver)
      reads this`id, this`isIter, this`scope
      requires scope.Some?
    {
      id.Some? && !WritesThroughSymbol(scopes) &&
      scopes.isGlobalType(ResolvedScope(scopes, scope.value, id.value.id))
    }

    /** The write leaves the handle a dirty global register. */
    predicate WriteMarksDirtyGlobal(scopes: ScopeResolver)
      reads this`hasCustomMem, this`globalMemory, this`id, this`isIter, this`scope, this`memoryLocation
      requires scope.Some?
    {
      IsGlobalMemory(scopes) || (WritesThroughSymbol(scopes) && memoryLocation != Null)
    }

    method GetRegisterForWriteOp(scopes: ScopeResolver) returns (res: Result<PhysReg>)
      requires Valid() && IsActiveOrDirtyGlobalRegister() && scope.Some?
      modifies this`dirty, this`state
      ensures Valid()
      ensures res.Err? <==> old(WriteRejected(scopes))
      ensures res.Err? ==> res.message == WriteToGlobalError
      ensures res.Ok? ==> res.value == reg && reg.IsValid()
      ensures state == if old(WriteMarksDirtyGlobal(scopes)) then DirtyGlobalRegister else old(state)
      ensures dirty == (old(dirty) || old(WriteMarksDirtyGlobal(scopes)) || (id.Some? && isIter))
    {
      var d, st := dirty, state;
      if IsGlobalMemory(scopes) {
        d, st := true, DirtyGlobalRegister;
      }
      res := Ok(reg);
      if id.Some? {
        if isIter {
          d := true;
        }
        var found := scopes.scopeForSymbol(scope.value, id.value.id);
        var sToUse := if found.Some? then found.value else scope.value;
        if !isIter && (scopes.rootClassScope(sToUse) == sToUse || id.value.isReference) {
          if memoryLocation != Null {
            d, st := true, DirtyGlobalRegister;
          }
        } else if scopes.isGlobalType(sToUse) {
          res := Err(WriteToGlobalError);
        }
      }
      assert (st == ActiveRegister || st == DirtyGlobalRegister) && (st == DirtyGlobalRegister ==> d);
      dirty, state := d, st;
    }

    /** Whether createMemoryLocation takes the global-variable path. */
    predicate TakesGlobalVariablePath(scopes: ScopeResolver)
      reads this`typeInfo, this`id, this`scope
      requires GetType() != Pointer ==> scope.Some?
    {
      GetType() != Pointer && IsGlobalVariableRegister(scopes) && !(id.Some? && id.value.isConst)
    }

    /** Resolves the memory operand of an unloaded handle, as CreatedLocation
        describes, and moves it to LoadedMemoryLocation. */
    method CreateMemoryLocation(cc: Emitter, scopes: ScopeResolver, raw: RawMemory) returns (ghost setup: seq<Instr>)
      requires Valid() && state == UnloadedMemoryLocation
      requires memoryLocation != Null || GetType() == Integer
      requires GetType() != Pointer ==> scope.Some?
      modifies this`state, this`memory, this`hasCustomMem, this`isZeroValue, this`immediateIntValue, cc
      ensures Valid() && state == LoadedMemoryLocation && reg == NoReg
      ensures var l := CreatedLocation(old(GetType()), old(TakesGlobalVariablePath(scopes)), old(memoryLocation),
                                       old(memory), old(hasCustomMem), old(immediateIntValue), old(isZeroValue),
                                       old(cc.nextRegister), old(cc.nextConstant), raw);
        && memory == l.memory && hasCustomMem == l.hasCustomMem
        && immediateIntValue == l.immediate && isZeroValue == l.isZero && setup == l.setup
        && cc.nextRegister == old(cc.nextRegister) + l.registersTaken
        && cc.nextConstant == old(cc.nextConstant) + l.constantsTaken
      ensures cc.code == old(cc.code) + setup
      ensures forall i :: i in setup ==> !ReadsMemory(i)
    {
      var t := GetType();
      var globalPath := TakesGlobalVariablePath(scopes);
      CreatedLocationFacts(t, globalPath, memoryLocation, memory, hasCustomMem,
                           immediateIntValue, isZeroValue, cc.nextRegister, cc.nextConstant, raw);
      ghost var l := CreatedLocation(t, globalPath, memoryLocation, memory, hasCustomMem,
                                     immediateIntValue, isZeroValue, cc.nextRegister, cc.nextConstant, raw);
      ghost var nextRegister, nextConstant := cc.nextRegister, cc.nextConstant;
      var m, custom, imm, zero := memory, hasCustomMem, immediateIntValue, isZeroValue;
      if globalPath {
        var useQword := t == Double || t == Block || t == Pointer;
        var r := cc.NewRegister(Gpq);
        cc.Emit(LoadAddress(r, memoryLocation));
        setup := [LoadAddress(r, memoryLocation)];
        m := if useQword then BasedOn(r, true) else BasedOn(r, false);
        custom := true;
      } else {
        setup := [];
        if t == Float || t == Double {
          zero := raw.isZeroAt(t, memoryLocation);
          setup := [DefineConstant(cc.nextConstant, t, memoryLocation)];
          m := cc.NewConstant(t, memoryLocation);
        }
        if t == Integer {
          if memoryLocation != Null {
            imm := raw.intAt(memoryLocation);
          }
          zero := imm == 0;
        }
        if t == Pointer {
          m := Absolute(raw.storageAddress(memoryLocation));
        }
      }
      assert m == l.memory && custom == l.hasCustomMem && imm == l.immediate && zero == l.isZero && setup == l.setup;
      assert cc.nextRegister == nextRegister + l.registersTaken && cc.nextConstant == nextConstant + l.constantsTaken;
      assert custom ==> m.IsMem();
      memory, hasCustomMem, immediateIntValue, isZeroValue := m, custom, imm, zero;
      state := LoadedMemoryLocation;
    }

    /** Makes sure the handle holds a register of the class its type needs. */
    method CreateRegister(cc: Emitter)
      requires Valid() && GetType() != Dynamic
      modifies this`reg, this`state, cc
      ensures Valid() && reg.IsValid() && IsActiveOrDirtyGlobalRegister()
      ensures cc.code == old(cc.code) && cc.nextConstant == old(cc.nextConstant)
      ensures old(reg.IsValid()) ==> reg == old(reg) && state == old(state) && unchanged(cc)
      ensures !old(reg.IsValid()) ==>
        && reg == VirtReg(old(cc.nextRegister), RegisterClassFor(GetType(), IsSimd4Float()))
        && cc.nextRegister == old(cc.nextRegister) + 1
        && state == ActiveRegister
    {
      if reg.IsValid() {
        return;
      }
      if GetType() == Float {
        reg := cc.NewRegister(XmmSs);
      }
      if GetType() == Double {
        reg := cc.NewRegister(XmmSd);
      }
      if GetType() == Integer {
        reg := cc.NewRegister(Gpd);
      }
      if typeInfo.kind == Block {
        reg := cc.NewRegister(Gpq);
      }
      if GetType() == Pointer {
        if IsSimd4Float() {
          reg := cc.NewRegister(XmmPs);
        } else {
          reg := cc.NewRegister(Gpq);
        }
      }
      state := ActiveRegister;
    }

    /** Whether loadMemoryIntoRegister does anything. */
    predicate NeedsLoad(forceLoad: bool)
      reads this
    {
      forceLoad || !reg.IsValid()
    }

    /** Materialises the value into a register: resolves the memory operand of
        an unloaded handle, makes the register and emits the load. Without
        forceLoad a handle that already holds a register is left alone. */
    method LoadMemoryIntoRegister(cc: Emitter, forceLoad: bool, scopes: ScopeResolver, raw: RawMemory)
      returns (ghost setup: seq<Instr>)
      requires Valid()
      requires NeedsLoad(forceLoad) ==> GetType() != Dynamic
      requires NeedsLoad(forceLoad) && state == UnloadedMemoryLocation ==>
        (memoryLocation != Null || GetType() == Integer) && (GetType() != Pointer ==> scope.Some?)
      modifies this`state, this`memory, this`hasCustomMem, this`isZeroValue, this`immediateIntValue, this`reg, cc
      ensures Valid()
      ensures !old(NeedsLoad(forceLoad)) ==> unchanged(this) && unchanged(cc)
      ensures old(NeedsLoad(forceLoad)) ==>
        && state == ActiveRegister && reg.IsValid()
        && (old(reg.IsValid()) ==> reg == old(reg))
        && cc.code == old(cc.code) + setup + LoadCode(GetType(), IsSimd4Float(), hasCustomMem, reg, memory, immediateIntValue)
      ensures forall i :: i in setup ==> !ReadsMemory(i)
      ensures old(NeedsLoad(forceLoad)) && old(state) == UnloadedMemoryLocation ==>
        var l := CreatedLocation(GetType(), old(TakesGlobalVariablePath(scopes)), memoryLocation,
                                 old(memory), old(hasCustomMem), old(immediateIntValue), old(isZeroValue),
                                 old(cc.nextRegister), old(cc.nextConstant), raw);
        && memory == l.memory && hasCustomMem == l.hasCustomMem
        && immediateIntValue == l.immediate && isZeroValue == l.isZero && setup == l.setup
        && reg == VirtReg(old(cc.nextRegister) + l.registersTaken, RegisterClassFor(GetType(), IsSimd4Float()))
        && cc.nextRegister == old(cc.nextRegister) + l.registersTaken + 1
        && cc.nextConstant == old(cc.nextConstant) + l.constantsTaken
      ensures old(state) != UnloadedMemoryLocation ==>
        && setup == [] && memory == old(memory) && hasCustomMem == old(hasCustomMem)
        && immediateIntValue == old(immediateIntValue) && isZeroValue == old(isZeroValue)
      ensures old(NeedsLoad(forceLoad)) && old(state) != UnloadedMemoryLocation ==>
        && cc.nextConstant == old(cc.nextConstant)
        && (old(reg.IsValid()) ==> cc.nextRegister == old(cc.nextRegister))
        && (!old(reg.IsValid()) ==>
              reg == VirtReg(old(cc.nextRegister), RegisterClassFor(GetType(), IsSimd4Float()))
              && cc.nextRegister == old(cc.nextRegister) + 1)
      ensures old(NeedsLoad(forceLoad)) && (GetType() == Integer || GetType() == Block) && !hasCustomMem ==>
        forall k :: |old(cc.code)| <= k < |cc.code| ==> !ReadsMemory(cc.code[k])
    {
      setup := [];
      if !forceLoad && reg.IsValid() {
        return;
      }
      if state == UnloadedMemoryLocation {
        setup := CreateMemoryLocation(cc, scopes, raw);
      }
      if !forceLoad && state == ActiveRegister {
        return;
      }
      CreateRegister(cc);
      EmitLoad(cc);
      state := ActiveRegister;
    }

    /** The switch over the register type that moves the value into reg. */
    method EmitLoad(cc: Emitter)
      requires GetType() != Dynamic
      modifies cc
      ensures cc.code == old(cc.code) + LoadCode(GetType(), IsSimd4Float(), hasCustomMem, reg, memory, immediateIntValue)
      ensures cc.nextRegister == old(cc.nextRegister) && cc.nextConstant == old(cc.nextConstant)
    {
      var t := GetType();
      if t == Float {
        cc.Emit(MovSs(reg, memory));
      } else if t == Double {
        cc.Emit(MovSd(reg, memory));
      } else if t == Block || t == Integer {
        if hasCustomMem {
          cc.Emit(MovFromMemory(reg, memory));
        } else {
          cc.Emit(MovImmediate(reg, immediateIntValue));
        }
      } else if t == Pointer {
        if IsSimd4Float() {
          cc.Emit(MovAps(reg, memory));
        } else if hasCustomMem {
          cc.Emit(Lea(reg, memory));
        } else if memory.IsPlainOffset() {
          cc.Emit(MovAddress(reg, memory.address));
        }
      }
    }

    method SetCustomMemoryLocation(newLocation: Operand, isGlobalMemory: bool)
      requires newLocation.IsMem()
      modifies this`memory, this`dirty, this`globalMemory, this`reg, this`state, this`hasCustomMem
      ensures Valid()
      ensures state == LoadedMemoryLocation && memory == newLocation && hasCustomMem
      ensures !dirty && globalMemory == isGlobalMemory && !reg.IsValid()
    {
      memory := newLocation;
      dirty := false;
      globalMemory := isGlobalMemory;
      reg := NoReg;
      state := LoadedMemoryLocation;
      hasCustomMem := true;
    }

    method SetDataPointer(memLoc: DataPtr, isGlobalMemory: bool)
      requires Valid()
      modifies this`memoryLocation, this`reg, this`globalMemory, this`state, this`hasCustomMem
      ensures Valid()
      ensures state == UnloadedMemoryLocation && memoryLocation == memLoc && !hasCustomMem
      ensures globalMemory == isGlobalMemory && !reg.IsValid()
    {
      memoryLocation := memLoc;
      reg := NoReg;
      globalMemory := isGlobalMemory;
      state := UnloadedMemoryLocation;
      hasCustomMem := false;
    }

    method SetImmediateValue(value: int)
      requires Valid() && GetType() == Integer
      modifies this`immediateIntValue, this`state, this`memoryLocation, this`reg, this`hasCustomMem
      ensures Valid()
      ensures state == UnloadedMemoryLocation && immediateIntValue == value
      ensures memoryLocation == Null && !hasCustomMem && !reg.IsValid()
    {
      immediateIntValue := value;
      state := UnloadedMemoryLocation;
      memoryLocation := Null;
      reg := NoReg;
      hasCustomMem := false;
    }

    method InvalidateRegisterForCustomMemory()
      requires Valid() && hasCustomMem
      modifies this`dirty, this`reg, this`state
      ensures Valid()
      ensures state == LoadedMemoryLocation && !dirty && !reg.IsValid()
    {
      dirty := false;
      reg := NoReg;
      state := LoadedMemoryLocation;
    }

    /** The flush: a dirty register becomes a clean active register; any
        other handle is left as it is. */
    method SetUndirty()
      requires Valid()
      modifies this`dirty, this`state
      ensures Valid()
      ensures old(dirty && IsActiveOrDirtyGlobalRegister()) ==> !dirty && state == ActiveRegister
      ensures !old(dirty && IsActiveOrDirtyGlobalRegister()) ==> dirty == old(dirty) && state == old(state)
    {
      if dirty && IsActiveOrDirtyGlobalRegister() {
        dirty := false;
        state := ActiveRegister;
      }
    }
  }
}
