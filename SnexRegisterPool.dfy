/** The pool of register handles of one compilation unit
    (AssemblyRegisterPool): lookup-or-create by scope and symbol, coalescing
    of handles on the same memory operand, collection of dirty globals and
    retirement by reference count. */
module SnexRegisterPool {
  import opened SnexTypes
  import opened SnexRegister

  ghost predicate Distinct(s: seq<AssemblyRegister>)
  {
    forall i, j :: 0 <= i < j < |s| ==> s[i] != s[j]
  }

  /** The handles of s that hold a dirty global, in the order of s. */
  ghost function DirtyGlobals(s: seq<AssemblyRegister>, scopes: ScopeResolver): seq<AssemblyRegister>
    reads s
    requires forall r :: r in s ==> r.scope.Some?
  {
    if s == [] then []
    else
      var last := s[|s| - 1];
      DirtyGlobals(s[..|s| - 1], scopes) + if last.IsDirtyGlobalMemory(scopes) then [last] else []
  }

  /** The handles of s bound to a symbol, in the order of s. */
  ghost function Named(s: seq<AssemblyRegister>): seq<AssemblyRegister>
    reads s
  {
    if s == [] then []
    else
      var last := s[|s| - 1];
      Named(s[..|s| - 1]) + if last.id.Some? then [last] else []
  }

  /** s without x. */
  function Without(s: seq<AssemblyRegister>, x: AssemblyRegister): seq<AssemblyRegister>
  {
    if s == [] then [] else (if s[0] == x then [] else [s[0]]) + Without(s[1..], x)
  }

  lemma {:induction false} DirtyGlobalsExactly(s: seq<AssemblyRegister>, scopes: ScopeResolver)
    requires forall r :: r in s ==> r.scope.Some?
    ensures forall r :: r in DirtyGlobals(s, scopes) <==> r in s && r.IsDirtyGlobalMemory(scopes)
    ensures Distinct(s) ==> Distinct(DirtyGlobals(s, scopes))
    ensures |DirtyGlobals(s, scopes)| <= |s|
  {
    if s != [] {
      var init := s[..|s| - 1];
      assert forall r :: r in s <==> r in init || r == s[|s| - 1];
      DirtyGlobalsExactly(init, scopes);
      if Distinct(s) {
        assert Distinct(init);
        assert s[|s| - 1] !in init;
      }
    }
  }

  lemma {:induction false} NamedExactly(s: seq<AssemblyRegister>)
    ensures forall r :: r in Named(s) <==> r in s && r.id.Some?
    ensures Distinct(s) ==> Distinct(Named(s))
  {
    if s != [] {
      var init := s[..|s| - 1];
      assert forall r :: r in s <==> r in init || r == s[|s| - 1];
      NamedExactly(init);
      if Distinct(s) {
        assert Distinct(init);
        assert s[|s| - 1] !in init;
      }
    }
  }

  /** Removing the one occurrence of x from a list without duplicates is
      cutting x out at its position. */
  lemma {:induction false} WithoutAt(s: seq<AssemblyRegister>, i: nat)
    requires Distinct(s) && i < |s|
    ensures Without(s, s[i]) == s[..i] + s[i + 1..]
    ensures Distinct(Without(s, s[i]))
  {
    if i == 0 {
      WithoutAbsent(s[1..], s[0]);
    } else {
      assert Distinct(s[1..]);
      WithoutAt(s[1..], i - 1);
      assert s[1..][i - 1] == s[i];
      assert s[1..][..i - 1] + s[1..][i..] == s[1..i] + s[i + 1..];
      assert s[..i] == [s[0]] + s[1..i];
    }
  }

  lemma {:induction false} WithoutAbsent(s: seq<AssemblyRegister>, x: AssemblyRegister)
    requires x !in s
    ensures Without(s, x) == s
  {
    if s != [] {
      WithoutAbsent(s[1..], x);
    }
  }

  class AssemblyRegisterPool {
    /** The compiler's AutoVectorisation optimisation flag, handed to new handles. */
    const autoVectorisation: bool
    var currentRegisterPool: seq<AssemblyRegister>

    /** No handle is in the pool twice; every handle is consistent, has a scope
        and counts the pool's own reference. */
    ghost predicate Valid()
      reads this, currentRegisterPool
    {
      && Distinct(currentRegisterPool)
      && forall r :: r in currentRegisterPool ==> r.Valid() && r.scope.Some? && r.refCount >= 1
    }

    constructor (autoVectorisation: bool)
      ensures Valid() && currentRegisterPool == [] && this.autoVectorisation == autoVectorisation
    {
      this.autoVectorisation := autoVectorisation;
      currentRegisterPool := [];
    }

    /** Empties the pool, releasing its reference to every handle. */
    method Clear()
      requires Valid()
      modifies this, currentRegisterPool`refCount
      ensures Valid() && currentRegisterPool == []
      ensures forall r :: r in old(currentRegisterPool) ==>
        r.refCount == old(r.refCount) - 1 && r.Valid() && r.scope == old(r.scope)
    {
      var pool := currentRegisterPool;
      var i := 0;
      while i < |pool|
        invariant 0 <= i <= |pool|
        invariant currentRegisterPool == pool
        invariant forall k :: 0 <= k < i ==> pool[k].refCount == old(pool[k].refCount) - 1
        invariant forall k :: i <= k < |pool| ==> pool[k].refCount == old(pool[k].refCount)
        invariant forall r :: r in pool ==> r.Valid() && r.scope == old(r.scope)
      {
        pool[i].refCount := pool[i].refCount - 1;
        i := i + 1;
      }
      currentRegisterPool := [];
    }

    method GetListOfAllDirtyGlobals(scopes: ScopeResolver) returns (l: seq<AssemblyRegister>)
      requires Valid()
      ensures l == DirtyGlobals(currentRegisterPool, scopes)
      ensures forall r :: r in l <==> r in currentRegisterPool && r.IsDirtyGlobalMemory(scopes)
      ensures Distinct(l)
    {
      l := [];
      for i := 0 to |currentRegisterPool|
        invariant l == DirtyGlobals(currentRegisterPool[..i], scopes)
      {
        assert currentRegisterPool[..i + 1][..i] == currentRegisterPool[..i];
        var r := currentRegisterPool[i];
        if r.IsDirtyGlobalMemory(scopes) {
          l := l + [r];
        }
      }
      assert currentRegisterPool[..|currentRegisterPool|] == currentRegisterPool;
      DirtyGlobalsExactly(currentRegisterPool, scopes);
    }

    method GetListOfAllNamedRegisters() returns (l: seq<AssemblyRegister>)
      requires Valid()
      ensures l == Named(currentRegisterPool)
      ensures forall r :: r in l <==> r in currentRegisterPool && r.id.Some?
      ensures Distinct(l)
    {
      l := [];
      for i := 0 to |currentRegisterPool|
        invariant l == Named(currentRegisterPool[..i])
      {
        assert currentRegisterPool[..i + 1][..i] == currentRegisterPool[..i];
        var r := currentRegisterPool[i];
        if r.id.Some? {
          l := l + [r];
        }
      }
      assert currentRegisterPool[..|currentRegisterPool|] == currentRegisterPool;
      NamedExactly(currentRegisterPool);
    }

    /** Makes a new handle for scope and appends it to the pool. */
    method GetNextFreeRegister(scope: ScopeId, t: TypeInfo) returns (r: AssemblyRegister)
      requires Valid()
      modifies this
      ensures Valid() && fresh(r)
      ensures currentRegisterPool == old(currentRegisterPool) + [r]
      ensures r.IsPristine() && r.typeInfo == t && r.autoVectorisation == autoVectorisation
      ensures r.scope == Some(scope) && r.id == None && r.refCount == 1
    {
      r := new AssemblyRegister(t, autoVectorisation);
      r.scope := Some(scope);
      currentRegisterPool := currentRegisterPool + [r];
      r.refCount := r.refCount + 1;
    }

    /** The first handle bound to symbol s as seen from scope, or a new handle
        bound to s in its declaring scope (scope itself if there is none). */
    method GetRegisterForVariable(scopes: ScopeResolver, scope: ScopeId, s: Symbol)
      returns (r: AssemblyRegister, ghost index: nat)
      requires Valid()
      modifies this
      ensures Valid()
      ensures index <= |old(currentRegisterPool)| && index < |currentRegisterPool| && currentRegisterPool[index] == r
      ensures forall k :: 0 <= k < index ==> !currentRegisterPool[k].MatchesScopeAndSymbol(scopes, scope, s)
      ensures index < |old(currentRegisterPool)| ==>
        currentRegisterPool == old(currentRegisterPool) && r.MatchesScopeAndSymbol(scopes, scope, s)
      ensures index == |old(currentRegisterPool)| ==>
        && currentRegisterPool == old(currentRegisterPool) + [r] && fresh(r)
        && r.IsPristine() && r.typeInfo == s.typeInfo && r.refCount == 1
        && r.scope == Some(ResolvedScope(scopes, scope, s.id)) && r.id == Some(s)
    {
      var i := 0;
      while i < |currentRegisterPool|
        invariant 0 <= i <= |currentRegisterPool|
        invariant forall k :: 0 <= k < i ==> !currentRegisterPool[k].MatchesScopeAndSymbol(scopes, scope, s)
      {
        if currentRegisterPool[i].MatchesScopeAndSymbol(scopes, scope, s) {
          return currentRegisterPool[i], i;
        }
        i := i + 1;
      }
      index := |currentRegisterPool|;
      r := GetNextFreeRegister(scope, s.typeInfo);
      r.SetReference(scopes, scope, s);
    }

    /** The handle is active, has custom memory and sits on operand m. */
    predicate IsActiveOn(x: AssemblyRegister, m: Operand)
      reads x
    {
      x.hasCustomMem && x.IsActive() && x.memory == m
    }

    /** The first active handle with custom memory on the same memory operand
        as regWithCustomMem, or regWithCustomMem itself when there is none
        (index is then the pool's length). */
    method GetActiveRegisterForCustomMem(regWithCustomMem: AssemblyRegister) returns (r: AssemblyRegister, ghost index: nat)
      requires Valid() && regWithCustomMem.memory.IsMem()
      ensures index <= |currentRegisterPool|
      ensures forall k :: 0 <= k < index ==> !IsActiveOn(currentRegisterPool[k], regWithCustomMem.memory)
      ensures index < |currentRegisterPool| ==>
        r == currentRegisterPool[index] && IsActiveOn(r, regWithCustomMem.memory)
      ensures index == |currentRegisterPool| ==> r == regWithCustomMem
    {
      for i := 0 to |currentRegisterPool|
        invariant forall k :: 0 <= k < i ==> !IsActiveOn(currentRegisterPool[k], regWithCustomMem.memory)
      {
        var x := currentRegisterPool[i];
        assert x in currentRegisterPool;
        if x.hasCustomMem && x.IsActive() {
          if x.GetMemoryLocationForReference() == regWithCustomMem.GetMemoryLocationForReference() {
            return x, i;
          }
        }
      }
      return regWithCustomMem, |currentRegisterPool|;
    }

    /** Drops the pool's reference to ref when ref has exactly two holders. */
    method RemoveIfUnreferenced(ref: AssemblyRegister)
      requires Valid()
      modifies this, ref`refCount
      ensures Valid()
      ensures old(ref.refCount) == 2 && ref in old(currentRegisterPool) ==>
        currentRegisterPool == Without(old(currentRegisterPool), ref) && ref !in currentRegisterPool
        && ref.refCount == 1
      ensures !(old(ref.refCount) == 2 && ref in old(currentRegisterPool)) ==>
        currentRegisterPool == old(currentRegisterPool) && ref.refCount == old(ref.refCount)
    {
      var refCount := ref.refCount;
      if refCount == 2 {
        RemoveObject(ref);
      }
    }

    /** ReferenceCountedArray::removeObject: removes x and releases the pool's
        reference to it; does nothing when x is not in the pool. */
    method RemoveObject(x: AssemblyRegister)
      requires Valid()
      modifies this, x`refCount
      ensures Valid()
      ensures currentRegisterPool == Without(old(currentRegisterPool), x) && x !in currentRegisterPool
      ensures x in old(currentRegisterPool) ==> x.refCount == old(x.refCount) - 1
      ensures x !in old(currentRegisterPool) ==> x.refCount == old(x.refCount) && currentRegisterPool == old(currentRegisterPool)
    {
      var i := 0;
      while i < |currentRegisterPool| && currentRegisterPool[i] != x
        invariant 0 <= i <= |currentRegisterPool|
        invariant x !in currentRegisterPool[..i]
      {
        i := i + 1;
      }
      if i == |currentRegisterPool| {
        assert currentRegisterPool[..i] == currentRegisterPool;
        WithoutAbsent(currentRegisterPool, x);
      } else {
        WithoutAt(currentRegisterPool, i);
        currentRegisterPool := currentRegisterPool[..i] + currentRegisterPool[i + 1..];
        x.refCount := x.refCount - 1;
      }
    }

    /** Coalescing: a handle may stand for other when it is a different handle
        in the LoadedMemoryLocation state on the same memory operand and type. */
    predicate CanStandFor(r: AssemblyRegister, other: AssemblyRegister)
      reads r, other
    {
      r.IsMemoryLocation() && r != other && r.MatchesMemoryLocation(other)
    }

    /** Handles of different types never stand in for each other, even when
        they share a register type and a memory operand. */
    lemma DifferentTypesNeverStandIn(r: AssemblyRegister, other: AssemblyRegister)
      requires r.typeInfo != other.typeInfo
      ensures !CanStandFor(r, other)
    {
    }

    /** The scan of getRegisterWithMemory: the index of the first handle
        that can stand for other, or the pool's length when there is none. */
    method FindStandIn(other: AssemblyRegister) returns (index: nat)
      requires Valid()
      ensures index <= |currentRegisterPool|
      ensures forall k :: 0 <= k < index ==> !CanStandFor(currentRegisterPool[k], other)
      ensures index < |currentRegisterPool| ==> CanStandFor(currentRegisterPool[index], other)
    {
      for i := 0 to |currentRegisterPool|
        invariant forall k :: 0 <= k < i ==> !CanStandFor(currentRegisterPool[k], other)
      {
        var x := currentRegisterPool[i];
        if !x.IsMemoryLocation() {
          continue;
        }
        if x == other {
          continue;
        }
        if x.MatchesMemoryLocation(other) {
          return i;
        }
      }
      return |currentRegisterPool|;
    }

    /** other when it has no custom memory; otherwise the first handle of the
        pool that can stand for it, whose memory reference count goes up by
        one, or other itself when there is none. Only memory reference counts
        of pooled handles may change. */
    method GetRegisterWithMemory(other: AssemblyRegister) returns (r: AssemblyRegister, ghost index: nat)
      requires Valid()
      modifies currentRegisterPool`numMemoryReferences
      ensures Valid()
      ensures index <= |currentRegisterPool|
      ensures !other.hasCustomMem ==> r == other && index == |currentRegisterPool|
      ensures other.hasCustomMem ==> forall k :: 0 <= k < index ==> !CanStandFor(currentRegisterPool[k], other)
      ensures index < |currentRegisterPool| ==>
        && r == currentRegisterPool[index] && CanStandFor(r, other)
        && r.numMemoryReferences == old(r.numMemoryReferences) + 1
      ensures index == |currentRegisterPool| ==> r == other
      ensures forall x :: x in currentRegisterPool && (index == |currentRegisterPool| || x != r) ==>
        x.numMemoryReferences == old(x.numMemoryReferences)
    {
      if !other.hasCustomMem {
        return other, |currentRegisterPool|;
      }
      var found := FindStandIn(other);
      index := found;
      if found < |currentRegisterPool| {
        r := currentRegisterPool[found];
        r.numMemoryReferences := r.numMemoryReferences + 1;
      } else {
        r := other;
      }
    }
  }
}
