/** How a code generator uses the register pool: what repeated lookups of a
    variable give back. */
module SnexScenarios {
  import opened SnexTypes
  import opened SnexRegister
  import opened SnexRegisterPool

  /** Looking up a symbol that some scope declares twice gives the same handle
      both times, and the pool gains at most the one handle of the first call. */
  method ResolveDeclaredTwice(pool: AssemblyRegisterPool, scopes: ScopeResolver, scope: ScopeId, s: Symbol)
    returns (first: AssemblyRegister, second: AssemblyRegister)
    requires pool.Valid() && scopes.scopeForSymbol(scope, s.id).Some?
    modifies pool
    ensures pool.Valid()
    ensures first == second && first in pool.currentRegisterPool
    ensures |old(pool.currentRegisterPool)| <= |pool.currentRegisterPool| <= |old(pool.currentRegisterPool)| + 1
  {
    ghost var i1, i2;
    first, i1 := pool.GetRegisterForVariable(scopes, scope, s);
    assert first.MatchesScopeAndSymbol(scopes, scope, s);
    ghost var afterFirst := pool.currentRegisterPool;
    second, i2 := pool.GetRegisterForVariable(scopes, scope, s);
    ghost var afterSecond := pool.currentRegisterPool;
    assert afterSecond[i1] == afterFirst[i1];
    assert i2 <= i1;
    assert afterSecond[i2] == afterFirst[i2];
  }

  /** Looking up a symbol that no scope declares twice makes two different
      handles: the new handle is bound to the lookup scope, which the next
      lookup (comparing against the missing declaring scope) never matches. */
  method ResolveUndeclaredTwice(pool: AssemblyRegisterPool, scopes: ScopeResolver, scope: ScopeId, s: Symbol)
    returns (first: AssemblyRegister, second: AssemblyRegister)
    requires pool.Valid() && scopes.scopeForSymbol(scope, s.id).None?
    modifies pool
    ensures pool.Valid()
    ensures first != second && first.scope == Some(scope) && second.scope == Some(scope)
    ensures pool.currentRegisterPool == old(pool.currentRegisterPool) + [first, second]
  {
    ghost var i1, i2;
    first, i1 := pool.GetRegisterForVariable(scopes, scope, s);
    ghost var afterFirst := pool.currentRegisterPool;
    second, i2 := pool.GetRegisterForVariable(scopes, scope, s);
    assert afterFirst[|afterFirst| - 1] == first;
  }

  /** Asking twice for a handle on other's memory gives the same survivor both
      times; a pooled survivor counts both requests. */
  method CoalesceTwice(pool: AssemblyRegisterPool, other: AssemblyRegister)
    returns (first: AssemblyRegister, second: AssemblyRegister)
    requires pool.Valid()
    modifies pool.currentRegisterPool
    ensures pool.Valid()
    ensures first == second
    ensures first != other ==>
      first in pool.currentRegisterPool && first.numMemoryReferences == old(first.numMemoryReferences) + 2
  {
    ghost var i1, i2;
    first, i1 := pool.GetRegisterWithMemory(other);
    second, i2 := pool.GetRegisterWithMemory(other);
  }

  /** A write to a global variable makes its handle a dirty global, which the
      pool then lists; after the flush the pool no longer lists it. */
  method DirtyThenFlush(pool: AssemblyRegisterPool, scopes: ScopeResolver, x: AssemblyRegister)
    returns (before: seq<AssemblyRegister>, after: seq<AssemblyRegister>)
    requires pool.Valid() && x in pool.currentRegisterPool
    requires x.IsActiveOrDirtyGlobalRegister() && x.IsGlobalMemory(scopes)
    modifies x`dirty, x`state
    ensures pool.Valid()
    ensures x in before && x !in after
    ensures x.state == ActiveRegister && !x.dirty
  {
    var res := x.GetRegisterForWriteOp(scopes);
    assert x.IsDirtyGlobalMemory(scopes);
    before := pool.GetListOfAllDirtyGlobals(scopes);
    x.SetUndirty();
    after := pool.GetListOfAllDirtyGlobals(scopes);
  }
}
