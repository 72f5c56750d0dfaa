/**
 Properties of whole calls, stated in terms of (interface, method, alias)
 lookups as a caller of the store sees them.
 */
module MockScenarios {
  import opened Wrappers
  import opened MockStore
  import opened MockUpdater
  import opened ReconcileProperties

  /**
   A single add or remove touches no other (method, alias) pair, provided
   method names hold no separator (Java method names never do).
   */
  lemma ParseMockValueKeepsOtherPairs<T, V>(s: Store<V>, methods: seq<MethodSig<T>>, interfaceId: string,
                                            methodName: string, alias: string, mockValue: string, open: bool,
                                            decode: (string, T) -> Decoded<V>, otherMethod: string, otherAlias: string)
    requires Separator !in methodName && Separator !in otherMethod
    requires (otherMethod, otherAlias) != (methodName, alias)
    ensures var r := ParseMockValue(s, methods, interfaceId, methodName, alias, mockValue, open, decode);
            GetResultFromCache(r.store, interfaceId, otherMethod, otherAlias) == GetResultFromCache(s, interfaceId, otherMethod, otherAlias)
  {
    if BuildKey(otherMethod, otherAlias) == BuildKey(methodName, alias) {
      BuildKeyInjective(otherMethod, otherAlias, methodName, alias);
    }
  }

  /** No transition of one interface changes a lookup of another. */
  lemma AddMockResultIsolatesInterfaces<T, V>(s: Store<V>, interfaceId: string, methodName: string, alias: string,
                                              mockValue: string, open: bool,
                                              forName: string -> Option<seq<MethodSig<T>>>,
                                              decode: (string, T) -> Decoded<V>, other: string)
    requires other != interfaceId
    ensures forall m, a :: GetResultFromCache(AddMockResult(s, interfaceId, methodName, alias, mockValue, open, forName, decode).store, other, m, a)
                           == GetResultFromCache(s, other, m, a)
  {
  }

  /**
   The administrative add, stated as the caller sees it: when the class and
   the method resolve and the payload decodes to a value, the call succeeds
   and the pair yields that value.
   */
  lemma AddMockResultOpenSucceeds<T, V>(s: Store<V>, interfaceId: string, methodName: string, alias: string,
                                        mockValue: string, forName: string -> Option<seq<MethodSig<T>>>,
                                        decode: (string, T) -> Decoded<V>, i: nat, v: V)
    requires forName(interfaceId).Some?
    requires FirstMatch(forName(interfaceId).value, methodName) == Some(i)
    requires decode(mockValue, forName(interfaceId).value[i].returnType) == Value(v)
    ensures var r := AddMockResult(s, interfaceId, methodName, alias, mockValue, true, forName, decode);
            r.thrown.None? && GetResultFromCache(r.store, interfaceId, methodName, alias) == Some(v)
  {
  }

  /**
   The administrative call fails exactly when the class is unknown, the
   method is not found, or the payload does not decode to a value.
   */
  lemma AddMockResultFailsIff<T, V>(s: Store<V>, interfaceId: string, methodName: string, alias: string,
                                    mockValue: string, open: bool,
                                    forName: string -> Option<seq<MethodSig<T>>>,
                                    decode: (string, T) -> Decoded<V>)
    ensures var r := AddMockResult(s, interfaceId, methodName, alias, mockValue, open, forName, decode);
            r.thrown.Some? <==>
              || forName(interfaceId).None?
              || Materialize(forName(interfaceId).value, interfaceId, methodName, mockValue, decode).Failure?
              || (open && Materialize(forName(interfaceId).value, interfaceId, methodName, mockValue, decode) == Success(NullValue))
  {
  }

  /** Round trip: a successful add followed by a successful remove of the same pair leaves it absent again. */
  lemma AddThenRemove<T, V>(s: Store<V>, interfaceId: string, methodName: string, alias: string,
                            addValue: string, removeValue: string,
                            forName: string -> Option<seq<MethodSig<T>>>,
                            decode: (string, T) -> Decoded<V>)
    requires AddMockResult(s, interfaceId, methodName, alias, addValue, true, forName, decode).thrown.None?
    ensures var s1 := AddMockResult(s, interfaceId, methodName, alias, addValue, true, forName, decode).store;
            var r := AddMockResult(s1, interfaceId, methodName, alias, removeValue, false, forName, decode);
            && GetResultFromCache(s1, interfaceId, methodName, alias).Some?
            && (r.thrown.None? ==> GetResultFromCache(r.store, interfaceId, methodName, alias) == None)
            && (r.thrown.Some? ==> r.store == s1)
  {
  }

  /** Two aliases of one method are independent entries: the second add keeps the first one's value. */
  lemma AliasesIndependent<T, V>(s: Store<V>, interfaceId: string, methodName: string, alias1: string, alias2: string,
                                 value1: string, value2: string,
                                 forName: string -> Option<seq<MethodSig<T>>>,
                                 decode: (string, T) -> Decoded<V>)
    requires alias1 != alias2
    requires AddMockResult(s, interfaceId, methodName, alias1, value1, true, forName, decode).thrown.None?
    ensures var s1 := AddMockResult(s, interfaceId, methodName, alias1, value1, true, forName, decode).store;
            var s2 := AddMockResult(s1, interfaceId, methodName, alias2, value2, true, forName, decode).store;
            GetResultFromCache(s2, interfaceId, methodName, alias1) == GetResultFromCache(s1, interfaceId, methodName, alias1)
  {
    BuildKeyAliasesDistinct(methodName, alias1, alias2);
  }

  /** A reconcile with an empty setting removes every mock of the interface, whatever was there. */
  lemma ReconcileWithoutSettingClears<T, V>(s: Store<V>, interfaceId: string,
                                            parse: string -> Option<seq<Descriptor>>,
                                            forName: string -> Option<seq<MethodSig<T>>>,
                                            decode: (string, T) -> Decoded<V>)
    ensures forall m, a :: GetResultFromCache(UpdateCache(s, interfaceId, None, parse, forName, decode), interfaceId, m, a) == None
    ensures forall m, a :: GetResultFromCache(UpdateCache(s, interfaceId, Some(""), parse, forName, decode), interfaceId, m, a) == None
  {
  }

  /**
   A concrete batch whose second descriptor names a missing method: the
   first descriptor stays applied after the reconcile, the exception is
   swallowed and the second is skipped.
   */
  lemma PartialBatchStaysApplied(s: Store<int>)
    ensures var methods := [MethodSig("echo", 0)];
            var ds := [Descriptor("echo", "v1", "7"), Descriptor("missing", "", "8")];
            var r := UpdateCache(s, "I", Some("[...]"), p => Some(ds), c => Some(methods),
                                 (payload: string, t: int) => Value(|payload|));
            && GetResultFromCache(r, "I", "echo", "v1") == Some(1)
            && GetResultFromCache(r, "I", "missing", "") == None
  {
    var methods := [MethodSig("echo", 0)];
    var ds := [Descriptor("echo", "v1", "7"), Descriptor("missing", "", "8")];
    var parse := p => Some(ds);
    var forName := c => Some(methods);
    var decode := (payload: string, t: int) => Value(|payload|);
    ReconcileLastWriteWins(s, "I", Some("[...]"), parse, forName, decode);
    assert FirstMatch(methods, "missing") == None;
    var ws := Writes(methods, "I", ds, decode);
    assert Applied(methods, "I", ds[0], decode) == Some(1);
    assert Applied(methods, "I", ds[1], decode) == None;
    assert ws == [(BuildKey("echo", "v1"), 1)];
    BuildKeyAliasesDistinct("missing", "", "v1");
    if BuildKey("missing", "") == BuildKey("echo", "v1") {
      BuildKeyInjective("missing", "", "echo", "v1");
    }
  }
}
