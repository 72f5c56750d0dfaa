/**
 What a bulk reconcile leaves behind, stated independently of the loop that
 performs it: the descriptors are applied in order up to the first one that
 fails, and each key then holds the value of the LAST successful descriptor
 that wrote it.
 */
module ReconcileProperties {
  import opened Wrappers
  import opened MockStore
  import opened MockUpdater

  /** The cache key a descriptor writes. */
  function DescriptorKey(d: Descriptor): string {
    BuildKey(d.methodName, d.alias)
  }

  /** The value a descriptor stores when applied with `open`; absent when applying it throws. */
  function Applied<T, V>(methods: seq<MethodSig<T>>, interfaceId: string, d: Descriptor,
                         decode: (string, T) -> Decoded<V>): Option<V>
  {
    match Materialize(methods, interfaceId, d.methodName, d.mockValue, decode)
    case Success(Value(v)) => Some(v)
    case _ => None
  }

  /**
   The writes of the longest prefix of descriptors that all apply: entry j
   is descriptor j's key and value, and the descriptor just past the prefix,
   if any, fails.
   */
  function Writes<T, V>(methods: seq<MethodSig<T>>, interfaceId: string, ds: seq<Descriptor>,
                        decode: (string, T) -> Decoded<V>): (ws: seq<(string, V)>)
    ensures |ws| <= |ds|
    ensures forall j :: 0 <= j < |ws| ==>
              ws[j].0 == DescriptorKey(ds[j]) && Applied(methods, interfaceId, ds[j], decode) == Some(ws[j].1)
    ensures |ws| < |ds| ==> Applied(methods, interfaceId, ds[|ws|], decode).None?
    decreases |ds|
  {
    if ds == [] then []
    else
      match Applied(methods, interfaceId, ds[0], decode)
      case None => []
      case Some(v) => [(DescriptorKey(ds[0]), v)] + Writes(methods, interfaceId, ds[1..], decode)
  }

  /** The value of the last write to `key` in `ws`, or `base` when nothing writes it. */
  function LastWrite<V>(ws: seq<(string, V)>, key: string, base: Option<V>): Option<V>
    decreases |ws|
  {
    if ws == [] then base
    else if ws[|ws| - 1].0 == key then Some(ws[|ws| - 1].1)
    else LastWrite(ws[..|ws| - 1], key, base)
  }

  /** A key no entry of `ws` writes keeps its `base` value. */
  lemma {:induction false} LastWriteUnwritten<V>(ws: seq<(string, V)>, key: string, base: Option<V>)
    requires forall j :: 0 <= j < |ws| ==> ws[j].0 != key
    ensures LastWrite(ws, key, base) == base
    decreases |ws|
  {
    if ws != [] {
      var init := ws[..|ws| - 1];
      assert forall j :: 0 <= j < |init| ==> init[j] == ws[j];
      LastWriteUnwritten(init, key, base);
    }
  }

  /** `LastWrite` yields the value of the write to `key` that no later entry overrides. */
  lemma {:induction false} LastWriteIsLatest<V>(ws: seq<(string, V)>, key: string, base: Option<V>, j: nat)
    requires j < |ws| && ws[j].0 == key
    requires forall i :: j < i < |ws| ==> ws[i].0 != key
    ensures LastWrite(ws, key, base) == Some(ws[j].1)
    decreases |ws|
  {
    if j < |ws| - 1 {
      var init := ws[..|ws| - 1];
      assert init[j] == ws[j];
      assert forall i :: j < i < |init| ==> init[i] == ws[i];
      LastWriteIsLatest(init, key, base, j);
    }
  }

  /** Scanning a concatenation: the writes of the second part override those of the first. */
  lemma {:induction false} LastWriteAppend<V>(a: seq<(string, V)>, b: seq<(string, V)>, key: string, base: Option<V>)
    ensures LastWrite(a + b, key, base) == LastWrite(b, key, LastWrite(a, key, base))
    decreases |b|
  {
    if b == [] {
      assert a + b == a;
    } else {
      var b' := b[..|b| - 1];
      assert (a + b)[..|a + b| - 1] == a + b';
      LastWriteAppend(a, b', key, base);
    }
  }

  /**
   The table a batch leaves: every key holds its last write among the
   successful prefix, or what it held before when the prefix never writes it.
   */
  lemma {:induction false} ApplyBatchLastWriteWins<T, V>(s: Store<V>, methods: seq<MethodSig<T>>, interfaceId: string,
                                                         ds: seq<Descriptor>, decode: (string, T) -> Decoded<V>)
    ensures forall key :: Get(ApplyBatch(s, methods, interfaceId, ds, decode).store, interfaceId, key) ==
                          LastWrite(Writes(methods, interfaceId, ds, decode), key, Get(s, interfaceId, key))
    decreases |ds|
  {
    if ds != [] {
      var d := ds[0];
      var st := ParseMockValue(s, methods, interfaceId, d.methodName, d.alias, d.mockValue, true, decode);
      match Applied(methods, interfaceId, d, decode)
      case None =>
        assert st.thrown.Some?;
      case Some(v) =>
        var rest := Writes(methods, interfaceId, ds[1..], decode);
        assert Writes(methods, interfaceId, ds, decode) == [(DescriptorKey(d), v)] + rest;
        ApplyBatchLastWriteWins(st.store, methods, interfaceId, ds[1..], decode);
        forall key
          ensures Get(ApplyBatch(s, methods, interfaceId, ds, decode).store, interfaceId, key) ==
                  LastWrite([(DescriptorKey(d), v)] + rest, key, Get(s, interfaceId, key))
        {
          LastWriteAppend([(DescriptorKey(d), v)], rest, key, Get(s, interfaceId, key));
          assert [(DescriptorKey(d), v)][..0] == [];
        }
    }
  }

  /**
   How a batch ends: it completes exactly when every descriptor applies, and
   the interface has a table afterwards exactly when it had one, some write
   succeeded, or the failing descriptor decoded to `null` (whose lazily
   created table survives the exception).
   */
  lemma {:induction false} ApplyBatchOutcome<T, V>(s: Store<V>, methods: seq<MethodSig<T>>, interfaceId: string,
                                                   ds: seq<Descriptor>, decode: (string, T) -> Decoded<V>)
    ensures var r := ApplyBatch(s, methods, interfaceId, ds, decode);
            var k := |Writes(methods, interfaceId, ds, decode)|;
            && (r.thrown.None? <==> k == |ds|)
            && (interfaceId in r.store <==>
                  interfaceId in s || k > 0 ||
                  (k < |ds| && Materialize(methods, interfaceId, ds[k].methodName, ds[k].mockValue, decode) == Success(NullValue)))
    decreases |ds|
  {
    if ds != [] {
      var d := ds[0];
      var st := ParseMockValue(s, methods, interfaceId, d.methodName, d.alias, d.mockValue, true, decode);
      match Applied(methods, interfaceId, d, decode)
      case None =>
      case Some(v) =>
        ApplyBatchOutcome(st.store, methods, interfaceId, ds[1..], decode);
    }
  }

  /**
   `updateCache` with a parseable setting for a known interface: afterwards
   each (method, alias) of the interface yields the value of the last
   descriptor for it within the prefix that applied, and nothing else; the
   descriptors after the first failing one are not applied, those before it
   stay applied.
   */
  lemma ReconcileLastWriteWins<T, V>(s: Store<V>, interfaceId: string, fetched: Option<string>,
                                     parse: string -> Option<seq<Descriptor>>,
                                     forName: string -> Option<seq<MethodSig<T>>>,
                                     decode: (string, T) -> Decoded<V>)
    requires HasPayload(fetched) && parse(fetched.value).Some? && forName(interfaceId).Some?
    ensures var r := UpdateCache(s, interfaceId, fetched, parse, forName, decode);
            var ws := Writes(forName(interfaceId).value, interfaceId, parse(fetched.value).value, decode);
            forall m, a :: GetResultFromCache(r, interfaceId, m, a) == LastWrite(ws, BuildKey(m, a), None)
  {
    var methods := forName(interfaceId).value;
    var ds := parse(fetched.value).value;
    ApplyBatchLastWriteWins(Clear(s, interfaceId), methods, interfaceId, ds, decode);
  }

  /**
   `updateCache` leaves a table for the interface only when some descriptor
   was applied or the failing one decoded to `null`.
   */
  lemma ReconcileTablePresence<T, V>(s: Store<V>, interfaceId: string, fetched: Option<string>,
                                     parse: string -> Option<seq<Descriptor>>,
                                     forName: string -> Option<seq<MethodSig<T>>>,
                                     decode: (string, T) -> Decoded<V>)
    requires HasPayload(fetched) && parse(fetched.value).Some? && forName(interfaceId).Some?
    ensures var r := UpdateCache(s, interfaceId, fetched, parse, forName, decode);
            var methods := forName(interfaceId).value;
            var ds := parse(fetched.value).value;
            var k := |Writes(methods, interfaceId, ds, decode)|;
            interfaceId in r <==>
              k > 0 || (k < |ds| && Materialize(methods, interfaceId, ds[k].methodName, ds[k].mockValue, decode) == Success(NullValue))
  {
    var methods := forName(interfaceId).value;
    var ds := parse(fetched.value).value;
    ApplyBatchOutcome(Clear(s, interfaceId), methods, interfaceId, ds, decode);
  }
}
