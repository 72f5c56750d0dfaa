/**
 The update transitions of `MockDataFactroy`: the single add/remove
 (`parseMockValue`), the bulk reconcile (`updateCache`) and the administrative
 entry (`addMockResult`). Reflection, JSON decoding and the configuration
 fetch are inputs: the class lookup is `forName`, the descriptor list parser
 is `parse`, the type-directed decoder is `decode`, and the fetched setting
 is `fetched`.
 */
module MockUpdater {
  import opened Wrappers
  import opened MockStore

  /** A public method of the interface as reflection reports it: its name and return type. */
  datatype MethodSig<T> = MethodSig(name: string, returnType: T)

  /** One mock record of the configuration payload: method, alias and encoded mock value. */
  datatype Descriptor = Descriptor(methodName: string, alias: string, mockValue: string)

  /** What the type-directed decoder yields: a parse error, a JSON `null`, or a value. */
  datatype Decoded<V> = Malformed | NullValue | Value(value: V)

  /** The exceptions the transitions can raise. */
  datatype Thrown =
    | ClassNotFound(interfaceId: string)                    // `ClassLoaderUtils.forName` failed
    | NoSuchMethod(interfaceId: string, methodName: string) // no method with the requested name
    | DecodeError(mockValue: string)                        // the payload does not decode to the return type
    | NullPointer                                           // a `null` mock value put into the concurrent table

  /** The single error `addMockResult` reports, carrying the call's context and its cause. */
  datatype RpcException = RpcException(interfaceId: string, methodName: string, alias: string, mockValue: string, cause: Thrown)

  /**
   The effect of a Java call: the store afterwards and the exception thrown,
   if any. An exception does not undo side effects already made.
   */
  datatype Step<V, E> = Step(store: Store<V>, thrown: Option<E>)

  /** `StringUtils.isNotEmpty` on the fetched setting. */
  predicate HasPayload(fetched: Option<string>) {
    fetched.Some? && |fetched.value| > 0
  }

  /**
   Method resolution: the index of the first method, in enumeration order,
   whose name equals the requested name exactly; absent when there is none.
   */
  function FirstMatch<T>(methods: seq<MethodSig<T>>, name: string): (r: Option<nat>)
    ensures r.Some? ==> r.value < |methods| && methods[r.value].name == name
    ensures r.Some? ==> forall j :: 0 <= j < r.value ==> methods[j].name != name
    ensures r.None? <==> forall j :: 0 <= j < |methods| ==> methods[j].name != name
    decreases |methods|
  {
    if methods == [] then None
    else if methods[0].name == name then Some(0)
    else
      match FirstMatch(methods[1..], name)
      case None => None
      case Some(i) => Some(i + 1)
  }

  /**
   The part of `parseMockValue` before the open/close branch: resolve the
   method, then decode the payload against its return type. A decode error
   fails the call whichever way `open` is set.
   */
  function Materialize<T, V>(methods: seq<MethodSig<T>>, interfaceId: string, methodName: string,
                             mockValue: string, decode: (string, T) -> Decoded<V>): Result<Decoded<V>, Thrown>
  {
    match FirstMatch(methods, methodName)
    case None => Failure(NoSuchMethod(interfaceId, methodName))
    case Some(i) =>
      var decoded := decode(mockValue, methods[i].returnType);
      if decoded.Malformed? then Failure(DecodeError(mockValue)) else Success(decoded)
  }

  /**
   Resolution before decoding: with no method of the requested name the
   result is not-found; otherwise the payload is decoded against the return
   type of the first method carrying the name, and only a malformed payload
   is an error.
   */
  lemma MaterializeResolvesFirstMatch<T, V>(methods: seq<MethodSig<T>>, interfaceId: string, methodName: string,
                                            mockValue: string, decode: (string, T) -> Decoded<V>)
    ensures (forall j :: 0 <= j < |methods| ==> methods[j].name != methodName) ==>
              Materialize(methods, interfaceId, methodName, mockValue, decode) == Failure(NoSuchMethod(interfaceId, methodName))
    ensures forall i :: 0 <= i < |methods| && methods[i].name == methodName &&
                        (forall j :: 0 <= j < i ==> methods[j].name != methodName) ==>
              var d := decode(mockValue, methods[i].returnType);
              Materialize(methods, interfaceId, methodName, mockValue, decode) ==
                (if d.Malformed? then Failure(DecodeError(mockValue)) else Success(d))
  {
    match FirstMatch(methods, methodName)
    case None =>
    case Some(i) =>
      // any index that is the first with the name is `i`
      assert forall k :: 0 <= k < |methods| && methods[k].name == methodName &&
                         (forall j :: 0 <= j < k ==> methods[j].name != methodName)
                     ==> k == i;
  }

  /**
   `parseMockValue`: add (`open`) or remove one mock of an interface.
   Resolution and decode failures leave the store untouched. With `open`, a
   table is created lazily and the key is set; a `null` value creates the
   table and then throws. Without `open`, only the key is removed.
   */
  function ParseMockValue<T, V>(s: Store<V>, methods: seq<MethodSig<T>>, interfaceId: string,
                                methodName: string, alias: string, mockValue: string, open: bool,
                                decode: (string, T) -> Decoded<V>): (r: Step<V, Thrown>)
    // not found, or not decodable: the exception escapes and nothing changed
    ensures FirstMatch(methods, methodName).None? ==> r == Step(s, Some(NoSuchMethod(interfaceId, methodName)))
    ensures Materialize(methods, interfaceId, methodName, mockValue, decode).Failure? ==>
              r == Step(s, Some(Materialize(methods, interfaceId, methodName, mockValue, decode).error))
    // other interfaces are never touched
    ensures r.store - {interfaceId} == s - {interfaceId}
    // a failure never changes a lookup; at most it leaves behind a fresh empty table
    ensures r.thrown.Some? ==> forall key :: Get(r.store, interfaceId, key) == Get(s, interfaceId, key)
    ensures r.thrown.Some? ==> r.store == s || (interfaceId !in s && r.store == s[interfaceId := map[]])
    // open with a decoded value: the key maps to it, a table exists, other keys keep their values
    ensures open && Materialize(methods, interfaceId, methodName, mockValue, decode).Success? ==>
              var decoded := Materialize(methods, interfaceId, methodName, mockValue, decode).value;
              && interfaceId in r.store
              && (decoded.Value? ==> r.thrown.None? && Get(r.store, interfaceId, BuildKey(methodName, alias)) == Some(decoded.value))
              && (decoded.NullValue? ==> r.thrown == Some(NullPointer))
    // close with a decodable payload: the key is absent, no table appears or disappears
    ensures !open && Materialize(methods, interfaceId, methodName, mockValue, decode).Success? ==>
              && r.thrown.None?
              && Get(r.store, interfaceId, BuildKey(methodName, alias)) == None
              && (interfaceId in r.store <==> interfaceId in s)
    // whatever happens, no other key of the interface changes
    ensures forall key :: key != BuildKey(methodName, alias) ==> Get(r.store, interfaceId, key) == Get(s, interfaceId, key)
  {
    var key := BuildKey(methodName, alias);
    match Materialize(methods, interfaceId, methodName, mockValue, decode)
    case Failure(e) => Step(s, Some(e))
    case Success(decoded) =>
      if open then
        var withTable := EnsureTable(s, interfaceId);
        match decoded
        case Value(v) => Step(Put(withTable, interfaceId, key, v), None)
        case _ => Step(withTable, Some(NullPointer))
      else
        Step(Remove(s, interfaceId, key), None)
  }

  /**
   The loop of `updateCache`: apply the descriptors in order with `open`
   set; the first exception ends the loop, and the writes made before it stay.
   */
  function ApplyBatch<T, V>(s: Store<V>, methods: seq<MethodSig<T>>, interfaceId: string,
                            mocks: seq<Descriptor>, decode: (string, T) -> Decoded<V>): (r: Step<V, Thrown>)
    ensures r.store - {interfaceId} == s - {interfaceId}
    ensures interfaceId in s ==> interfaceId in r.store
    decreases |mocks|
  {
    if mocks == [] then Step(s, None)
    else
      var d := mocks[0];
      var st := ParseMockValue(s, methods, interfaceId, d.methodName, d.alias, d.mockValue, true, decode);
      if st.thrown.Some? then st else ApplyBatch(st.store, methods, interfaceId, mocks[1..], decode)
  }

  /**
   `updateCache`: drop the interface's table, then rebuild it from the
   fetched setting. An empty setting, an unparseable one or an unknown
   interface leaves no table; every exception is swallowed. Other interfaces
   keep their tables.
   */
  function UpdateCache<T, V>(s: Store<V>, interfaceId: string, fetched: Option<string>,
                             parse: string -> Option<seq<Descriptor>>,
                             forName: string -> Option<seq<MethodSig<T>>>,
                             decode: (string, T) -> Decoded<V>): (r: Store<V>)
    ensures r - {interfaceId} == s - {interfaceId}
    ensures !HasPayload(fetched) ==> interfaceId !in r
    ensures HasPayload(fetched) && parse(fetched.value).None? ==> interfaceId !in r
    ensures forName(interfaceId).None? ==> interfaceId !in r
    ensures HasPayload(fetched) && parse(fetched.value) == Some([]) ==> interfaceId !in r
  {
    var cleared := Clear(s, interfaceId);
    if !HasPayload(fetched) then cleared
    else
      match parse(fetched.value)
      case None => cleared
      case Some(mocks) =>
        match forName(interfaceId)
        case None => cleared
        case Some(methods) => ApplyBatch(cleared, methods, interfaceId, mocks, decode).store
  }

  /**
   `addMockResult`: the same transition as `parseMockValue` on the resolved
   class, with every exception, an unknown class included, reported as one
   `RpcException` carrying the call's arguments.
   */
  function AddMockResult<T, V>(s: Store<V>, interfaceId: string, methodName: string, alias: string,
                               mockValue: string, open: bool,
                               forName: string -> Option<seq<MethodSig<T>>>,
                               decode: (string, T) -> Decoded<V>): (r: Step<V, RpcException>)
    ensures forName(interfaceId).None? ==>
              r == Step(s, Some(RpcException(interfaceId, methodName, alias, mockValue, ClassNotFound(interfaceId))))
    ensures forName(interfaceId).Some? ==>
              var st := ParseMockValue(s, forName(interfaceId).value, interfaceId, methodName, alias, mockValue, open, decode);
              && r.store == st.store
              && (r.thrown.None? <==> st.thrown.None?)
              && (st.thrown.Some? ==> r.thrown.value.cause == st.thrown.value)
    ensures r.thrown.Some? ==>
              && r.thrown.value.interfaceId == interfaceId
              && r.thrown.value.methodName == methodName
              && r.thrown.value.alias == alias
              && r.thrown.value.mockValue == mockValue
    ensures r.thrown.Some? ==> forall j, key :: Get(r.store, j, key) == Get(s, j, key)
  {
    match forName(interfaceId)
    case None => Step(s, Some(RpcException(interfaceId, methodName, alias, mockValue, ClassNotFound(interfaceId))))
    case Some(methods) =>
      var st := ParseMockValue(s, methods, interfaceId, methodName, alias, mockValue, open, decode);
      match st.thrown
      case None => Step(st.store, None)
      case Some(e) => Step(st.store, Some(RpcException(interfaceId, methodName, alias, mockValue, e)))
  }
}
