# Mock-result store of the JSF RPC client, in Dafny

This project models `MockDataFactroy`, the registry of canned ("mock") return
values that the JSF RPC client consults before a remote call. The store maps
an interface id to a table. Each table maps the key `method#alias` to a
decoded mock value. Three operations change the store:

- `parseMockValue` adds one mock (`open`) or removes one.
- `updateCache` is the bulk reconcile. It drops the interface's table and
  rebuilds it from the fetched configuration setting.
- `addMockResult` is the administrative entry. It performs the single
  add/remove and reports every failure as an `RpcException`.

The model is functional. The store is an immutable
`map<string, map<string, V>>`. Every transition is a pure function.
`ParseMockValue`, `ApplyBatch` and `AddMockResult` return a `Step`: the store
afterwards and the exception thrown, if any. A step that throws can still have
changed the store, as in Java. `UpdateCache` never throws, so it returns only
the store. The foreign
pieces are inputs:

- the class lookup (`ClassLoaderUtils.forName` plus `getMethods()`) is
  `forName: string -> Option<seq<MethodSig<T>>>`;
- the descriptor list parser (`JsonUtils.parseObject` plus field extraction)
  is `parse: string -> Option<seq<Descriptor>>`;
- the type-directed decoder (`JsonUtils.parseObjectByType`) is
  `decode: (string, T) -> Decoded<V>`;
- the configuration fetch (`JSFContext.getInterfaceVal`) is the parameter
  `fetched: Option<string>`.

Files:

- `wrappers.dfy`: `Option` and `Result`.
- `mock_store.dfy`: module `MockStore`. The store, `buildKey`, lookup and the
  map primitives the operations use.
- `mock_updater.dfy`: module `MockUpdater`. Method resolution and the three
  transitions.
- `reconcile_properties.dfy`: module `ReconcileProperties`. A separate
  "last write wins over the successful prefix" definition of what a reconcile
  leaves, and the proofs that the reconcile loop meets it.
- `mock_scenarios.dfy`: module `MockScenarios`. Properties of whole calls, in
  terms of (interface, method, alias) lookups.

Three behaviours of the code that the model keeps as written:

- **Partial batches.** When a descriptor of a reconcile fails, the loop stops
  and the exception is swallowed. The descriptors before it stay applied
  (`MockDataFactroy.java:116-124`). `ReconcileLastWriteWins` states this, and
  `PartialBatchStaysApplied` shows it on a concrete batch.
- **Decoding before the open/close branch.** The payload is decoded against
  the resolved method's return type before `open` is tested
  (`MockDataFactroy.java:138`). So a payload that does not decode also makes
  a remove fail, and the store is left untouched.
- **Null mock values.** With `open` set, a payload that decodes to `null` first
  gets a table created lazily when none exists (`MockDataFactroy.java:140-144`).
  The put into the concurrent map then throws a `NullPointerException`
  (line 145). The empty table stays, although no lookup can tell it from a
  missing one. The model keeps this (`Decoded.NullValue`,
  `Thrown.NullPointer`).

## Model

| member | source | states |
|---|---|---|
| `MockStore.GetResultFromCache` | src/main/java/com/ipd/jsf/gd/filter/mock/MockDataFactroy.java:64-67 | Lookup needs no precondition and never fails. It is absent when the interface has no table or the table lacks the key. When the key is present, it is `Some` of the stored value. |
| `MockStore.BuildKey` | src/main/java/com/ipd/jsf/gd/filter/mock/MockDataFactroy.java:69-71 | The key splits into the method name, one separator `#` at position `|method|`, and the alias. |
| `MockStore.BuildKeyInjective` | src/main/java/com/ipd/jsf/gd/filter/mock/MockDataFactroy.java:69-71 | Two pairs whose method names hold no `#` share a key only if they are the same pair. |
| `MockStore.BuildKeyCollides` | src/main/java/com/ipd/jsf/gd/filter/mock/MockDataFactroy.java:69-71 | Without that restriction keys collide: `("a#b","c")` and `("a","b#c")` are different pairs with the same key. |
| `MockStore.BuildKeyAliasesDistinct` | src/main/java/com/ipd/jsf/gd/filter/mock/MockDataFactroy.java:69-71 | Two different aliases of one method never share a key. |
| `MockStore.Clear` | src/main/java/com/ipd/jsf/gd/filter/mock/MockDataFactroy.java:83-86 | Dropping a table removes the interface and every lookup under it. Every other interface keeps its table. |
| `MockStore.EnsureTable` | src/main/java/com/ipd/jsf/gd/filter/mock/MockDataFactroy.java:140-144 | Lazy creation leaves a table present. An existing table is kept unchanged, a missing one becomes empty, and no lookup changes. |
| `MockStore.Put` | src/main/java/com/ipd/jsf/gd/filter/mock/MockDataFactroy.java:145 | The key yields the new value afterwards. Every other key and every other interface is unchanged. |
| `MockStore.Remove` | src/main/java/com/ipd/jsf/gd/filter/mock/MockDataFactroy.java:149-152 | The key is absent afterwards. No table is created or dropped, and every other key and interface is unchanged. |
| `MockUpdater.FirstMatch` | src/main/java/com/ipd/jsf/gd/filter/mock/MockDataFactroy.java:130-136 | Resolution picks the first method in enumeration order whose name equals the requested name exactly. It is absent if and only if no method has that name. |
| `MockUpdater.MaterializeResolvesFirstMatch` | src/main/java/com/ipd/jsf/gd/filter/mock/MockDataFactroy.java:130-138 | If no method has the requested name, the result is `NoSuchMethod`. If method `i` is the first with that name, the payload is decoded against method `i`'s return type. A malformed payload gives `DecodeError`; any other decode result, `null` included, is returned. |
| `MockUpdater.ParseMockValue` | src/main/java/com/ipd/jsf/gd/filter/mock/MockDataFactroy.java:128-157 | Not found: throws `NoSuchMethod` and the store is unchanged. A decode failure, with either flag: throws and the store is unchanged. Open with a value: the key yields it and a table exists. Open with `null`: throws, and at most an empty table appears. Close: the key is absent and table presence is unchanged. Other keys and interfaces are never changed. |
| `MockUpdater.ApplyBatch` | src/main/java/com/ipd/jsf/gd/filter/mock/MockDataFactroy.java:113-124 | The descriptor loop changes no interface except the reconciled one. It never drops a table that exists. |
| `MockUpdater.UpdateCache` | src/main/java/com/ipd/jsf/gd/filter/mock/MockDataFactroy.java:79-126 | Reconcile never throws and leaves other interfaces' tables unchanged. With an empty setting, an unparseable setting, an empty descriptor list or an unknown class, the interface has no table afterwards. |
| `MockUpdater.AddMockResult` | src/main/java/com/ipd/jsf/gd/filter/mock/MockDataFactroy.java:173-182 | Unknown class: an `RpcException` and the store is unchanged. Otherwise it is the `parseMockValue` transition, and any exception becomes an `RpcException` carrying interface, method, alias and payload, with the original as its cause. On failure no lookup changes. |
| `ReconcileProperties.Writes` | src/main/java/com/ipd/jsf/gd/filter/mock/MockDataFactroy.java:116-121 | The writes of a batch are those of its longest prefix of descriptors that each resolve and decode to a value, in order. The descriptor right after the prefix, if any, fails. |
| `ReconcileProperties.LastWriteIsLatest` | src/main/java/com/ipd/jsf/gd/filter/mock/MockDataFactroy.java:145 | Under the reference definition, a key yields the value of the write to it that no later write overrides, which is how repeated puts to one key behave. |
| `ReconcileProperties.LastWriteUnwritten` | src/main/java/com/ipd/jsf/gd/filter/mock/MockDataFactroy.java:145 | Under the reference definition, a key that no write touches keeps its previous value. |
| `ReconcileProperties.ApplyBatchLastWriteWins` | src/main/java/com/ipd/jsf/gd/filter/mock/MockDataFactroy.java:113-124 | After the loop, every key holds the last write to it among the successful prefix. A key the prefix never writes keeps its earlier value. |
| `ReconcileProperties.ApplyBatchOutcome` | src/main/java/com/ipd/jsf/gd/filter/mock/MockDataFactroy.java:113-124 | The loop runs to the end if and only if every descriptor applies. A table exists afterwards if and only if one existed before, some write succeeded, or the failing descriptor decoded to `null`. |
| `ReconcileProperties.ReconcileLastWriteWins` | src/main/java/com/ipd/jsf/gd/filter/mock/MockDataFactroy.java:79-126 | For a parseable setting and a known class, every (method, alias) yields the last value written to it by descriptors before the first failing one, and nothing else. The failure is swallowed. |
| `ReconcileProperties.ReconcileTablePresence` | src/main/java/com/ipd/jsf/gd/filter/mock/MockDataFactroy.java:79-126 | After a reconcile of a parseable setting for a known class, the interface has a table if and only if some descriptor applied or the failing one decoded to `null`. |
| `MockScenarios.ParseMockValueKeepsOtherPairs` | src/main/java/com/ipd/jsf/gd/filter/mock/MockDataFactroy.java:139-153 | An add or remove leaves the lookup of every other (method, alias) pair unchanged, given method names without `#`. |
| `MockScenarios.AddMockResultIsolatesInterfaces` | src/main/java/com/ipd/jsf/gd/filter/mock/MockDataFactroy.java:173-182 | An administrative call on one interface changes no lookup of any other interface. |
| `MockScenarios.AddMockResultOpenSucceeds` | src/main/java/com/ipd/jsf/gd/filter/mock/MockDataFactroy.java:173-182 | If the class resolves, the first method with the name exists and the payload decodes to `v`, then an add succeeds and the pair yields `v`. |
| `MockScenarios.AddMockResultFailsIff` | src/main/java/com/ipd/jsf/gd/filter/mock/MockDataFactroy.java:173-182 | The administrative call fails if and only if the class is unknown, the method is not found, the payload does not decode, or an add decodes to `null`. |
| `MockScenarios.AddThenRemove` | src/main/java/com/ipd/jsf/gd/filter/mock/MockDataFactroy.java:173-182 | After a successful add the pair is present. A following remove either succeeds and the pair is absent, or fails and the store is as the add left it. |
| `MockScenarios.AliasesIndependent` | src/main/java/com/ipd/jsf/gd/filter/mock/MockDataFactroy.java:139-147 | Adding a mock under a second alias keeps the value of the first alias of the same method. |
| `MockScenarios.ReconcileWithoutSettingClears` | src/main/java/com/ipd/jsf/gd/filter/mock/MockDataFactroy.java:81-88 | A reconcile with an absent or empty setting leaves every (method, alias) of the interface absent. |
| `MockScenarios.PartialBatchStaysApplied` | src/main/java/com/ipd/jsf/gd/filter/mock/MockDataFactroy.java:113-124 | In a batch whose second descriptor names a missing method, the first descriptor's mock stays in place after the reconcile. |

## Left out

- Concurrency: `ConcurrentHashMap` semantics, atomicity of visible updates, and the race in lazy table creation (`CommonUtils.putToConcurrentMap`). The store is one sequential map.
- Reflection: `ClassLoaderUtils.forName` and the order of `getMethods()` belong to the JVM. The class lookup is the input `forName`, and its method sequence is taken as given.
- JSON: `JsonUtils.parseObject`, `parseObjectByType` and the field reads of fastjson's `JSONObject` are foreign libraries. They are the inputs `parse` and `decode`. Some list elements make the loop throw before `parseMockValue` runs: an element that is not a JSON object (the cast at line 116), a JSON `null` element (an NPE at `mock.get`, line 117), or a field that is not a string (the casts at lines 117-119). Elements 0..k-1 have already been applied by then. Such an element k is represented by `parse` returning the list cut just before it. The loop's exception is swallowed (lines 122-124), so the final store is the same.
- Configuration fetch: `JSFContext.getInterfaceVal` is I/O against the registry. Its result is the parameter `fetched`.
- `StringUtils` is not part of this model. `HasPayload` takes `isNotEmpty` to mean present and of non-zero length.
- Null strings: interface ids, method names, aliases and payloads are non-null strings. Java's `null` arguments (an NPE in `ConcurrentHashMap.get`, or `"null"` text in string concatenation) are not modelled.
- Logging and the text of exception messages. The model keeps the exception kind and the context fields that `RpcException` carries.
