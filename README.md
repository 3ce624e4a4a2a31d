# Request resolution of the lido-keys-api HTTP services

This project models how three service classes of the keys API answer a request.
The API serves read-only views over a synchronized copy of an on-chain
validator registry: signing keys, node operators, and one meta row
(`keysOpIndex`, `blockNumber`, `blockHash`). The three classes are:

- `KeysService`: the key list, unfiltered, by one public key, or by a list of public keys;
- `SRModulesOperatorsService`: operators grouped for all modules, operators of one module, and one operator of one module;
- `SRModulesOperatorsKeysService`: the keys, operators and module of one module in one composite response.

Every method is modelled as a pure function. Its inputs are the module
directory's answer (`Option<ModuleDescriptor>`) and the registry store's answer
(`Result<…, StoreFault>`: either the rows with an optional meta row, or a
rejected read). Its result is an `Outcome`, which has three cases:

- `Returned(envelope)`: the call resolves to an envelope;
- `Raised(error)`: the call throws `NotFoundException`, or passes on the store's rejection;
- `Unsupported`: the method falls off its end and resolves to `undefined`. This is what happens to a module whose type is not `grouped-onchain-v1`.

Module `Resolution` gives an independent reference for every method. A request
checks a fixed sequence of guards: module resolved, type supported, store read
succeeded, meta present, operator row present. The first guard that fails
decides the phase the request ends in. `Decide(order, failing)` computes that
phase. Each service has a `…FollowsGuardOrder` lemma proving that the phase of
the method's outcome is `Decide` applied to that method's own guard order. So
each lemma states which check dominates which. The orders differ between
methods in two places:

- `KeysService.get` resolves the module before it reads the store;
- `getByPubkey` and `getByPubkeys` read the store first.

With store rejections in the model, this difference can be observed: a failed
read beats NotFound only in the by-pubkey views (`KeysService.StoreFaultPrecedence`).

Every service function's own contract states the envelope it produces:

- with no meta row, it returns the not-ready envelope. That is `{data: [], meta: null}` for list views and `{data: null, meta: null}` for composite views;
- with meta present, it returns one converted entity per fetched row, in the same order;
- every key carries the resolved module's `stakingModuleAddress`;
- the `SRModule` carries the meta's `keysOpIndex`;
- the `elBlockSnapshot` identifies exactly the meta that gated the response (`ELBlockSnapshot.MetaOf() == meta`).

Files: `wrappers.dfy` (Option, Result), `collections.dfy` (`MapSeq`, the model of
`Array.prototype.map`), `entities.dfy` (rows, module descriptors, response
entities and their constructors), `responses.dfy` (envelopes, errors, outcomes),
`resolution.dfy` (guards and phases), and one file per service.

Three behaviours of the code are kept as they are:

- When meta is absent, the services themselves drop whatever rows the store returned (src/http/keys/keys.service.ts:29-34; `KeysService.NotReadyDropsKeys`, `SRModulesOperatorsKeysService.NotReadyIgnoresRows`).
- A module of another type falls off the end of the method, which resolves to `undefined`. This is kept as `Outcome.Unsupported`, not as an error.
- Every key carries the address of the one module resolved by type (src/http/keys/keys.service.ts:36-38).

## Model

| member | source | states |
|---|---|---|
| Collections.MapSeq | src/http/keys/keys.service.ts:36-38 | `map` keeps the length and puts the converted i-th source element at position i |
| Entities.NewELBlockSnapshot | src/http/keys/keys.service.ts:39 | the snapshot built from a meta row identifies exactly that meta row |
| Entities.NewKeyWithModuleAddress | src/http/keys/keys.service.ts:36-38 | the response key is the base copy of the registry key (every field but `index`) and carries the given module address |
| Entities.NewCuratedKey | src/http/common/entities/curated-key.ts:5-9 | the curated key is the base copy of the key plus its `index`, so it gives back exactly the registry key |
| Entities.NewCuratedOperator | src/http/sr-modules-operators/sr-modules-operators.service.ts:100 | the curated operator is a copy of the operator row |
| Entities.CurateOperators | src/http/sr-modules-operators/sr-modules-operators.service.ts:27 | one curated copy per operator, in the same order |
| Entities.CurateKeys | src/http/sr-modules-operators-keys/sr-modules-operators-keys.service.ts:35 | one curated copy per key, in the same order |
| Entities.CurateOperatorsRoundTrip | src/http/sr-modules-operators/sr-modules-operators.service.ts:27 | projecting curated operators back gives exactly the fetched operators |
| Entities.CurateKeysRoundTrip | src/http/sr-modules-operators-keys/sr-modules-operators-keys.service.ts:35 | projecting curated keys back gives exactly the fetched keys |
| Responses.ReadyMeta | src/http/keys/keys.service.ts:39-47 | the `meta` of a ready response holds the snapshot of the meta row it was built from |
| Resolution.FirstFailing | src/http/sr-modules-operators/sr-modules-operators.service.ts:72-108 | the position of the first failing guard: every earlier guard holds and the one there fails, and `Decide` is that guard's phase (or Ready if none fails) |
| Resolution.EarlierGuardDominates | src/http/sr-modules-operators/sr-modules-operators.service.ts:72-108 | a failing guard decides the request ahead of every guard checked after it |
| Resolution.ReadyIffNoGuardFails | src/http/sr-modules-operators/sr-modules-operators.service.ts:72-108 | a request ends ready exactly when none of its guards fails |
| Resolution.DecideFirst | src/http/sr-modules-operators/sr-modules-operators.service.ts:72-108 | the first guard checked either decides the request or hands it on to the remaining guards |
| KeysService.AssembleKeyList | src/http/keys/keys.service.ts:29-48 | no meta: `{data: [], meta: null}` whatever keys came back; meta: one entry per key in order, each the base copy of the key plus the module address, and the snapshot of that meta |
| KeysService.Get | src/http/keys/keys.service.ts:17-49 | NotFound is always the module-by-type error; a store failure is passed through unchanged; a returned envelope has a resolved module, an answered read, and is the key list of that module and answer |
| KeysService.GetByPubkey | src/http/keys/keys.service.ts:51-80 | the same contract as `get`, for the store's answer to one public key |
| KeysService.GetByPubkeys | src/http/keys/keys.service.ts:82-113 | the same contract as `get`, for the store's answer to a list of public keys |
| KeysService.GetFollowsGuardOrder | src/http/keys/keys.service.ts:21-34 | `get` ends as the order module, store read, meta decides |
| KeysService.GetByPubkeyFollowsGuardOrder | src/http/keys/keys.service.ts:52-66 | `getByPubkey` ends as the order store read, module, meta decides |
| KeysService.GetByPubkeysFollowsGuardOrder | src/http/keys/keys.service.ts:85-99 | `getByPubkeys` ends as the order store read, module, meta decides |
| KeysService.ModuleMissingIsNotFound | src/http/keys/keys.service.ts:21-25 | with no module of the supported type, `get` raises NotFound whatever the store answers; the by-pubkey views do so for every answered read, with or without meta |
| KeysService.StoreFaultPrecedence | src/http/keys/keys.service.ts:51-59 | when both the module and the read fail, `get` raises NotFound and `getByPubkey` raises the store's failure |
| KeysService.ViewsAgreeOnAnsweredReads | src/http/keys/keys.service.ts:17-113 | the two by-pubkey views always agree, and `get` agrees with them whenever the store answers |
| KeysService.NotReadyDropsKeys | src/http/keys/keys.service.ts:29-34 | with the module resolved and no meta, all three views return exactly `{data: [], meta: null}` even if keys came back |
| KeysService.EmptyReadyIsNotNotReady | src/http/keys/keys.service.ts:101-112 | no keys under a present meta gives `data: []` with a snapshot, which differs from the not-ready envelope |
| KeysService.ReadyKeysRoundTrip | src/http/keys/keys.service.ts:36-38 | stripping the module address from a ready key list gives back the base copies of the fetched keys, in order |
| KeysService.AllKeysScenario | src/http/keys/keys.service.ts:17-48 | with meta {7, 100, "0xabc"} and two keys, `get` returns both keys with the module address and the snapshot {100, "0xabc", 7}; with no meta it returns `{data: [], meta: null}` |
| SRModulesOperatorsService.GetAll | src/http/sr-modules-operators/sr-modules-operators.service.ts:17-38 | never NotFound, never falls through; no meta: `{data: [], meta: null}`; meta: one group holding every operator in order, an SRModule with the meta's keysOpIndex, and that meta's snapshot |
| SRModulesOperatorsService.GetByModule | src/http/sr-modules-operators/sr-modules-operators.service.ts:40-70 | NotFound only for an unknown module id; falls through only for another module type; no meta: `{data: null, meta: null}`; meta: the operators in order, the module with the meta's keysOpIndex, and that meta's snapshot |
| SRModulesOperatorsService.GetModuleOperator | src/http/sr-modules-operators/sr-modules-operators.service.ts:72-109 | NotFound is either the unknown module id or a missing operator under a present meta; a returned envelope without meta is `{data: null, meta: null}`, and with meta holds the copy of the fetched operator, the module with the meta's keysOpIndex, and that meta's snapshot |
| SRModulesOperatorsService.GetAllFollowsGuardOrder | src/http/sr-modules-operators/sr-modules-operators.service.ts:17-25 | `getAll` has no module guard and ends as the order store read, meta decides |
| SRModulesOperatorsService.GetByModuleFollowsGuardOrder | src/http/sr-modules-operators/sr-modules-operators.service.ts:43-59 | `getByModule` ends as the order module, type, store read, meta decides |
| SRModulesOperatorsService.GetModuleOperatorFollowsGuardOrder | src/http/sr-modules-operators/sr-modules-operators.service.ts:75-98 | `getModuleOperator` ends as the order module, type, store read, meta, operator row decides |
| SRModulesOperatorsService.UnknownModuleIsNotFound | src/http/sr-modules-operators/sr-modules-operators.service.ts:43-47 | an unknown module id raises NotFound in both per-module views whatever the store would answer |
| SRModulesOperatorsService.OtherModuleTypeFallsThrough | src/http/sr-modules-operators/sr-modules-operators.service.ts:51-70 | a module of another type gets no envelope from either per-module view, whatever the store would answer |
| SRModulesOperatorsService.MetaBeforeOperatorRow | src/http/sr-modules-operators/sr-modules-operators.service.ts:86-98 | a missing meta gives `{data: null, meta: null}` whether or not the operator exists; a present meta with no operator raises OperatorNotFound |
| SRModulesOperatorsService.SnapshotMatchesModule | src/http/sr-modules-operators/sr-modules-operators.service.ts:100-107 | in every ready operator response the module's keysOpIndex equals the snapshot's keysOpIndex |
| SRModulesOperatorsService.NotReadyShapes | src/http/sr-modules-operators/sr-modules-operators.service.ts:54-59 | not ready is `data: []` for the grouped view and `data: null` for the per-module view, whatever operators came back |
| SRModulesOperatorsKeysService.Get | src/http/sr-modules-operators-keys/sr-modules-operators-keys.service.ts:14-51 | NotFound only for an unknown module id; falls through only for another module type; no meta: `{data: null, meta: null}`; meta: all keys and all operators in order, the module with the meta's keysOpIndex, and that meta's snapshot |
| SRModulesOperatorsKeysService.GetFollowsGuardOrder | src/http/sr-modules-operators-keys/sr-modules-operators-keys.service.ts:17-33 | the composite view ends as the order module, type, store read, meta decides |
| SRModulesOperatorsKeysService.UnresolvedOrUnsupportedModule | src/http/sr-modules-operators-keys/sr-modules-operators-keys.service.ts:17-25 | an unknown module id raises NotFound whatever the store holds; another module type gets no envelope |
| SRModulesOperatorsKeysService.NeverPartial | src/http/sr-modules-operators-keys/sr-modules-operators-keys.service.ts:28-49 | a returned composite has data exactly when it has a snapshot, and then the module and the snapshot carry the same keysOpIndex |
| SRModulesOperatorsKeysService.NotReadyIgnoresRows | src/http/sr-modules-operators-keys/sr-modules-operators-keys.service.ts:28-33 | with no meta the composite is `{data: null, meta: null}` whatever keys and operators came back |

## Left out

- src/mikro-orm.config.ts: environment, file-system and database configuration (dotenv, migration discovery, the password file, `process.exit`). None of it decides a response.
- src/common/execution-provider/execution-provider.service.ts: a wrapper over network calls to a JSON-RPC provider and a chain-name table from a library outside this repository.
- The module directory (`getSRModule`, `getSRModuleByType`) and the configured chain id are not part of this model. Their answer is an input, `Option<ModuleDescriptor>`.
- The registry store (`getKeysWithMeta`, `getKeyWithMetaByPubkey`, `getKeysWithMetaByPubkeys`, `getOperatorsWithMeta`, `getOperatorByIndex`, `getData`) is not part of this model. Its answer is an input, and the query filters, public keys and operator index it receives are not modelled. In particular, nothing relates the returned operator's index to the requested `operatorIndex`.
- Entities.NewKeyWithModuleAddress: the constructor of `KeyWithModuleAddress` is not part of this model. It is assumed to make the same base copy as `super(key)` in src/http/common/entities/curated-key.ts:6-8, which does not carry `index` (that class has to set `index` itself), and to add the module address. So a key of the keys view is not modelled with an `index`.
- The entity classes `ELBlockSnapshot`, `SRModule`, `CuratedOperator` and `KeyWithModuleAddress` are not part of this model; their constructors are modelled as record copies whose fields come from the registry's data model. The composite view imports `RegistryKey as CuratedKey` from a file that is not part of this model, so it is modelled with the `CuratedKey` of `curated-key.ts`.
- `SRModule` holds an optional descriptor. `getAll` passes the result of `getSRModuleByType` to it without checking it, and what the constructor does with an absent descriptor is not visible. The model records it as `None` instead.
- The literal value `"grouped-onchain-v1"` of `GROUPED_ONCHAIN_V1_TYPE` comes from configuration that is not part of this model. Only the equality test on it matters.
- Logging, NestJS dependency injection, decorators and Swagger metadata are left out. So are `async`/`await` (a rejected await is a `StoreFailure` outcome) and the mapping of `NotFoundException` to HTTP status 404.
- Idempotence of repeated identical queries holds by construction: every method is a function of its inputs. No separate lemma states it.
- Whether a sync pass can interleave between store reads is a concurrency concern of the storage layer. It is not stated. In these files each method makes exactly one store read.
