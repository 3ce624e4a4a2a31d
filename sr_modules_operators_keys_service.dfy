/**
 * SRModulesOperatorsKeysService: keys, operators and module of one module in
 * one composite response, gated by the single meta row read with them.
 */
module SRModulesOperatorsKeysService {
  import opened Wrappers
  import opened Entities
  import opened Responses
  import opened Resolution

  /** The store's answer to `getData(filters)`: keys, operators and meta from one call. */
  datatype KeysOperatorsWithMeta = KeysOperatorsWithMeta(keys: seq<RegistryKey>, operators: seq<RegistryOperator>, meta: Option<Meta>)

  /** `{ operators, keys, module }`. */
  datatype OperatorsKeysOfModule = OperatorsKeysOfModule(operators: seq<CuratedOperator>, keys: seq<CuratedKey>, srModule: SRModule)

  /** `get` resolves the module and dispatches on its type before it reads the store. */
  const GET_ORDER: seq<Guard> := [ModuleResolved, TypeSupported, FetchSucceeded, MetaPresent]

  function CompositeFailing(moduleLookup: Option<ModuleDescriptor>, fetched: Result<KeysOperatorsWithMeta, StoreFault>): set<Guard> {
    Failing(moduleLookup.Some?, moduleLookup.Some? && IsGroupedOnchainV1(moduleLookup.value),
            fetched.Success?, fetched.Success? && fetched.value.meta.Some?, true)
  }

  /**
   * The composite envelope for a served module: without meta
   * `{data: null, meta: null}`; with meta every key and every operator in
   * order, the module stamped with that meta's keysOpIndex, and the
   * snapshot of that same meta.
   */
  predicate IsComposite(env: Envelope<Option<OperatorsKeysOfModule>>, moduleLookup: ModuleDescriptor, fetched: KeysOperatorsWithMeta) {
    match fetched.meta
    case None => env == Envelope(None, None)
    case Some(meta) =>
      && env.data.Some?
      && CuratesKeys(env.data.value.keys, fetched.keys)
      && CuratesOperators(env.data.value.operators, fetched.operators)
      && env.data.value.srModule == SRModule(meta.keysOpIndex, Some(moduleLookup))
      && env.meta.Some?
      && env.meta.value.elBlockSnapshot.MetaOf() == meta
  }

  /** `get(moduleId, filters)`; `moduleLookup` is `getSRModule(moduleId, chainId)`, `fetched` the answer to `getData(filters)`. */
  function Get(moduleId: ModuleId, moduleLookup: Option<ModuleDescriptor>, fetched: Result<KeysOperatorsWithMeta, StoreFault>): (r: Outcome<Option<OperatorsKeysOfModule>>)
    ensures r.Raised? && r.error.IsNotFound() ==> moduleLookup.None? && r.error == ModuleNotSupported(moduleId)
    ensures r.Raised? && !r.error.IsNotFound() ==> fetched == Failure(r.error.fault)
    ensures r.Unsupported? ==> moduleLookup.Some? && !IsGroupedOnchainV1(moduleLookup.value)
    ensures r.Returned? ==>
      moduleLookup.Some? && IsGroupedOnchainV1(moduleLookup.value) && fetched.Success?
      && IsComposite(r.envelope, moduleLookup.value, fetched.value)
  {
    if moduleLookup.None? then Raised(ModuleNotSupported(moduleId))
    else if !IsGroupedOnchainV1(moduleLookup.value) then Unsupported
    else if fetched.Failure? then Raised(StoreFailure(fetched.error))
    else
      match fetched.value.meta
      case None => Returned(Envelope(None, None))
      case Some(meta) =>
        var data := OperatorsKeysOfModule(CurateOperators(fetched.value.operators), CurateKeys(fetched.value.keys),
                                          SRModule(meta.keysOpIndex, moduleLookup));
        Returned(Envelope(Some(data), Some(ReadyMeta(meta))))
  }

  lemma {:induction false} GetFollowsGuardOrder(moduleId: ModuleId, moduleLookup: Option<ModuleDescriptor>, fetched: Result<KeysOperatorsWithMeta, StoreFault>)
    ensures PhaseOf(Get(moduleId, moduleLookup, fetched)) == Decide(GET_ORDER, CompositeFailing(moduleLookup, fetched))
  {
    var failing := CompositeFailing(moduleLookup, fetched);
    DecideFirst(MetaPresent, [], failing);
    DecideFirst(FetchSucceeded, [MetaPresent], failing);
    DecideFirst(TypeSupported, [FetchSucceeded, MetaPresent], failing);
    DecideFirst(ModuleResolved, [TypeSupported, FetchSucceeded, MetaPresent], failing);
  }

  /** An unknown moduleId raises NotFound whatever the store holds; another module type gets no envelope. */
  lemma UnresolvedOrUnsupportedModule(moduleId: ModuleId, m: ModuleDescriptor, fetched: Result<KeysOperatorsWithMeta, StoreFault>)
    ensures Get(moduleId, None, fetched) == Raised(ModuleNotSupported(moduleId))
    ensures !IsGroupedOnchainV1(m) ==> Get(moduleId, Some(m), fetched) == Unsupported
  {
  }

  /**
   * A composite response is never partial: its data is present exactly when
   * its snapshot is, and then the module and the snapshot carry the same
   * keysOpIndex.
   */
  lemma NeverPartial(moduleId: ModuleId, moduleLookup: Option<ModuleDescriptor>, fetched: Result<KeysOperatorsWithMeta, StoreFault>)
    ensures var r := Get(moduleId, moduleLookup, fetched);
      r.Returned? ==>
        && (r.envelope.data.Some? <==> r.envelope.meta.Some?)
        && (r.envelope.meta.Some? ==> r.envelope.data.value.srModule.keysOpIndex == r.envelope.meta.value.elBlockSnapshot.keysOpIndex)
  {
  }

  /** With the module served and no meta row, `{data: null, meta: null}` whatever keys and operators came back. */
  lemma NotReadyIgnoresRows(moduleId: ModuleId, m: ModuleDescriptor, keys: seq<RegistryKey>, ops: seq<RegistryOperator>)
    requires IsGroupedOnchainV1(m)
    ensures Get(moduleId, Some(m), Success(KeysOperatorsWithMeta(keys, ops, None))) == Returned(Envelope(None, None))
  {
  }
}
