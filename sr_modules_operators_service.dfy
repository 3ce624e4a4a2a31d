/**
 * SRModulesOperatorsService: the operator views, grouped for all modules,
 * for one module, and one operator of one module.
 */
module SRModulesOperatorsService {
  import opened Wrappers
  import opened Entities
  import opened Responses
  import opened Resolution

  /** The store's answer to `getOperatorsWithMeta()`. */
  datatype OperatorsWithMeta = OperatorsWithMeta(operators: seq<RegistryOperator>, meta: Option<Meta>)

  /** The store's answer to `getOperatorByIndex(operatorIndex)`. */
  datatype OperatorWithMeta = OperatorWithMeta(operator: Option<RegistryOperator>, meta: Option<Meta>)

  /** `{ operators, module }`. */
  datatype OperatorsOfModule = OperatorsOfModule(operators: seq<CuratedOperator>, srModule: SRModule)

  /** `{ operator, module }`. */
  datatype OperatorOfModule = OperatorOfModule(operator: CuratedOperator, srModule: SRModule)

  /** `getAll` has no module guard: it reads the store and looks at meta. */
  const GET_ALL_ORDER: seq<Guard> := [FetchSucceeded, MetaPresent]

  /** `getByModule` resolves the module and dispatches on its type before it reads the store. */
  const BY_MODULE_ORDER: seq<Guard> := [ModuleResolved, TypeSupported, FetchSucceeded, MetaPresent]

  /** `getModuleOperator` checks the operator row only once meta is known to be present. */
  const MODULE_OPERATOR_ORDER: seq<Guard> := [ModuleResolved, TypeSupported, FetchSucceeded, MetaPresent, RowPresent]

  function OperatorsFailing(moduleLookup: Option<ModuleDescriptor>, fetched: Result<OperatorsWithMeta, StoreFault>): set<Guard> {
    Failing(moduleLookup.Some?, moduleLookup.Some? && IsGroupedOnchainV1(moduleLookup.value),
            fetched.Success?, fetched.Success? && fetched.value.meta.Some?, true)
  }

  function OperatorFailing(moduleLookup: Option<ModuleDescriptor>, fetched: Result<OperatorWithMeta, StoreFault>): set<Guard> {
    Failing(moduleLookup.Some?, moduleLookup.Some? && IsGroupedOnchainV1(moduleLookup.value),
            fetched.Success?, fetched.Success? && fetched.value.meta.Some?,
            fetched.Success? && fetched.value.operator.Some?)
  }

  /**
   * The list envelope of `getAll`: without meta `{data: [], meta: null}`;
   * with meta a single group holding every operator in order, an SRModule
   * stamped with that meta's keysOpIndex, and the snapshot of that meta.
   */
  predicate IsGroupedList(env: Envelope<seq<OperatorsOfModule>>, curatedModule: Option<ModuleDescriptor>, fetched: OperatorsWithMeta) {
    match fetched.meta
    case None => env == Envelope([], None)
    case Some(meta) =>
      && |env.data| == 1
      && CuratesOperators(env.data[0].operators, fetched.operators)
      && env.data[0].srModule == SRModule(meta.keysOpIndex, curatedModule)
      && env.meta.Some?
      && env.meta.value.elBlockSnapshot.MetaOf() == meta
  }

  /**
   * The envelope of `getByModule` for a served module: without meta
   * `{data: null, meta: null}`; with meta the operators in order with the
   * module stamped by that meta's keysOpIndex, and the snapshot of that meta.
   */
  predicate IsModuleOperators(env: Envelope<Option<OperatorsOfModule>>, moduleLookup: ModuleDescriptor, fetched: OperatorsWithMeta) {
    match fetched.meta
    case None => env == Envelope(None, None)
    case Some(meta) =>
      && env.data.Some?
      && CuratesOperators(env.data.value.operators, fetched.operators)
      && env.data.value.srModule == SRModule(meta.keysOpIndex, Some(moduleLookup))
      && env.meta.Some?
      && env.meta.value.elBlockSnapshot.MetaOf() == meta
  }

  /**
   * The envelope of `getModuleOperator` for a served module that did not
   * raise: without meta `{data: null, meta: null}`; with meta the copy of the
   * fetched operator, the module stamped by that meta's keysOpIndex, and the
   * snapshot of that meta.
   */
  predicate IsModuleOperator(env: Envelope<Option<OperatorOfModule>>, moduleLookup: ModuleDescriptor, fetched: OperatorWithMeta) {
    match fetched.meta
    case None => env == Envelope(None, None)
    case Some(meta) =>
      && fetched.operator.Some?
      && env.data.Some?
      && env.data.value.operator.RegistryOperatorOf() == fetched.operator.value
      && env.data.value.srModule == SRModule(meta.keysOpIndex, Some(moduleLookup))
      && env.meta.Some?
      && env.meta.value.elBlockSnapshot.MetaOf() == meta
  }

  /**
   * `getAll()`; `curatedModule` is what `getSRModuleByType(GROUPED_ONCHAIN_V1_TYPE, chainId)`
   * returns, which this method never checks. It never raises NotFound and never falls through.
   */
  function GetAll(fetched: Result<OperatorsWithMeta, StoreFault>, curatedModule: Option<ModuleDescriptor>): (r: Outcome<seq<OperatorsOfModule>>)
    ensures !r.Unsupported?
    ensures r.Raised? ==> fetched.Failure? && r.error == StoreFailure(fetched.error)
    ensures r.Returned? ==> fetched.Success? && IsGroupedList(r.envelope, curatedModule, fetched.value)
  {
    if fetched.Failure? then Raised(StoreFailure(fetched.error))
    else
      match fetched.value.meta
      case None => Returned(Envelope([], None))
      case Some(meta) =>
        var group := OperatorsOfModule(CurateOperators(fetched.value.operators), SRModule(meta.keysOpIndex, curatedModule));
        Returned(Envelope([group], Some(ReadyMeta(meta))))
  }

  /** `getByModule(moduleId)`; `moduleLookup` is what `getSRModule(moduleId, chainId)` returns. */
  function GetByModule(moduleId: ModuleId, moduleLookup: Option<ModuleDescriptor>, fetched: Result<OperatorsWithMeta, StoreFault>): (r: Outcome<Option<OperatorsOfModule>>)
    ensures r.Raised? && r.error.IsNotFound() ==> moduleLookup.None? && r.error == ModuleNotSupported(moduleId)
    ensures r.Raised? && !r.error.IsNotFound() ==> fetched == Failure(r.error.fault)
    ensures r.Unsupported? ==> moduleLookup.Some? && !IsGroupedOnchainV1(moduleLookup.value)
    ensures r.Returned? ==>
      moduleLookup.Some? && IsGroupedOnchainV1(moduleLookup.value) && fetched.Success?
      && IsModuleOperators(r.envelope, moduleLookup.value, fetched.value)
  {
    if moduleLookup.None? then Raised(ModuleNotSupported(moduleId))
    else if !IsGroupedOnchainV1(moduleLookup.value) then Unsupported
    else if fetched.Failure? then Raised(StoreFailure(fetched.error))
    else
      match fetched.value.meta
      case None => Returned(Envelope(None, None))
      case Some(meta) =>
        var data := OperatorsOfModule(CurateOperators(fetched.value.operators), SRModule(meta.keysOpIndex, moduleLookup));
        Returned(Envelope(Some(data), Some(ReadyMeta(meta))))
  }

  /** `getModuleOperator(moduleId, operatorIndex)`; `fetched` is the store's answer to `getOperatorByIndex(operatorIndex)`. */
  function GetModuleOperator(moduleId: ModuleId, operatorIndex: int, moduleLookup: Option<ModuleDescriptor>, fetched: Result<OperatorWithMeta, StoreFault>): (r: Outcome<Option<OperatorOfModule>>)
    ensures r.Raised? && r.error.IsNotFound() ==>
      || (moduleLookup.None? && r.error == ModuleNotSupported(moduleId))
      || (fetched.Success? && fetched.value.meta.Some? && fetched.value.operator.None?
          && r.error == OperatorNotFound(operatorIndex, moduleId))
    ensures r.Raised? && !r.error.IsNotFound() ==> fetched == Failure(r.error.fault)
    ensures r.Unsupported? ==> moduleLookup.Some? && !IsGroupedOnchainV1(moduleLookup.value)
    ensures r.Returned? ==>
      moduleLookup.Some? && IsGroupedOnchainV1(moduleLookup.value) && fetched.Success?
      && IsModuleOperator(r.envelope, moduleLookup.value, fetched.value)
  {
    if moduleLookup.None? then Raised(ModuleNotSupported(moduleId))
    else if !IsGroupedOnchainV1(moduleLookup.value) then Unsupported
    else if fetched.Failure? then Raised(StoreFailure(fetched.error))
    else
      match fetched.value.meta
      case None => Returned(Envelope(None, None))
      case Some(meta) =>
        match fetched.value.operator
        case None => Raised(OperatorNotFound(operatorIndex, moduleId))
        case Some(op) =>
          var data := OperatorOfModule(NewCuratedOperator(op), SRModule(meta.keysOpIndex, moduleLookup));
          Returned(Envelope(Some(data), Some(ReadyMeta(meta))))
  }

  lemma {:induction false} GetAllFollowsGuardOrder(fetched: Result<OperatorsWithMeta, StoreFault>, curatedModule: Option<ModuleDescriptor>)
    ensures PhaseOf(GetAll(fetched, curatedModule)) == Decide(GET_ALL_ORDER, OperatorsFailing(curatedModule, fetched))
  {
    var failing := OperatorsFailing(curatedModule, fetched);
    DecideFirst(MetaPresent, [], failing);
    DecideFirst(FetchSucceeded, [MetaPresent], failing);
  }

  lemma {:induction false} GetByModuleFollowsGuardOrder(moduleId: ModuleId, moduleLookup: Option<ModuleDescriptor>, fetched: Result<OperatorsWithMeta, StoreFault>)
    ensures PhaseOf(GetByModule(moduleId, moduleLookup, fetched)) == Decide(BY_MODULE_ORDER, OperatorsFailing(moduleLookup, fetched))
  {
    var failing := OperatorsFailing(moduleLookup, fetched);
    DecideFirst(MetaPresent, [], failing);
    DecideFirst(FetchSucceeded, [MetaPresent], failing);
    DecideFirst(TypeSupported, [FetchSucceeded, MetaPresent], failing);
    DecideFirst(ModuleResolved, [TypeSupported, FetchSucceeded, MetaPresent], failing);
  }

  lemma {:induction false} GetModuleOperatorFollowsGuardOrder(moduleId: ModuleId, operatorIndex: int, moduleLookup: Option<ModuleDescriptor>, fetched: Result<OperatorWithMeta, StoreFault>)
    ensures PhaseOf(GetModuleOperator(moduleId, operatorIndex, moduleLookup, fetched)) == Decide(MODULE_OPERATOR_ORDER, OperatorFailing(moduleLookup, fetched))
  {
    var failing := OperatorFailing(moduleLookup, fetched);
    DecideFirst(RowPresent, [], failing);
    DecideFirst(MetaPresent, [RowPresent], failing);
    DecideFirst(FetchSucceeded, [MetaPresent, RowPresent], failing);
    DecideFirst(TypeSupported, [FetchSucceeded, MetaPresent, RowPresent], failing);
    DecideFirst(ModuleResolved, [TypeSupported, FetchSucceeded, MetaPresent, RowPresent], failing);
  }

  /** An unknown moduleId raises NotFound before any store read, so whatever the store would answer. */
  lemma UnknownModuleIsNotFound(moduleId: ModuleId, operatorIndex: int,
                                operators: Result<OperatorsWithMeta, StoreFault>, operator: Result<OperatorWithMeta, StoreFault>)
    ensures GetByModule(moduleId, None, operators) == Raised(ModuleNotSupported(moduleId))
    ensures GetModuleOperator(moduleId, operatorIndex, None, operator) == Raised(ModuleNotSupported(moduleId))
  {
  }

  /** A module of another type gets no envelope at all, whatever the store would answer. */
  lemma OtherModuleTypeFallsThrough(moduleId: ModuleId, operatorIndex: int, m: ModuleDescriptor,
                                    operators: Result<OperatorsWithMeta, StoreFault>, operator: Result<OperatorWithMeta, StoreFault>)
    requires !IsGroupedOnchainV1(m)
    ensures GetByModule(moduleId, Some(m), operators) == Unsupported
    ensures GetModuleOperator(moduleId, operatorIndex, Some(m), operator) == Unsupported
  {
  }

  /**
   * For one operator, a missing meta wins over a missing row, and a missing
   * row under a present meta is OperatorNotFound.
   */
  lemma MetaBeforeOperatorRow(moduleId: ModuleId, operatorIndex: int, m: ModuleDescriptor, operator: Option<RegistryOperator>, meta: Meta)
    requires IsGroupedOnchainV1(m)
    ensures GetModuleOperator(moduleId, operatorIndex, Some(m), Success(OperatorWithMeta(operator, None))) == Returned(Envelope(None, None))
    ensures GetModuleOperator(moduleId, operatorIndex, Some(m), Success(OperatorWithMeta(None, Some(meta))))
            == Raised(OperatorNotFound(operatorIndex, moduleId))
  {
  }

  /** Every ready operator response stamps its module with the keysOpIndex of the snapshot it carries. */
  lemma SnapshotMatchesModule(moduleId: ModuleId, operatorIndex: int, moduleLookup: Option<ModuleDescriptor>,
                              operators: Result<OperatorsWithMeta, StoreFault>, operator: Result<OperatorWithMeta, StoreFault>)
    ensures var r := GetAll(operators, moduleLookup);
      r.Returned? && r.envelope.meta.Some? ==>
        forall g :: g in r.envelope.data ==> g.srModule.keysOpIndex == r.envelope.meta.value.elBlockSnapshot.keysOpIndex
    ensures var r := GetByModule(moduleId, moduleLookup, operators);
      r.Returned? && r.envelope.meta.Some? ==>
        r.envelope.data.Some? && r.envelope.data.value.srModule.keysOpIndex == r.envelope.meta.value.elBlockSnapshot.keysOpIndex
    ensures var r := GetModuleOperator(moduleId, operatorIndex, moduleLookup, operator);
      r.Returned? && r.envelope.meta.Some? ==>
        r.envelope.data.Some? && r.envelope.data.value.srModule.keysOpIndex == r.envelope.meta.value.elBlockSnapshot.keysOpIndex
  {
  }

  /** Not ready is an empty list for the grouped view and null data for the per-module views. */
  lemma NotReadyShapes(moduleId: ModuleId, m: ModuleDescriptor, curatedModule: Option<ModuleDescriptor>, ops: seq<RegistryOperator>)
    requires IsGroupedOnchainV1(m)
    ensures GetAll(Success(OperatorsWithMeta(ops, None)), curatedModule) == Returned(Envelope([], None))
    ensures GetByModule(moduleId, Some(m), Success(OperatorsWithMeta(ops, None))) == Returned(Envelope(None, None))
  {
  }
}
