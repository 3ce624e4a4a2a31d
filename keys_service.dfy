/**
 * KeysService: the keys-only view, unfiltered, by one public key and by a
 * list of public keys. Each method resolves the module of the one supported
 * type, reads keys and meta from the store, and builds a key list.
 */
module KeysService {
  import opened Wrappers
  import opened Entities
  import opened Collections
  import opened Responses
  import opened Resolution

  /** The store's answer to a key query: the matching keys and the meta row, if any. */
  datatype KeysWithMeta = KeysWithMeta(keys: seq<RegistryKey>, meta: Option<Meta>)

  type KeyListOutcome = Outcome<seq<KeyWithModuleAddress>>

  /** `get` resolves the module before it reads the store. */
  const GET_ORDER: seq<Guard> := [ModuleResolved, FetchSucceeded, MetaPresent]

  /** `getByPubkey` and `getByPubkeys` read the store first and resolve the module afterwards. */
  const BY_PUBKEY_ORDER: seq<Guard> := [FetchSucceeded, ModuleResolved, MetaPresent]

  /** The guards a key request fails, given the module lookup and the store's answer. */
  function KeysFailing(registryModule: Option<ModuleDescriptor>, fetched: Result<KeysWithMeta, StoreFault>): set<Guard> {
    Failing(registryModule.Some?, true, fetched.Success?, fetched.Success? && fetched.value.meta.Some?, true)
  }

  /**
   * What a key list response must be for a resolved module and a store answer:
   * without meta, `{data: [], meta: null}` whatever keys came back; with meta,
   * one entry per fetched key in the same order, each the base key plus the
   * module's contract address, and the snapshot of that same meta.
   */
  predicate IsKeyList(env: Envelope<seq<KeyWithModuleAddress>>, registryModule: ModuleDescriptor, fetched: KeysWithMeta) {
    match fetched.meta
    case None => env == Envelope([], None)
    case Some(meta) =>
      && |env.data| == |fetched.keys|
      && (forall i :: 0 <= i < |env.data| ==>
            env.data[i].KeyOf() == BaseKey(fetched.keys[i])
            && env.data[i].moduleAddress == registryModule.stakingModuleAddress)
      && env.meta.Some?
      && env.meta.value.elBlockSnapshot.MetaOf() == meta
  }

  /** The part the three methods share once module and store answer are known. */
  function AssembleKeyList(registryModule: ModuleDescriptor, fetched: KeysWithMeta): (env: Envelope<seq<KeyWithModuleAddress>>)
    ensures IsKeyList(env, registryModule, fetched)
  {
    if fetched.meta.None? then Envelope([], None)
    else
      var address := registryModule.stakingModuleAddress;
      Envelope(MapSeq(k => NewKeyWithModuleAddress(k, address), fetched.keys), Some(ReadyMeta(fetched.meta.value)))
  }

  /** `KeysService.get(filters)`; `fetched` is the store's answer to `getKeysWithMeta(filters)`. */
  function Get(registryModule: Option<ModuleDescriptor>, fetched: Result<KeysWithMeta, StoreFault>): (r: KeyListOutcome)
    ensures r.Raised? && r.error.IsNotFound() ==> r.error == ModuleTypeNotFound(GROUPED_ONCHAIN_V1_TYPE)
    ensures r.Raised? && !r.error.IsNotFound() ==> fetched == Failure(r.error.fault)
    ensures r.Returned? ==> registryModule.Some? && fetched.Success? && IsKeyList(r.envelope, registryModule.value, fetched.value)
  {
    if registryModule.None? then Raised(ModuleTypeNotFound(GROUPED_ONCHAIN_V1_TYPE))
    else if fetched.Failure? then Raised(StoreFailure(fetched.error))
    else Returned(AssembleKeyList(registryModule.value, fetched.value))
  }

  /** `KeysService.getByPubkey(pubkey)`; `fetched` is the store's answer to `getKeyWithMetaByPubkey(pubkey)`. */
  function GetByPubkey(fetched: Result<KeysWithMeta, StoreFault>, registryModule: Option<ModuleDescriptor>): (r: KeyListOutcome)
    ensures r.Raised? && r.error.IsNotFound() ==> r.error == ModuleTypeNotFound(GROUPED_ONCHAIN_V1_TYPE)
    ensures r.Raised? && !r.error.IsNotFound() ==> fetched == Failure(r.error.fault)
    ensures r.Returned? ==> registryModule.Some? && fetched.Success? && IsKeyList(r.envelope, registryModule.value, fetched.value)
  {
    if fetched.Failure? then Raised(StoreFailure(fetched.error))
    else if registryModule.None? then Raised(ModuleTypeNotFound(GROUPED_ONCHAIN_V1_TYPE))
    else Returned(AssembleKeyList(registryModule.value, fetched.value))
  }

  /** `KeysService.getByPubkeys(pubkeys)`; `fetched` is the store's answer to `getKeysWithMetaByPubkeys(pubkeys)`. */
  function GetByPubkeys(fetched: Result<KeysWithMeta, StoreFault>, registryModule: Option<ModuleDescriptor>): (r: KeyListOutcome)
    ensures r.Raised? && r.error.IsNotFound() ==> r.error == ModuleTypeNotFound(GROUPED_ONCHAIN_V1_TYPE)
    ensures r.Raised? && !r.error.IsNotFound() ==> fetched == Failure(r.error.fault)
    ensures r.Returned? ==> registryModule.Some? && fetched.Success? && IsKeyList(r.envelope, registryModule.value, fetched.value)
  {
    if fetched.Failure? then Raised(StoreFailure(fetched.error))
    else if registryModule.None? then Raised(ModuleTypeNotFound(GROUPED_ONCHAIN_V1_TYPE))
    else Returned(AssembleKeyList(registryModule.value, fetched.value))
  }

  /** `get` ends as the guard order module, fetch, meta dictates. */
  lemma {:induction false} GetFollowsGuardOrder(registryModule: Option<ModuleDescriptor>, fetched: Result<KeysWithMeta, StoreFault>)
    ensures PhaseOf(Get(registryModule, fetched)) == Decide(GET_ORDER, KeysFailing(registryModule, fetched))
  {
    var failing := KeysFailing(registryModule, fetched);
    DecideFirst(MetaPresent, [], failing);
    DecideFirst(FetchSucceeded, [MetaPresent], failing);
    DecideFirst(ModuleResolved, [FetchSucceeded, MetaPresent], failing);
  }

  /** `getByPubkey` reads the store first, then resolves the module, then looks at meta. */
  lemma {:induction false} GetByPubkeyFollowsGuardOrder(fetched: Result<KeysWithMeta, StoreFault>, registryModule: Option<ModuleDescriptor>)
    ensures PhaseOf(GetByPubkey(fetched, registryModule)) == Decide(BY_PUBKEY_ORDER, KeysFailing(registryModule, fetched))
  {
    var failing := KeysFailing(registryModule, fetched);
    DecideFirst(MetaPresent, [], failing);
    DecideFirst(ModuleResolved, [MetaPresent], failing);
    DecideFirst(FetchSucceeded, [ModuleResolved, MetaPresent], failing);
  }

  /** `getByPubkeys` follows the same order as `getByPubkey`. */
  lemma {:induction false} GetByPubkeysFollowsGuardOrder(fetched: Result<KeysWithMeta, StoreFault>, registryModule: Option<ModuleDescriptor>)
    ensures PhaseOf(GetByPubkeys(fetched, registryModule)) == Decide(BY_PUBKEY_ORDER, KeysFailing(registryModule, fetched))
  {
    var failing := KeysFailing(registryModule, fetched);
    DecideFirst(MetaPresent, [], failing);
    DecideFirst(ModuleResolved, [MetaPresent], failing);
    DecideFirst(FetchSucceeded, [ModuleResolved, MetaPresent], failing);
  }

  /**
   * Without a module of the supported type, every key view raises NotFound
   * whatever the store holds, meta or not; the by-pubkey views only let a
   * failed store read through ahead of it.
   */
  lemma ModuleMissingIsNotFound(fetched: Result<KeysWithMeta, StoreFault>)
    ensures Get(None, fetched) == Raised(ModuleTypeNotFound(GROUPED_ONCHAIN_V1_TYPE))
    ensures fetched.Success? ==> GetByPubkey(fetched, None) == Raised(ModuleTypeNotFound(GROUPED_ONCHAIN_V1_TYPE))
    ensures fetched.Success? ==> GetByPubkeys(fetched, None) == Raised(ModuleTypeNotFound(GROUPED_ONCHAIN_V1_TYPE))
  {
  }

  /** The order of the store read and the module check is observable when both fail. */
  lemma StoreFaultPrecedence(fault: StoreFault)
    ensures Get(None, Failure(fault)) == Raised(ModuleTypeNotFound(GROUPED_ONCHAIN_V1_TYPE))
    ensures GetByPubkey(Failure(fault), None) == Raised(StoreFailure(fault))
  {
  }

  /** The store answering is the one case where the three views coincide with one another. */
  lemma ViewsAgreeOnAnsweredReads(registryModule: Option<ModuleDescriptor>, fetched: Result<KeysWithMeta, StoreFault>)
    ensures GetByPubkey(fetched, registryModule) == GetByPubkeys(fetched, registryModule)
    ensures fetched.Success? ==> Get(registryModule, fetched) == GetByPubkey(fetched, registryModule)
  {
  }

  /** With the module resolved and no meta row, the response is `{data: [], meta: null}` even when keys came back. */
  lemma NotReadyDropsKeys(m: ModuleDescriptor, keys: seq<RegistryKey>)
    ensures Get(Some(m), Success(KeysWithMeta(keys, None))) == Returned(Envelope([], None))
    ensures GetByPubkey(Success(KeysWithMeta(keys, None)), Some(m)) == Returned(Envelope([], None))
    ensures GetByPubkeys(Success(KeysWithMeta(keys, None)), Some(m)) == Returned(Envelope([], None))
  {
  }

  /** No keys under a present meta is a ready, empty list with a snapshot, not the not-ready envelope. */
  lemma EmptyReadyIsNotNotReady(m: ModuleDescriptor, meta: Meta)
    ensures GetByPubkeys(Success(KeysWithMeta([], Some(meta))), Some(m)) == Returned(Envelope([], Some(ReadyMeta(meta))))
    ensures GetByPubkeys(Success(KeysWithMeta([], Some(meta))), Some(m)) != Returned(Envelope([], None))
  {
  }

  /** A ready key list gives back the base copies of the fetched keys, in order, once the module address is stripped. */
  lemma ReadyKeysRoundTrip(registryModule: Option<ModuleDescriptor>, fetched: Result<KeysWithMeta, StoreFault>)
    requires Get(registryModule, fetched).Returned? && fetched.Success? && fetched.value.meta.Some?
    ensures MapSeq((k: KeyWithModuleAddress) => k.KeyOf(), Get(registryModule, fetched).envelope.data) == MapSeq(BaseKey, fetched.value.keys)
  {
  }

  /** The worked example: meta {7, 100, "0xabc"} and two keys of operator 0. */
  lemma AllKeysScenario(m: ModuleDescriptor)
    ensures
      var meta := Meta(7, 100, "0xabc");
      var key0 := RegistryKey(0, 0, "0x01", "0xs0", true);
      var key1 := RegistryKey(1, 0, "0x02", "0xs1", false);
      var a := m.stakingModuleAddress;
      && Get(Some(m), Success(KeysWithMeta([key0, key1], Some(meta))))
         == Returned(Envelope([KeyWithModuleAddress(0, "0x01", "0xs0", true, a), KeyWithModuleAddress(0, "0x02", "0xs1", false, a)],
                              Some(ResponseMeta(ELBlockSnapshot(100, "0xabc", 7)))))
      && Get(Some(m), Success(KeysWithMeta([key0, key1], None))) == Returned(Envelope([], None))
  {
    var key0 := RegistryKey(0, 0, "0x01", "0xs0", true);
    var key1 := RegistryKey(1, 0, "0x02", "0xs1", false);
    var a := m.stakingModuleAddress;
    var data := Get(Some(m), Success(KeysWithMeta([key0, key1], Some(Meta(7, 100, "0xabc"))))).envelope.data;
    assert data == [KeyWithModuleAddress(0, "0x01", "0xs0", true, a), KeyWithModuleAddress(0, "0x02", "0xs1", false, a)] by {
      assert data[0].KeyOf() == BaseKey(key0) && data[1].KeyOf() == BaseKey(key1);
    }
  }
}
