/**
 * The rows the registry store holds, the module descriptors of the module
 * directory, and the response entities the services build from them.
 */
module Entities {
  import opened Wrappers
  import opened Collections

  type ModuleId = string
  type ModuleType = string
  type Address = string

  /** The one module type the services know how to serve. */
  const GROUPED_ONCHAIN_V1_TYPE: ModuleType := "grouped-onchain-v1"

  /** The registry's meta row; its absence means no sync pass has completed. */
  datatype Meta = Meta(keysOpIndex: nat, blockNumber: nat, blockHash: string)

  /** A signing key row of the registry store. */
  datatype RegistryKey = RegistryKey(index: nat, operatorIndex: nat, key: string, depositSignature: string, used: bool)

  /** A node operator row of the registry store. */
  datatype RegistryOperator = RegistryOperator(
    index: nat, active: bool, name: string, rewardAddress: Address,
    totalSigningKeys: nat, usedSigningKeys: nat)

  /** An entry of the module directory for the configured chain. */
  datatype ModuleDescriptor = ModuleDescriptor(
    moduleId: ModuleId, moduleType: ModuleType, chainId: nat,
    stakingModuleAddress: Address, name: string)

  /** The execution-layer block marker attached to every ready response. */
  datatype ELBlockSnapshot = ELBlockSnapshot(blockNumber: nat, blockHash: string, keysOpIndex: nat)
  {
    /** The meta row this snapshot stands for. */
    function MetaOf(): Meta { Meta(keysOpIndex, blockNumber, blockHash) }
  }

  /** `new ELBlockSnapshot(meta)`: the snapshot identifies exactly the meta it was built from. */
  function NewELBlockSnapshot(meta: Meta): (s: ELBlockSnapshot)
    ensures s.MetaOf() == meta
  {
    ELBlockSnapshot(meta.blockNumber, meta.blockHash, meta.keysOpIndex)
  }

  /**
   * `new SRModule(keysOpIndex, module)`. The descriptor is optional because
   * one caller passes a lookup result it never checked.
   */
  datatype SRModule = SRModule(keysOpIndex: nat, descriptor: Option<ModuleDescriptor>)

  /** The base key entity: the fields of a registry key other than its `index`. */
  datatype Key = Key(operatorIndex: nat, key: string, depositSignature: string, used: bool)

  /** The base copy `super(key)` makes of a registry key: everything but the `index`. */
  function BaseKey(k: RegistryKey): Key {
    Key(k.operatorIndex, k.key, k.depositSignature, k.used)
  }

  /** A key of the keys view: the base key plus the address of its module's contract. */
  datatype KeyWithModuleAddress = KeyWithModuleAddress(
    operatorIndex: nat, key: string, depositSignature: string, used: bool,
    moduleAddress: Address)
  {
    function KeyOf(): Key { Key(operatorIndex, key, depositSignature, used) }
  }

  /** `new KeyWithModuleAddress(key, address)`: the base copy of the key, with the address added. */
  function NewKeyWithModuleAddress(k: RegistryKey, address: Address): (r: KeyWithModuleAddress)
    ensures r.KeyOf() == BaseKey(k) && r.moduleAddress == address
  {
    KeyWithModuleAddress(k.operatorIndex, k.key, k.depositSignature, k.used, address)
  }

  /** A key of the composite view: the base key fields plus the key's index in its contract. */
  datatype CuratedKey = CuratedKey(index: nat, operatorIndex: nat, key: string, depositSignature: string, used: bool)
  {
    function KeyOf(): Key { Key(operatorIndex, key, depositSignature, used) }
    function RegistryKeyOf(): RegistryKey { RegistryKey(index, operatorIndex, key, depositSignature, used) }
  }

  /**
   * `new CuratedKey(key)`: the base copy of the key, then its `index`, so
   * that nothing of the registry key is lost.
   */
  function NewCuratedKey(k: RegistryKey): (r: CuratedKey)
    ensures r.KeyOf() == BaseKey(k) && r.index == k.index
    ensures r.RegistryKeyOf() == k
  {
    CuratedKey(k.index, k.operatorIndex, k.key, k.depositSignature, k.used)
  }

  /** An operator as the operator views return it. */
  datatype CuratedOperator = CuratedOperator(
    index: nat, active: bool, name: string, rewardAddress: Address,
    totalSigningKeys: nat, usedSigningKeys: nat)
  {
    function RegistryOperatorOf(): RegistryOperator {
      RegistryOperator(index, active, name, rewardAddress, totalSigningKeys, usedSigningKeys)
    }
  }

  /** `new CuratedOperator(op)`: a copy of the operator row. */
  function NewCuratedOperator(op: RegistryOperator): (r: CuratedOperator)
    ensures r.RegistryOperatorOf() == op
  {
    CuratedOperator(op.index, op.active, op.name, op.rewardAddress, op.totalSigningKeys, op.usedSigningKeys)
  }

  /** `module.type == GROUPED_ONCHAIN_V1_TYPE`: the only module type the services dispatch to. */
  predicate IsGroupedOnchainV1(m: ModuleDescriptor) {
    m.moduleType == GROUPED_ONCHAIN_V1_TYPE
  }

  /** `curated` holds one copy of each operator of `ops`, in the same order. */
  predicate CuratesOperators(curated: seq<CuratedOperator>, ops: seq<RegistryOperator>) {
    |curated| == |ops| && forall i :: 0 <= i < |ops| ==> curated[i].RegistryOperatorOf() == ops[i]
  }

  /** `curated` holds one copy of each key of `keys`, in the same order. */
  predicate CuratesKeys(curated: seq<CuratedKey>, keys: seq<RegistryKey>) {
    |curated| == |keys| && forall i :: 0 <= i < |keys| ==> curated[i].RegistryKeyOf() == keys[i]
  }

  /** Each fetched operator converted to its response copy, in the fetched order. */
  function CurateOperators(ops: seq<RegistryOperator>): (r: seq<CuratedOperator>)
    ensures CuratesOperators(r, ops)
  {
    MapSeq(NewCuratedOperator, ops)
  }

  /** Each fetched key converted to a curated key, in the fetched order. */
  function CurateKeys(keys: seq<RegistryKey>): (r: seq<CuratedKey>)
    ensures CuratesKeys(r, keys)
  {
    MapSeq(NewCuratedKey, keys)
  }

  /** Curation loses nothing: projecting the curated operators back gives the fetched operators. */
  lemma CurateOperatorsRoundTrip(ops: seq<RegistryOperator>)
    ensures MapSeq((c: CuratedOperator) => c.RegistryOperatorOf(), CurateOperators(ops)) == ops
  {
  }

  /** Curation loses nothing: projecting the curated keys back gives the fetched keys. */
  lemma CurateKeysRoundTrip(keys: seq<RegistryKey>)
    ensures MapSeq((c: CuratedKey) => c.RegistryKeyOf(), CurateKeys(keys)) == keys
  {
  }
}
