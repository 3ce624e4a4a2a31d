/** The envelopes the services return and the exceptions they raise. */
module Responses {
  import opened Wrappers
  import opened Entities

  /** The `meta` part of a ready response. */
  datatype ResponseMeta = ResponseMeta(elBlockSnapshot: ELBlockSnapshot)

  /** `{ data, meta }`; `meta` is `null` exactly when the store has no meta row. */
  datatype Envelope<D> = Envelope(data: D, meta: Option<ResponseMeta>)

  /** The reason an awaited store read rejected. */
  type StoreFault = string

  /** What a service method throws. */
  datatype ServiceError =
    | ModuleTypeNotFound(moduleType: ModuleType)         // "Module with type … not found"
    | ModuleNotSupported(moduleId: ModuleId)             // "Module with moduleId … is not supported"
    | OperatorNotFound(operatorIndex: int, moduleId: ModuleId)
    | StoreFailure(fault: StoreFault)                    // a rejected store read, passed through
  {
    /** Raised as a `NotFoundException`. */
    predicate IsNotFound() { !StoreFailure? }
  }

  /**
   * How a call to a service method ends: it resolves to an envelope, it
   * throws, or it falls off the end of the method and resolves to `undefined`.
   */
  datatype Outcome<D> = Returned(envelope: Envelope<D>) | Raised(error: ServiceError) | Unsupported

  /** The `meta` of a ready response built from the store's meta row. */
  function ReadyMeta(meta: Meta): (m: ResponseMeta)
    ensures m.elBlockSnapshot.MetaOf() == meta
  {
    ResponseMeta(NewELBlockSnapshot(meta))
  }
}
