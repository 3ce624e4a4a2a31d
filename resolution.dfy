/**
 * The decision procedure every service method follows, stated once and
 * independently of the methods: a request passes a fixed sequence of guards,
 * and the first guard that fails decides how it ends.
 */
module Resolution {
  import opened Wrappers
  import opened Responses

  /** The guards, each named after what it requires. */
  datatype Guard = ModuleResolved | TypeSupported | FetchSucceeded | MetaPresent | RowPresent

  /** The terminal states of one request. */
  datatype Phase = ModuleMissing | TypeUnsupported | StoreFaulted | NotReady | RowMissing | Ready

  /** How a request ends when `g` is the first guard it fails. */
  function FailurePhase(g: Guard): Phase {
    match g
    case ModuleResolved => ModuleMissing
    case TypeSupported => TypeUnsupported
    case FetchSucceeded => StoreFaulted
    case MetaPresent => NotReady
    case RowPresent => RowMissing
  }

  /** The phase a request ends in when it checks the guards of `order` in turn and those in `failing` do not hold. */
  function Decide(order: seq<Guard>, failing: set<Guard>): Phase {
    if order == [] then Ready
    else if order[0] in failing then FailurePhase(order[0])
    else Decide(order[1..], failing)
  }

  /** The position of the first guard of `order` in `failing`, or `|order|` if none is. */
  function FirstFailing(order: seq<Guard>, failing: set<Guard>): (k: nat)
    ensures k <= |order|
    ensures forall j :: 0 <= j < k ==> order[j] !in failing
    ensures k < |order| ==> order[k] in failing
    ensures Decide(order, failing) == if k == |order| then Ready else FailurePhase(order[k])
  {
    if order == [] then 0
    else if order[0] in failing then 0
    else 1 + FirstFailing(order[1..], failing)
  }

  /** A failing guard dominates every guard checked after it. */
  lemma EarlierGuardDominates(order: seq<Guard>, failing: set<Guard>, i: nat, j: nat)
    requires i < j < |order| && order[i] in failing
    ensures FirstFailing(order, failing) <= i < j
  {
  }

  /** A request passes every guard exactly when it ends ready. */
  lemma ReadyIffNoGuardFails(order: seq<Guard>, failing: set<Guard>)
    ensures Decide(order, failing) == Ready <==> forall i :: 0 <= i < |order| ==> order[i] !in failing
  {
  }

  /** One guard checked ahead of the others: it either decides the request or hands over to the rest. */
  lemma DecideFirst(g: Guard, rest: seq<Guard>, failing: set<Guard>)
    ensures Decide([g] + rest, failing) == if g in failing then FailurePhase(g) else Decide(rest, failing)
  {
  }

  /** The set of guards that fail, given whether each one holds. */
  function Failing(moduleResolved: bool, typeSupported: bool, fetchSucceeded: bool, metaPresent: bool, rowPresent: bool): set<Guard> {
    (if moduleResolved then {} else {ModuleResolved})
    + (if typeSupported then {} else {TypeSupported})
    + (if fetchSucceeded then {} else {FetchSucceeded})
    + (if metaPresent then {} else {MetaPresent})
    + (if rowPresent then {} else {RowPresent})
  }

  /** The phase a service outcome is in. */
  function PhaseOf<D>(r: Outcome<D>): Phase {
    match r
    case Unsupported => TypeUnsupported
    case Raised(e) =>
      if e.StoreFailure? then StoreFaulted
      else if e.OperatorNotFound? then RowMissing
      else ModuleMissing
    case Returned(env) => if env.meta.None? then NotReady else Ready
  }
}
