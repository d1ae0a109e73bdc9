/**
 * The persistent state of the tracker: the endpoint registry, the hit log
 * and the risk store, with the records each of them holds.
 */
module Store {

  /** Milliseconds in one day (1000 * 60 * 60 * 24). */
  const DAY_MS: int := 86_400_000

  datatype Option<T> = None | Some(value: T)

  /** One (path, HTTP verb) pair seen in traffic; `id` is the registry's auto-increment key. */
  datatype Endpoint = Endpoint(id: int, path: string, verb: string, deprecated: bool, createdAt: int)

  /** One observed request against an endpoint; `timestamp` is the capture time in ms. */
  datatype Hit = Hit(endpointId: int, timestamp: int, statusCode: int, responseTime: int, authPresent: bool)

  datatype RiskKind = DeadApi | UnsecuredApi | UnstableApi | LowUsageApi | ZombieApi

  datatype Severity = Low | Medium | High | Critical

  /**
   * The figures a risk's explanation reports: days since the last hit
   * (None standing for "never"), the error and call counts of the window,
   * or the call count of the window.
   */
  datatype Finding =
    | NotCalledSince(daysSinceLastHit: Option<int>)
    | UnauthenticatedAccess
    | ErrorRate(errors: nat, calls: nat)
    | FewCalls(calls: nat)
    | StillCalled(calls: nat)

  datatype Risk = Risk(endpointId: int, kind: RiskKind, severity: Severity, finding: Finding)

  /** Two risks occupy the same slot when they concern the same endpoint and kind. */
  predicate SameSlot(a: Risk, b: Risk) {
    a.endpointId == b.endpointId && a.kind == b.kind
  }

  /** The dedup query of the risk store: is there a risk for (endpointId, kind)? */
  predicate HasSlot(risks: seq<Risk>, endpointId: int, kind: RiskKind) {
    exists k :: 0 <= k < |risks| && risks[k].endpointId == endpointId && risks[k].kind == kind
  }

  /** The risk store's invariant: at most one risk per (endpointId, kind). */
  predicate NoDuplicateRisks(risks: seq<Risk>) {
    forall i, j :: 0 <= i < j < |risks| ==> !SameSlot(risks[i], risks[j])
  }

  function Ids(endpoints: seq<Endpoint>): set<int> {
    set e | e in endpoints :: e.id
  }

  predicate DistinctIds(endpoints: seq<Endpoint>) {
    forall i, j :: 0 <= i < j < |endpoints| ==> endpoints[i].id != endpoints[j].id
  }

  /** The registry's uniqueness constraint on (path, method). */
  predicate UniqueRoutes(endpoints: seq<Endpoint>) {
    forall i, j :: 0 <= i < j < |endpoints| ==>
      endpoints[i].path != endpoints[j].path || endpoints[i].verb != endpoints[j].verb
  }

  /**
   * The registry's invariant: ids are issued in increasing order starting
   * at 1 and below the next key, (path, verb) is unique, and every hit
   * references a registered endpoint.
   */
  predicate RegistryValid(endpoints: seq<Endpoint>, hits: seq<Hit>, nextEndpointId: int) {
    && 1 <= nextEndpointId
    && (forall i :: 0 <= i < |endpoints| ==> 1 <= endpoints[i].id < nextEndpointId)
    && (forall i, j :: 0 <= i < j < |endpoints| ==> endpoints[i].id < endpoints[j].id)
    && UniqueRoutes(endpoints)
    && (forall k :: 0 <= k < |hits| ==> hits[k].endpointId in Ids(endpoints))
  }

  /**
   * The database shared by traffic capture (writes endpoints and hits) and
   * the analysis engine (reads them, rewrites risks).
   */
  class Database {
    var endpoints: seq<Endpoint>
    var hits: seq<Hit>
    var risks: seq<Risk>
    /** The next value of the endpoint table's auto-increment key. */
    var nextEndpointId: int

    /** The registry invariant holds and the risk store holds no duplicate slot. */
    ghost predicate Valid()
      reads this
    {
      RegistryValid(endpoints, hits, nextEndpointId) && NoDuplicateRisks(risks)
    }

    constructor ()
      ensures Valid()
      ensures endpoints == [] && hits == [] && risks == [] && nextEndpointId == 1
    {
      endpoints, hits, risks := [], [], [];
      nextEndpointId := 1;
    }
  }
}
