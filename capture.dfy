/**
 * Traffic capture: the per-request logging that registers (path, verb)
 * pairs in the endpoint registry and appends one hit per request.
 */
module Capture {
  import opened Store

  /** The metadata recorded for one request once its response is sent. */
  datatype ApiCall = ApiCall(path: string, verb: string, statusCode: int, responseTime: int, authPresent: bool)

  /**
   * The first store operation of a capture that throws, if any. Every later
   * operation is skipped and the error is swallowed.
   */
  datatype StoreFault = NoFault | LookupFails | EndpointInsertFails | HitInsertFails

  /** The part of the database a capture reads and writes. */
  datatype Registry = Registry(endpoints: seq<Endpoint>, hits: seq<Hit>, nextEndpointId: int)

  function RegistryOf(db: Database): Registry
    reads db
  {
    Registry(db.endpoints, db.hits, db.nextEndpointId)
  }

  predicate ValidRegistry(reg: Registry) {
    RegistryValid(reg.endpoints, reg.hits, reg.nextEndpointId)
  }

  /** Whether the Authorization header counts as present: it is sent and not empty. */
  function AuthPresent(authorization: Option<string>): (present: bool)
    ensures present <==> authorization.Some? && authorization.value != ""
  {
    match authorization
    case None => false
    case Some(value) => |value| > 0
  }

  predicate StartsWith(s: string, prefix: string) {
    |prefix| <= |s| && s[..|prefix|] == prefix
  }

  /** The health check and the tracker's own analytics routes are never logged. */
  predicate IsExcluded(path: string) {
    path == "/health" || StartsWith(path, "/api/analytics")
  }

  predicate IsRoute(e: Endpoint, path: string, verb: string) {
    e.path == path && e.verb == verb
  }

  /** The unique-key lookup of the registry on (path, verb). */
  function FindEndpoint(endpoints: seq<Endpoint>, path: string, verb: string): (found: Option<Endpoint>)
    ensures found.Some? ==> found.value in endpoints && IsRoute(found.value, path, verb)
    ensures found.None? <==> forall k :: 0 <= k < |endpoints| ==> !IsRoute(endpoints[k], path, verb)
  {
    if endpoints == [] then None
    else if IsRoute(endpoints[0], path, verb) then Some(endpoints[0])
    else FindEndpoint(endpoints[1..], path, verb)
  }

  function HitOf(endpointId: int, call: ApiCall, now: int): Hit {
    Hit(endpointId, now, call.statusCode, call.responseTime, call.authPresent)
  }

  /**
   * The registry after logging `call` at time `now`, when `fault` names the
   * first store operation that throws. A new endpoint gets the next key,
   * is not deprecated and is created at `now`.
   */
  function Logged(reg: Registry, call: ApiCall, now: int, fault: StoreFault): (after: Registry)
    ensures reg.endpoints <= after.endpoints && |after.endpoints| <= |reg.endpoints| + 1
    ensures reg.hits <= after.hits && |after.hits| <= |reg.hits| + 1
    ensures |after.hits| == |reg.hits| + 1 ==> after.hits[|reg.hits|].timestamp == now
  {
    if IsExcluded(call.path) || fault == LookupFails then reg
    else
      match FindEndpoint(reg.endpoints, call.path, call.verb)
      case Some(e) =>
        if fault == HitInsertFails then reg
        else reg.(hits := reg.hits + [HitOf(e.id, call, now)])
      case None =>
        if fault == EndpointInsertFails then reg
        else
          var created := Endpoint(reg.nextEndpointId, call.path, call.verb, false, now);
          var registered := reg.(endpoints := reg.endpoints + [created], nextEndpointId := reg.nextEndpointId + 1);
          if fault == HitInsertFails then registered
          else registered.(hits := registered.hits + [HitOf(created.id, call, now)])
  }

  /** Logs one call: find or create the endpoint, then append the hit. */
  method LogApiHit(db: Database, call: ApiCall, now: int, fault: StoreFault)
    requires db.Valid()
    modifies db`endpoints, db`hits, db`nextEndpointId
    ensures RegistryOf(db) == Logged(old(RegistryOf(db)), call, now, fault)
    ensures db.risks == old(db.risks)
    ensures db.Valid()
  {
    LoggedKeepsRegistryValid(RegistryOf(db), call, now, fault);
    if IsExcluded(call.path) {
      return;
    }
    if fault == LookupFails {
      return;
    }
    var endpoint := FindEndpoint(db.endpoints, call.path, call.verb);
    if endpoint.None? {
      if fault == EndpointInsertFails {
        return;
      }
      var created := Endpoint(db.nextEndpointId, call.path, call.verb, false, now);
      db.endpoints := db.endpoints + [created];
      db.nextEndpointId := db.nextEndpointId + 1;
      endpoint := Some(created);
    }
    if fault == HitInsertFails {
      return;
    }
    db.hits := db.hits + [HitOf(endpoint.value.id, call, now)];
  }

  /** Logging keeps the registry invariant, whatever fails. */
  lemma LoggedKeepsRegistryValid(reg: Registry, call: ApiCall, now: int, fault: StoreFault)
    requires ValidRegistry(reg)
    ensures ValidRegistry(Logged(reg, call, now, fault))
  {
    if !IsExcluded(call.path) && fault != LookupFails {
      match FindEndpoint(reg.endpoints, call.path, call.verb)
      case Some(e) =>
        if fault != HitInsertFails {
          var hits := reg.hits + [HitOf(e.id, call, now)];
          forall k | 0 <= k < |hits|
            ensures hits[k].endpointId in Ids(reg.endpoints)
          {
            if k < |reg.hits| {
              assert hits[k] == reg.hits[k];
            }
          }
        }
      case None =>
        if fault != EndpointInsertFails {
          var created := Endpoint(reg.nextEndpointId, call.path, call.verb, false, now);
          var endpoints := reg.endpoints + [created];
          assert UniqueRoutes(endpoints) by {
            forall i, j | 0 <= i < j < |endpoints|
              ensures endpoints[i].path != endpoints[j].path || endpoints[i].verb != endpoints[j].verb
            {
              if j == |reg.endpoints| {
                assert !IsRoute(reg.endpoints[i], call.path, call.verb);
              } else {
                assert endpoints[i] == reg.endpoints[i] && endpoints[j] == reg.endpoints[j];
              }
            }
          }
          assert Ids(endpoints) == Ids(reg.endpoints) + {created.id};
          var hits := reg.hits + [HitOf(created.id, call, now)];
          forall k | 0 <= k < |hits|
            ensures hits[k].endpointId in Ids(endpoints)
          {
            if k < |reg.hits| {
              assert hits[k] == reg.hits[k];
            }
          }
        }
    }
  }

  /** The health check and the analytics routes leave the registry untouched. */
  lemma ExcludedCallChangesNothing(reg: Registry, call: ApiCall, now: int, fault: StoreFault)
    requires IsExcluded(call.path)
    ensures Logged(reg, call, now, fault) == reg
  {
  }

  /** Which paths are excluded: exact "/health", any "/api/analytics" prefix. */
  lemma ExclusionExamples()
    ensures IsExcluded("/health")
    ensures IsExcluded("/api/analytics")
    ensures IsExcluded("/api/analytics/risks")
    ensures !IsExcluded("/healthz")
    ensures !IsExcluded("/api/users")
    ensures !IsExcluded("/api/analytic")
  {
  }

  /**
   * A successful capture of a logged path: an endpoint with the call's
   * (path, verb) exists afterwards, the existing one is reused (otherwise
   * exactly one is added, with the next key), and exactly one hit carrying
   * the call's fields and that endpoint's id is appended.
   */
  lemma SuccessfulCaptureFindsOrCreates(reg: Registry, call: ApiCall, now: int)
    requires ValidRegistry(reg)
    requires !IsExcluded(call.path)
    ensures var after := Logged(reg, call, now, NoFault);
      && (FindEndpoint(reg.endpoints, call.path, call.verb).Some? ==> after.endpoints == reg.endpoints)
      && (FindEndpoint(reg.endpoints, call.path, call.verb).None? ==>
            after.endpoints == reg.endpoints + [Endpoint(reg.nextEndpointId, call.path, call.verb, false, now)])
      && exists e :: e in after.endpoints && IsRoute(e, call.path, call.verb)
            && after.hits == reg.hits + [Hit(e.id, now, call.statusCode, call.responseTime, call.authPresent)]
  {
    var after := Logged(reg, call, now, NoFault);
    match FindEndpoint(reg.endpoints, call.path, call.verb)
    case Some(e) =>
      assert e in after.endpoints;
    case None =>
      var created := Endpoint(reg.nextEndpointId, call.path, call.verb, false, now);
      assert created == after.endpoints[|reg.endpoints|];
  }

  /** After a capture, a (path, verb) pair is registered at most once. */
  lemma AtMostOneEndpointPerRoute(reg: Registry, call: ApiCall, now: int, fault: StoreFault, i: nat, j: nat)
    requires ValidRegistry(reg)
    requires var es := Logged(reg, call, now, fault).endpoints;
      i < |es| && j < |es| && IsRoute(es[i], call.path, call.verb) && IsRoute(es[j], call.path, call.verb)
    ensures i == j
  {
    LoggedKeepsRegistryValid(reg, call, now, fault);
  }

  /**
   * A failing store operation is swallowed and skips the rest of the
   * capture: no hit is added (unless the endpoint insert "fails" for a
   * route that already exists, since that insert is then never issued),
   * and an endpoint is added without a hit only when the hit insert fails
   * after the endpoint was created.
   */
  lemma FailedCaptureIsSwallowed(reg: Registry, call: ApiCall, now: int, fault: StoreFault)
    requires fault != NoFault
    ensures var after := Logged(reg, call, now, fault);
      && (fault == EndpointInsertFails && FindEndpoint(reg.endpoints, call.path, call.verb).Some? ==>
            after == Logged(reg, call, now, NoFault))
      && (fault == EndpointInsertFails && FindEndpoint(reg.endpoints, call.path, call.verb).None? ==>
            after == reg)
      && (fault != EndpointInsertFails ==> after.hits == reg.hits)
      && (after.endpoints == reg.endpoints ||
          (fault == HitInsertFails && FindEndpoint(reg.endpoints, call.path, call.verb).None? &&
           after.endpoints == reg.endpoints + [Endpoint(reg.nextEndpointId, call.path, call.verb, false, now)]))
  {
  }

  /** One captured request: the call, its capture time and the failing store operation. */
  datatype Capture = Capture(call: ApiCall, time: int, fault: StoreFault)

  /** The registry after a sequence of captures applied in order. */
  function LoggedAll(reg: Registry, captures: seq<Capture>): Registry {
    if captures == [] then reg
    else
      var last := captures[|captures| - 1];
      Logged(LoggedAll(reg, captures[..|captures| - 1]), last.call, last.time, last.fault)
  }

  /**
   * After any sequence of captures the registry invariant holds: in
   * particular no (path, verb) pair is registered twice.
   */
  lemma {:induction false} LoggedAllKeepsRegistryValid(reg: Registry, captures: seq<Capture>)
    requires ValidRegistry(reg)
    ensures ValidRegistry(LoggedAll(reg, captures))
    ensures UniqueRoutes(LoggedAll(reg, captures).endpoints)
    decreases |captures|
  {
    if captures != [] {
      var last := captures[|captures| - 1];
      LoggedAllKeepsRegistryValid(reg, captures[..|captures| - 1]);
      LoggedKeepsRegistryValid(LoggedAll(reg, captures[..|captures| - 1]), last.call, last.time, last.fault);
    }
  }

  /** Every capture adds at most one hit, so the hit log grows by at most the number of captures. */
  lemma {:induction false} LoggedAllHitBound(reg: Registry, captures: seq<Capture>)
    ensures |reg.hits| <= |LoggedAll(reg, captures).hits| <= |reg.hits| + |captures|
    ensures reg.hits <= LoggedAll(reg, captures).hits
    decreases |captures|
  {
    if captures != [] {
      LoggedAllHitBound(reg, captures[..|captures| - 1]);
    }
  }
}
