/**
 * The five detection rules of the analysis engine, as predicates over one
 * endpoint, the hit log and the clock `now` (ms), and the candidate risks
 * each rule emits when it walks a list of endpoints.
 */
module Rules {
  import opened Store

  const THIRTY_DAYS_MS: int := 30 * DAY_MS
  const SEVEN_DAYS_MS: int := 7 * DAY_MS
  /** Sub-strings of the lower-cased path that mark an endpoint as sensitive. */
  const SENSITIVE_PATTERNS: seq<string> := ["/admin", "/delete", "/update", "/create"]
  /** An endpoint with fewer calls than this in 30 days (but at least one) is little used. */
  const LOW_USAGE_LIMIT: int := 10

  // ---------------------------------------------------------------------
  // Queries over the hit log (the filters the store is asked for)
  // ---------------------------------------------------------------------

  /** A hit of endpoint `id` inside the window `timestamp >= since`. */
  predicate InWindow(h: Hit, id: int, since: int) {
    h.endpointId == id && h.timestamp >= since
  }

  predicate IsError(h: Hit) {
    h.statusCode >= 400
  }

  /** The first-match query: does endpoint `id` have a hit at or after `since`? */
  predicate HasHitSince(hits: seq<Hit>, id: int, since: int) {
    exists k :: 0 <= k < |hits| && InWindow(hits[k], id, since)
  }

  /** The count query: how many hits of endpoint `id` are at or after `since`? */
  function CountSince(hits: seq<Hit>, id: int, since: int): nat {
    if hits == [] then 0
    else CountSince(hits[1..], id, since) + (if InWindow(hits[0], id, since) then 1 else 0)
  }

  /** How many of those hits failed (status code 400 or above)? */
  function CountErrorsSince(hits: seq<Hit>, id: int, since: int): nat {
    if hits == [] then 0
    else
      CountErrorsSince(hits[1..], id, since)
        + (if InWindow(hits[0], id, since) && IsError(hits[0]) then 1 else 0)
  }

  /** The first-match query on authentication: was endpoint `id` ever called without credentials? */
  predicate HasUnauthenticatedHit(hits: seq<Hit>, id: int) {
    exists k :: 0 <= k < |hits| && hits[k].endpointId == id && !hits[k].authPresent
  }

  /** The timestamp of the most recent hit of endpoint `id`, None if it has none. */
  function LastHitTime(hits: seq<Hit>, id: int): Option<int> {
    if hits == [] then None
    else
      var rest := LastHitTime(hits[1..], id);
      if hits[0].endpointId != id then rest
      else match rest
        case None => Some(hits[0].timestamp)
        case Some(t) => Some(if t < hits[0].timestamp then hits[0].timestamp else t)
  }

  /** The window count is zero exactly when the first-match query finds nothing; it never exceeds the log. */
  lemma {:induction false} CountSinceSpec(hits: seq<Hit>, id: int, since: int)
    ensures CountSince(hits, id, since) <= |hits|
    ensures CountSince(hits, id, since) == 0 <==> !HasHitSince(hits, id, since)
  {
    if hits != [] {
      CountSinceSpec(hits[1..], id, since);
      if HasHitSince(hits[1..], id, since) {
        var k :| 0 <= k < |hits| - 1 && InWindow(hits[1..][k], id, since);
        assert InWindow(hits[k + 1], id, since);
      }
      if HasHitSince(hits, id, since) && !InWindow(hits[0], id, since) {
        var k :| 0 <= k < |hits| && InWindow(hits[k], id, since);
        assert InWindow(hits[1..][k - 1], id, since);
      }
    }
  }

  /** Errors are counted among the window's hits, so there are never more errors than calls. */
  lemma {:induction false} ErrorsAtMostCalls(hits: seq<Hit>, id: int, since: int)
    ensures CountErrorsSince(hits, id, since) <= CountSince(hits, id, since)
  {
    if hits != [] {
      ErrorsAtMostCalls(hits[1..], id, since);
    }
  }

  /** LastHitTime is the largest timestamp among the endpoint's hits, None when there are none. */
  lemma {:induction false} LastHitTimeSpec(hits: seq<Hit>, id: int)
    ensures LastHitTime(hits, id).None? <==> forall k :: 0 <= k < |hits| ==> hits[k].endpointId != id
    ensures LastHitTime(hits, id).Some? ==>
      exists k :: 0 <= k < |hits| && hits[k].endpointId == id && hits[k].timestamp == LastHitTime(hits, id).value
    ensures LastHitTime(hits, id).Some? ==>
      forall k :: 0 <= k < |hits| && hits[k].endpointId == id ==> hits[k].timestamp <= LastHitTime(hits, id).value
  {
    if hits != [] {
      LastHitTimeSpec(hits[1..], id);
      assert forall k :: 1 <= k < |hits| ==> hits[k] == hits[1..][k - 1];
      var rest := LastHitTime(hits[1..], id);
      if hits[0].endpointId == id && rest.Some? {
        var k :| 0 <= k < |hits| - 1 && hits[1..][k].endpointId == id && hits[1..][k].timestamp == rest.value;
        assert hits[k + 1] == hits[1..][k];
      }
      if hits[0].endpointId != id && rest.Some? {
        var k :| 0 <= k < |hits| - 1 && hits[1..][k].endpointId == id && hits[1..][k].timestamp == rest.value;
        assert hits[k + 1] == hits[1..][k];
      }
    }
  }

  /** Whole days elapsed since the last hit (rounded down), None standing for "never". */
  function DaysSinceLastHit(hits: seq<Hit>, id: int, now: int): (days: Option<int>)
    ensures days.None? <==> LastHitTime(hits, id).None?
    ensures days.Some? ==>
      days.value * DAY_MS <= now - LastHitTime(hits, id).value < days.value * DAY_MS + DAY_MS
  {
    match LastHitTime(hits, id)
    case None => None
    case Some(t) => Some((now - t) / DAY_MS)
  }

  // ---------------------------------------------------------------------
  // Path classification
  // ---------------------------------------------------------------------

  function LowerChar(c: char): char {
    if 'A' <= c <= 'Z' then (c as int + 32) as char else c
  }

  /**
   * Lower-casing of the ASCII letters of `s`: no upper-case letter is left,
   * every other character is kept, and an upper-case letter becomes the
   * same letter of the lower-case alphabet.
   */
  function Lower(s: string): (r: string)
    ensures |r| == |s|
    ensures forall i :: 0 <= i < |r| ==> !('A' <= r[i] <= 'Z')
    ensures forall i :: 0 <= i < |s| && !('A' <= s[i] <= 'Z') ==> r[i] == s[i]
    ensures forall i :: 0 <= i < |s| && 'A' <= s[i] <= 'Z' ==>
      'a' <= r[i] <= 'z' && r[i] as int - 'a' as int == s[i] as int - 'A' as int
  {
    seq(|s|, i requires 0 <= i < |s| => LowerChar(s[i]))
  }

  /** `pattern` occurs in `s` starting at index `i`. */
  predicate MatchesAt(s: string, pattern: string, i: int) {
    0 <= i <= |s| - |pattern| && s[i..i + |pattern|] == pattern
  }

  /** Sub-string search. */
  predicate Contains(s: string, pattern: string) {
    exists i :: 0 <= i <= |s| - |pattern| && MatchesAt(s, pattern, i)
  }

  /** Does the lower-cased path contain one of the sensitive patterns? */
  predicate IsSensitivePath(path: string) {
    exists k :: 0 <= k < |SENSITIVE_PATTERNS| && Contains(Lower(path), SENSITIVE_PATTERNS[k])
  }

  // ---------------------------------------------------------------------
  // The five rules
  // ---------------------------------------------------------------------

  /** DEAD_API: no hit in the last 30 days. */
  predicate IsDead(e: Endpoint, hits: seq<Hit>, now: int) {
    !HasHitSince(hits, e.id, now - THIRTY_DAYS_MS)
  }

  /** UNSECURED_API: a sensitive path called at least once, at any time, without credentials. */
  predicate IsUnsecured(e: Endpoint, hits: seq<Hit>) {
    IsSensitivePath(e.path) && HasUnauthenticatedHit(hits, e.id)
  }

  /** UNSTABLE_API: some traffic in the last 7 days and errors/calls above 0.20, i.e. 5 * errors > calls. */
  predicate IsUnstable(e: Endpoint, hits: seq<Hit>, now: int) {
    var calls := CountSince(hits, e.id, now - SEVEN_DAYS_MS);
    calls > 0 && 5 * CountErrorsSince(hits, e.id, now - SEVEN_DAYS_MS) > calls
  }

  /** LOW_USAGE_API: between 1 and 9 calls in the last 30 days. */
  predicate IsLowUsage(e: Endpoint, hits: seq<Hit>, now: int) {
    var calls := CountSince(hits, e.id, now - THIRTY_DAYS_MS);
    calls > 0 && calls < LOW_USAGE_LIMIT
  }

  /** ZOMBIE_API: deprecated, yet called in the last 7 days. */
  predicate IsZombie(e: Endpoint, hits: seq<Hit>, now: int) {
    e.deprecated && CountSince(hits, e.id, now - SEVEN_DAYS_MS) > 0
  }

  predicate Holds(kind: RiskKind, e: Endpoint, hits: seq<Hit>, now: int) {
    match kind
    case DeadApi => IsDead(e, hits, now)
    case UnsecuredApi => IsUnsecured(e, hits)
    case UnstableApi => IsUnstable(e, hits, now)
    case LowUsageApi => IsLowUsage(e, hits, now)
    case ZombieApi => IsZombie(e, hits, now)
  }

  function SeverityOf(kind: RiskKind): Severity {
    match kind
    case DeadApi => Medium
    case UnsecuredApi => Critical
    case UnstableApi => High
    case LowUsageApi => Low
    case ZombieApi => Medium
  }

  /** The risk a rule emits for one endpoint, with the figures its explanation reports. */
  function Evaluate(kind: RiskKind, e: Endpoint, hits: seq<Hit>, now: int): (r: Option<Risk>)
    ensures r.Some? <==> Holds(kind, e, hits, now)
    ensures r.Some? ==> r.value.endpointId == e.id && r.value.kind == kind && r.value.severity == SeverityOf(kind)
  {
    if !Holds(kind, e, hits, now) then None
    else
      var finding := match kind
        case DeadApi => NotCalledSince(DaysSinceLastHit(hits, e.id, now))
        case UnsecuredApi => UnauthenticatedAccess
        case UnstableApi =>
          ErrorRate(CountErrorsSince(hits, e.id, now - SEVEN_DAYS_MS), CountSince(hits, e.id, now - SEVEN_DAYS_MS))
        case LowUsageApi => FewCalls(CountSince(hits, e.id, now - THIRTY_DAYS_MS))
        case ZombieApi => StillCalled(CountSince(hits, e.id, now - SEVEN_DAYS_MS));
      Some(Risk(e.id, kind, SeverityOf(kind), finding))
  }

  /** The risks a rule emits, in order, when it walks `es`. */
  function Candidates(kind: RiskKind, es: seq<Endpoint>, hits: seq<Hit>, now: int): (rs: seq<Risk>)
    ensures |rs| <= |es|
    ensures forall k :: 0 <= k < |rs| ==>
      rs[k].kind == kind && rs[k].severity == SeverityOf(kind)
  {
    if es == [] then []
    else Candidates(kind, es[..|es| - 1], hits, now) + Emit(kind, es[|es| - 1], hits, now)
  }

  /** What one step of a rule's walk appends: the endpoint's risk, if the rule holds. */
  function Emit(kind: RiskKind, e: Endpoint, hits: seq<Hit>, now: int): (rs: seq<Risk>)
    ensures |rs| <= 1
    ensures rs != [] <==> Holds(kind, e, hits, now)
    ensures rs != [] ==> Some(rs[0]) == Evaluate(kind, e, hits, now)
  {
    match Evaluate(kind, e, hits, now)
    case None => []
    case Some(r) => [r]
  }

  /** The endpoints flagged deprecated, in registry order. */
  function Deprecated(es: seq<Endpoint>): (ds: seq<Endpoint>)
    ensures |ds| <= |es|
    ensures forall e :: e in ds <==> e in es && e.deprecated
  {
    if es == [] then []
    else Deprecated(es[..|es| - 1]) + (if es[|es| - 1].deprecated then [es[|es| - 1]] else [])
  }

  // ---------------------------------------------------------------------
  // Properties of the rules
  // ---------------------------------------------------------------------

  /** Widening the window never loses hits. */
  lemma {:induction false} CountSinceMonotone(hits: seq<Hit>, id: int, early: int, late: int)
    requires early <= late
    ensures CountSince(hits, id, late) <= CountSince(hits, id, early)
    ensures CountErrorsSince(hits, id, late) <= CountErrorsSince(hits, id, early)
  {
    if hits != [] {
      CountSinceMonotone(hits[1..], id, early, late);
    }
  }

  /**
   * A dead endpoint (silent for 30 days) is silent for 7 days too, so none
   * of the traffic-based rules fires for it: DEAD_API excludes
   * LOW_USAGE_API, UNSTABLE_API and ZOMBIE_API.
   */
  lemma DeadExcludesTrafficRules(e: Endpoint, hits: seq<Hit>, now: int)
    requires IsDead(e, hits, now)
    ensures !IsLowUsage(e, hits, now) && !IsUnstable(e, hits, now) && !IsZombie(e, hits, now)
  {
    CountSinceSpec(hits, e.id, now - THIRTY_DAYS_MS);
    CountSinceMonotone(hits, e.id, now - THIRTY_DAYS_MS, now - SEVEN_DAYS_MS);
  }

  /** The age a DEAD_API risk reports, when the endpoint was ever called, is at least 30 days. */
  lemma DeadAgeAtLeastThirtyDays(e: Endpoint, hits: seq<Hit>, now: int)
    requires IsDead(e, hits, now)
    ensures match DaysSinceLastHit(hits, e.id, now)
      case None => forall k :: 0 <= k < |hits| ==> hits[k].endpointId != e.id
      case Some(days) => days >= 30
  {
    LastHitTimeSpec(hits, e.id);
    match LastHitTime(hits, e.id)
    case None =>
    case Some(t) =>
      var k :| 0 <= k < |hits| && hits[k].endpointId == e.id && hits[k].timestamp == t;
      assert !InWindow(hits[k], e.id, now - THIRTY_DAYS_MS);
      assert now - t > 30 * DAY_MS;
      DivisionAtLeast(now - t, 30);
  }

  lemma DivisionAtLeast(x: int, n: nat)
    requires x >= n * DAY_MS
    ensures x / DAY_MS >= n
  {
  }

  /**
   * The source compares the ratio errors / calls with 0.20; over exact
   * rationals that comparison is the integer test 5 * errors > calls.
   */
  lemma ErrorRateThreshold(errors: nat, calls: nat)
    requires calls > 0
    ensures (errors as real) / (calls as real) > 0.20 <==> 5 * errors > calls
  {
    var c, x := calls as real, errors as real;
    var rate := x / c;
    assert x == rate * c;
    assert 5.0 * x - c == (5.0 * rate - 1.0) * c;
    SignOfProduct(5.0 * rate - 1.0, c);
  }

  /**
   * UNSTABLE_API in the source's own terms: at least one call in the last
   * 7 days and an error rate strictly above 20%, so a rate of exactly 20%
   * is not flagged and an endpoint without calls in the window never is.
   */
  lemma UnstableMeansErrorRateAboveTwentyPercent(e: Endpoint, hits: seq<Hit>, now: int)
    ensures var calls := CountSince(hits, e.id, now - SEVEN_DAYS_MS);
      var errors := CountErrorsSince(hits, e.id, now - SEVEN_DAYS_MS);
      IsUnstable(e, hits, now) <==> calls > 0 && (errors as real) / (calls as real) > 0.20
  {
    var calls := CountSince(hits, e.id, now - SEVEN_DAYS_MS);
    if calls > 0 {
      ErrorRateThreshold(CountErrorsSince(hits, e.id, now - SEVEN_DAYS_MS), calls);
    }
  }

  lemma SignOfProduct(a: real, c: real)
    requires c > 0.0
    ensures a * c > 0.0 <==> a > 0.0
  {
    if a > 0.0 {
      assert a * c > 0.0;
    } else {
      assert a * c <= 0.0;
    }
  }

  // The risk each rule emits when its condition holds, one rule at a time.

  lemma DeadVerdict(e: Endpoint, hits: seq<Hit>, now: int)
    requires !HasHitSince(hits, e.id, now - THIRTY_DAYS_MS)
    ensures Evaluate(DeadApi, e, hits, now)
      == Some(Risk(e.id, DeadApi, Medium, NotCalledSince(DaysSinceLastHit(hits, e.id, now))))
  {
  }

  lemma UnsecuredVerdict(e: Endpoint, hits: seq<Hit>, now: int)
    requires IsSensitivePath(e.path) && HasUnauthenticatedHit(hits, e.id)
    ensures Evaluate(UnsecuredApi, e, hits, now) == Some(Risk(e.id, UnsecuredApi, Critical, UnauthenticatedAccess))
  {
  }

  lemma UnstableVerdict(e: Endpoint, hits: seq<Hit>, now: int, errors: nat, calls: nat)
    requires calls == CountSince(hits, e.id, now - SEVEN_DAYS_MS)
    requires errors == CountErrorsSince(hits, e.id, now - SEVEN_DAYS_MS)
    requires calls > 0 && 5 * errors > calls
    ensures Evaluate(UnstableApi, e, hits, now) == Some(Risk(e.id, UnstableApi, High, ErrorRate(errors, calls)))
  {
  }

  lemma LowUsageVerdict(e: Endpoint, hits: seq<Hit>, now: int, calls: nat)
    requires calls == CountSince(hits, e.id, now - THIRTY_DAYS_MS)
    requires 0 < calls < LOW_USAGE_LIMIT
    ensures Evaluate(LowUsageApi, e, hits, now) == Some(Risk(e.id, LowUsageApi, Low, FewCalls(calls)))
  {
  }

  lemma ZombieVerdict(e: Endpoint, hits: seq<Hit>, now: int, calls: nat)
    requires calls == CountSince(hits, e.id, now - SEVEN_DAYS_MS)
    requires e.deprecated && calls > 0
    ensures Evaluate(ZombieApi, e, hits, now) == Some(Risk(e.id, ZombieApi, Medium, StillCalled(calls)))
  {
  }

  /** Walking only the deprecated endpoints yields exactly what walking all of them would. */
  lemma {:induction false} ZombieCandidatesOnlyDeprecated(es: seq<Endpoint>, hits: seq<Hit>, now: int)
    ensures Candidates(ZombieApi, Deprecated(es), hits, now) == Candidates(ZombieApi, es, hits, now)
  {
    if es != [] {
      var init, last := es[..|es| - 1], es[|es| - 1];
      ZombieCandidatesOnlyDeprecated(init, hits, now);
      var ds := Deprecated(es);
      if last.deprecated {
        assert ds == Deprecated(init) + [last];
        assert ds[..|ds| - 1] == Deprecated(init) && ds[|ds| - 1] == last;
      } else {
        assert ds == Deprecated(init);
        assert Emit(ZombieApi, last, hits, now) == [];
      }
    }
  }

  /** A path without upper-case ASCII letters is its own lower-case form. */
  lemma LowerOfLowerCase(s: string)
    requires forall i :: 0 <= i < |s| ==> !('A' <= s[i] <= 'Z')
    ensures Lower(s) == s
  {
  }

  /** Lower-casing twice is lower-casing once. */
  lemma LowerIsIdempotent(s: string)
    ensures Lower(Lower(s)) == Lower(s)
  {
    LowerOfLowerCase(Lower(s));
  }

  /** `p` and `q` differ at most in the case of their ASCII letters. */
  predicate SameUpToCase(p: string, q: string) {
    |p| == |q| && forall i :: 0 <= i < |p| ==> LowerChar(p[i]) == LowerChar(q[i])
  }

  /** Two paths that differ only in the case of ASCII letters are both sensitive or both not. */
  lemma CaseNeverChangesSensitivity(p: string, q: string)
    requires SameUpToCase(p, q)
    ensures IsSensitivePath(p) == IsSensitivePath(q)
  {
    assert Lower(p) == Lower(q);
  }

  /** Sensitivity ignores case: "/api/Users/CREATE" holds "/create". */
  lemma SensitivityIgnoresCase()
    ensures IsSensitivePath("/api/Users/CREATE")
  {
    var lower := Lower("/api/Users/CREATE");
    assert lower == "/api/users/create";
    assert lower[10..17] == SENSITIVE_PATTERNS[3];
    assert MatchesAt(lower, SENSITIVE_PATTERNS[3], 10);
  }

  /** Sensitivity is a sub-string test, not a path-segment test: "/administrators/list" is sensitive. */
  lemma SensitivityIsSubstring()
    ensures IsSensitivePath("/administrators/list")
  {
    LowerOfLowerCase("/administrators/list");
    assert "/administrators/list"[0..6] == SENSITIVE_PATTERNS[0];
    assert MatchesAt(Lower("/administrators/list"), SENSITIVE_PATTERNS[0], 0);
  }

  /** A path holding none of the patterns is not sensitive: "/users". */
  lemma UsersIsNotSensitive()
    ensures !IsSensitivePath("/users")
  {
    LowerOfLowerCase("/users");
    forall k | 0 <= k < |SENSITIVE_PATTERNS|
      ensures !Contains("/users", SENSITIVE_PATTERNS[k])
    {
      if k == 0 {
        assert "/users"[1] != SENSITIVE_PATTERNS[0][1];
        assert !MatchesAt("/users", SENSITIVE_PATTERNS[0], 0);
      } else {
        assert |SENSITIVE_PATTERNS[k]| == 7;
      }
    }
  }
}
