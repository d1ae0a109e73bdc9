# Ghost-API tracker core, modelled in Dafny

Ghost-API watches the HTTP traffic of an Express backend. Each request is
captured as a *hit* against an *endpoint*, which is a (path, method) pair kept
in a registry. An analysis run then turns the recorded traffic into *risks*.
There are five kinds:

- DEAD_API: no call in 30 days.
- UNSECURED_API: a sensitive path called without credentials.
- UNSTABLE_API: more than 20% errors in 7 days.
- LOW_USAGE_API: 1 to 9 calls in 30 days.
- ZOMBIE_API: a deprecated endpoint still called within 7 days.

The store keeps at most one risk per (endpoint, kind). The dashboard also
draws a per-endpoint usage timeline: hits grouped by UTC day, with a call
count and an error count for each day.

The project has five modules:

- `store.dfy` (`Store`): the records and the shared `Database` class. The
  class holds the endpoint registry, the hit log, the risk store and the
  registry's next auto-increment key. `RegistryValid` is the registry's
  invariant:
  - ids are issued in increasing order;
  - (path, method) is unique;
  - every hit references a registered endpoint.
- `rules.dfy` (`Rules`): the queries the rules make and the five rules as
  predicates. `Evaluate` gives the risk a rule emits for one endpoint.
  `Candidates` gives the risks one rule's loop emits over a list of endpoints.
  Lemmas about each of these are in the same file.
- `analysis.dfy` (`Analysis`):
  - the risk store's dedup insert (`createRisk`);
  - the five detector loops, as methods on the `Database`;
  - the full run, proved equal to `Detected`, a specification function.
  Lemmas say exactly when a run stores each kind of risk.
- `capture.dfy` (`Capture`): request capture as a method on the `Database`.
  It is proved against `Logged`, a function on registry values, and lemmas
  cover exclusion, find-or-create, error swallowing and the invariant over
  any sequence of captures.
- `timeline.dfy` (`Timeline`): the group-by-day reduction as a loop over a
  keyed accumulator. It is proved equal to `Expected`, with lemmas on
  totals, distinct dates, first-seen order and ascending dates for
  time-ordered input.

Time is an integer count of milliseconds. Every clock read is a parameter
`now`. A hit's timestamp is the `now` at which it was captured.

An admin endpoint called once without credentials is flagged UNSECURED_API,
and also LOW_USAGE_API when that call is under 30 days old, or DEAD_API when
it is older. `Analysis.SensitiveEndpointCalledOnce` proves the first case.

## Model

| member | source | states |
|---|---|---|
| Rules.CountSinceSpec | backend/src/services/analysis.service.js:159-164 | the window count is at most the number of hits, and it is zero exactly when the endpoint has no hit in the window |
| Rules.ErrorsAtMostCalls | backend/src/services/analysis.service.js:123-133 | the error hits of a window never outnumber the window's hits |
| Rules.LastHitTimeSpec | backend/src/services/analysis.service.js:55-58 | the latest-hit query is empty iff the endpoint has no hit; otherwise it returns the timestamp of one of its hits, and no hit of it is later |
| Rules.Lower | backend/src/services/analysis.service.js:87 | lower-casing keeps the length, leaves no upper-case ASCII letter, keeps every other character, and turns each upper-case letter into the same lower-case letter |
| Rules.LowerIsIdempotent | backend/src/services/analysis.service.js:87 | lower-casing an already lower-cased path changes nothing |
| Rules.CaseNeverChangesSensitivity | backend/src/services/analysis.service.js:81-88 | two paths that differ only in the case of ASCII letters are both sensitive or both not (`Rules.IsSensitivePath`: the lower-cased path contains one of the four patterns) |
| Rules.DaysSinceLastHit | backend/src/services/analysis.service.js:55-62 | the reported age is "never" iff the endpoint has no hit; otherwise it is the number of whole days since the latest hit, rounded down |
| Rules.Evaluate | backend/src/services/analysis.service.js:45-206 | a rule emits a risk for an endpoint iff the rule's condition holds; that risk names the endpoint, the rule's kind and the rule's fixed severity |
| Rules.Candidates | backend/src/services/analysis.service.js:45-71 | one rule's loop emits at most one risk per endpoint, all of its own kind and severity |
| Rules.Deprecated | backend/src/services/analysis.service.js:187-189 | the deprecated-only query returns exactly the registry's deprecated endpoints, and no more entries than the registry has |
| Rules.DeadExcludesTrafficRules | backend/src/services/analysis.service.js:46-53 | an endpoint with no hit in 30 days is not low-usage, not unstable and not a zombie |
| Rules.DeadAgeAtLeastThirtyDays | backend/src/services/analysis.service.js:55-62 | a dead endpoint's age is "never" exactly when it has no hit; otherwise the floored age in days is at least 30 |
| Rules.ErrorRateThreshold | backend/src/services/analysis.service.js:132-135 | with at least one call, errors/calls > 0.20 over exact rationals iff 5 * errors > calls |
| Rules.UnstableMeansErrorRateAboveTwentyPercent | backend/src/services/analysis.service.js:123-135 | an endpoint is unstable iff it had calls in the last 7 days and their error rate is strictly above 20%, so exactly 20% is not flagged and a window with no calls never is |
| Rules.ZombieCandidatesOnlyDeprecated | backend/src/services/analysis.service.js:187-199 | walking only the deprecated endpoints emits exactly the zombie risks that walking all endpoints would |
| Rules.SensitivityIgnoresCase | backend/src/services/analysis.service.js:86-88 | the path is lower-cased before the test, so "/api/Users/CREATE" is sensitive |
| Rules.SensitivityIsSubstring | backend/src/services/analysis.service.js:86-88 | sensitivity is a substring test, not a path-segment test, so "/administrators/list" is sensitive |
| Rules.UsersIsNotSensitive | backend/src/services/analysis.service.js:81-88 | a path holding none of "/admin", "/delete", "/update", "/create" ("/users") is not sensitive |
| Analysis.Insert | backend/src/services/analysis.service.js:214-226 | the dedup insert keeps the store free of duplicate (endpoint, kind) slots |
| Analysis.InsertAll | backend/src/services/analysis.service.js:214-226 | repeated dedup inserts keep the store free of duplicate slots |
| Analysis.InsertAllOrigin | backend/src/services/analysis.service.js:214-226 | after repeated inserts every stored risk was either already stored or one of the inserted risks |
| Analysis.InsertAllNoClash | backend/src/services/analysis.service.js:216-223 | when no inserted risk clashes with the store or with another, every insert goes through, in order |
| Analysis.Detected | backend/src/services/analysis.service.js:13-31 | the risks of a full run hold no duplicate slot |
| Analysis.InsertAllPrefix | backend/src/services/analysis.service.js:214-226 | the dedup insert only appends: inserting a prefix of the candidates leaves a prefix of the store that inserting all of them leaves |
| Analysis.PartialRunIsPrefix | backend/src/services/analysis.service.js:13-31 | a run that stops after any number of candidates leaves a duplicate-free prefix of the full run's store |
| Analysis.CandidatesNoDuplicates | backend/src/services/analysis.service.js:45-71 | with distinct endpoint ids, one rule's loop emits no two risks for the same slot |
| Analysis.DedupNeverRejects | backend/src/services/analysis.service.js:13-24 | with distinct endpoint ids, a full run stores every risk any rule emits, in rule order then endpoint order |
| Analysis.DetectedFromRules | backend/src/services/analysis.service.js:20-24 | every stored risk was emitted by its kind's rule for a registered endpoint with that id, with the kind's severity |
| Analysis.FlaggedIff | backend/src/services/analysis.service.js:20-24 | with distinct ids, a run stores a risk of a kind for an endpoint iff that kind's rule (`Rules.Holds`) holds for it |
| Analysis.StoredRiskIsVerdict | backend/src/services/analysis.service.js:20-24 | with distinct ids, the risk a run stores for an endpoint and kind is the one that kind's rule emits for it, figures included |
| Analysis.DeadApiFlaggedIff | backend/src/services/analysis.service.js:37-72 | a run stores DEAD_API for an endpoint iff it has no hit at or after now minus 30 days (`Rules.IsDead`) |
| Analysis.UnsecuredApiFlaggedIff | backend/src/services/analysis.service.js:78-108 | a run stores UNSECURED_API iff the lower-cased path contains a sensitive pattern (`Rules.IsSensitivePath`) and some hit, at any time, lacked credentials (`Rules.HasUnauthenticatedHit`); together these are `Rules.IsUnsecured` |
| Analysis.UnstableApiFlaggedIff | backend/src/services/analysis.service.js:114-144 | a run stores UNSTABLE_API iff the endpoint had calls in the last 7 days and more than a fifth of them had status 400 or above (`Rules.IsUnstable`) |
| Analysis.LowUsageApiFlaggedIff | backend/src/services/analysis.service.js:150-175 | a run stores LOW_USAGE_API iff the endpoint had between 1 and 9 calls in the last 30 days (`Rules.IsLowUsage`) |
| Analysis.ZombieApiFlaggedIff | backend/src/services/analysis.service.js:181-208 | a run stores ZOMBIE_API iff the endpoint is deprecated and had a call in the last 7 days (`Rules.IsZombie`) |
| Analysis.SensitiveEndpointCalledOnce | backend/src/services/analysis.service.js:13-31 | an admin endpoint called once, a day ago, without credentials ends up with UNSECURED_API and LOW_USAGE_API and nothing else |
| Analysis.DeadExcludesOtherTrafficRisks | backend/src/services/analysis.service.js:20-24 | a run never stores DEAD_API beside LOW_USAGE_API, UNSTABLE_API or ZOMBIE_API for the same endpoint |
| Analysis.CreateRisk | backend/src/services/analysis.service.js:214-226 | the risk is appended iff no risk for its (endpoint, kind) is stored, otherwise the store is unchanged; the store stays duplicate-free |
| Analysis.DetectDeadApis | backend/src/services/analysis.service.js:37-72 | the loop inserts, with dedup and in registry order, exactly the DEAD_API risks the rule emits |
| Analysis.DetectUnsecuredApis | backend/src/services/analysis.service.js:78-108 | the loop inserts, with dedup and in registry order, exactly the UNSECURED_API risks the rule emits |
| Analysis.DetectUnstableApis | backend/src/services/analysis.service.js:114-144 | the loop, skipping endpoints without calls, inserts exactly the UNSTABLE_API risks the rule emits |
| Analysis.DetectLowUsageApis | backend/src/services/analysis.service.js:150-175 | the loop inserts, with dedup and in registry order, exactly the LOW_USAGE_API risks the rule emits |
| Analysis.DetectZombieApis | backend/src/services/analysis.service.js:181-208 | the loop over the deprecated endpoints inserts exactly the ZOMBIE_API risks the rule emits over the whole registry |
| Analysis.RunAllAnalyses | backend/src/services/analysis.service.js:13-31 | after a run the store holds exactly the run's risks and no old risk, with no duplicate slot; with distinct ids it holds every emitted risk |
| Analysis.RerunIsIdempotent | backend/src/services/analysis.service.js:16-24 | two runs with the same clock and traffic leave the same store |
| Capture.AuthPresent | backend/src/middleware/ghostapi.middleware.js:29 | credentials count as present iff the Authorization header is sent and non-empty |
| Capture.FindEndpoint | backend/src/middleware/ghostapi.middleware.js:51-55 | the unique-key lookup returns a registered endpoint with that (path, method), and nothing iff none is registered |
| Capture.Logged | backend/src/middleware/ghostapi.middleware.js:43-78 | a capture only appends: the registry and the hit log keep their old entries and gain at most one each, and a new hit is stamped with the capture time |
| Capture.LogApiHit | backend/src/middleware/ghostapi.middleware.js:43-78 | the registry after a capture is the one `Logged` describes for the first failing store operation, risks are untouched, and the registry invariant is kept |
| Capture.LoggedKeepsRegistryValid | backend/src/middleware/ghostapi.middleware.js:50-72 | whatever fails, a capture keeps ids increasing, (path, method) unique and every hit pointing at a registered endpoint |
| Capture.ExcludedCallChangesNothing | backend/src/middleware/ghostapi.middleware.js:45-48 | a call to the health check or an analytics route (`Capture.IsExcluded`) leaves the registry unchanged |
| Capture.ExclusionExamples | backend/src/middleware/ghostapi.middleware.js:46 | `Capture.IsExcluded` holds for "/health" and any path starting "/api/analytics"; "/healthz", "/api/users" and "/api/analytic" are logged |
| Capture.SuccessfulCaptureFindsOrCreates | backend/src/middleware/ghostapi.middleware.js:50-72 | a successful capture reuses the registered endpoint or adds exactly one with the next key, and appends exactly one hit with the call's fields and that endpoint's id |
| Capture.AtMostOneEndpointPerRoute | backend/src/middleware/ghostapi.middleware.js:51-62 | after a capture no (path, method) pair is registered twice |
| Capture.FailedCaptureIsSwallowed | backend/src/middleware/ghostapi.middleware.js:44-77 | a failing store operation ends the capture quietly: no hit is added, and an endpoint is added without a hit only when the hit insert fails after the endpoint was created |
| Capture.LoggedAllKeepsRegistryValid | backend/src/middleware/ghostapi.middleware.js:43-78 | after any sequence of captures the registry invariant holds, so no (path, method) pair is ever registered twice |
| Capture.LoggedAllHitBound | backend/src/middleware/ghostapi.middleware.js:64-72 | captures only append to the hit log, at most one hit each |
| Timeline.DayOf | backend/src/controllers/analytics.controller.js:104 | a hit's day is the UTC day whose 24 hours contain its timestamp |
| Timeline.DayErrors | backend/src/controllers/analytics.controller.js:108-111 | a day's error count never exceeds its call count |
| Timeline.GroupByDay | backend/src/controllers/analytics.controller.js:103-113 | after the pass the accumulator holds, for each day with hits and no other, that day's call and error counts; its keys were inserted in order of each day's first hit |
| Timeline.UsageTimeline | backend/src/controllers/analytics.controller.js:103-115 | listing the accumulator's values in key-insertion order gives exactly `Timeline.Expected`: one entry per distinct day, in order of first occurrence, with that day's counts |
| Timeline.CountsAfterHit | backend/src/controllers/analytics.controller.js:108-111 | a hit adds one call, and one error when its status is 400 or above, to its own day and changes no other day |
| Timeline.EntriesAt | backend/src/controllers/analytics.controller.js:105-111 | entry k of the timeline reports the k-th day with that day's call count and error count |
| Timeline.DaysSpec | backend/src/controllers/analytics.controller.js:103-107 | a day is listed iff some hit falls on it, iff its call count is positive, and no day is listed twice |
| Timeline.DaysOfPrefix | backend/src/controllers/analytics.controller.js:103-115 | the days of any prefix of the hits are a prefix of the listed days, so days appear in order of their first hit |
| Timeline.TimelineCountsAllHits | backend/src/controllers/analytics.controller.js:103-115 | the day counts of the timeline add up to the number of hits |
| Timeline.TimelineEntriesWellFormed | backend/src/controllers/analytics.controller.js:103-115 | every entry has at least one call and no more errors than calls, no two entries share a date, and the timeline is empty iff there are no hits |
| Timeline.SortedHitsGiveAscendingDates | backend/src/controllers/analytics.controller.js:97-115 | hits fetched in ascending timestamp order give strictly ascending dates |
| Timeline.DayOfMonotone | backend/src/controllers/analytics.controller.js:104 | a later timestamp never falls on an earlier UTC day |

## Left out

- Database access is not modelled. The Prisma queries become reads of the `Database` fields, and the endpoint, hit and risk tables become sequences. The ids and creation times of hits and risks are not modelled.
- Concurrency is not modelled. This covers the `res.json` override, the fire-and-forget capture, and runs or captures that interleave. It also covers the uniqueness race between two captures that create the same endpoint, and readers seeing the risk store half cleared. Captures and runs are sequential here.
- The capture wrapper is not modelled. Reading the start time and computing the response time, the status code and `req.path` become the fields of an `ApiCall`.
- Capture.LogApiHit: store errors are abstracted into which of the three store operations throws first.
- Rules.Evaluate: the explanation strings, including `toFixed(1)`, are replaced by a `Finding` that carries the figures they report.
- Analysis.RunAllAnalyses: the run has no error handling, so a store operation that throws aborts it and the error reaches the caller. If the clearing step throws, the old risks stay. If a later operation throws, the store keeps only the risks inserted so far. The method models a run that completes. `Analysis.PartialRunIsPrefix` states what any stopping point after the clearing step leaves: a prefix of the full run's store.
- Console output is left out.
- The source reads the clock separately in the dead, unstable, low-usage and zombie rules, and once more for the dead-age figure; the unsecured rule reads none. The model uses one `now` for the whole run.
- Rules.IsDead and Rules.IsLowUsage subtract exactly 30 days of milliseconds, and Rules.IsUnstable and Rules.IsZombie subtract exactly 7. The source subtracts calendar days in local time, which differs by an hour across a daylight-saving change.
- Rules.ErrorRateThreshold: the error rate is compared over exact rationals. A double-precision quotient could round across 0.20 only for call counts far beyond 10^15.
- Rules.Lower: only ASCII letters are lower-cased. Among the other characters, only U+0130 and U+212A lower-case to an ASCII letter (to "i" plus a combining dot, and to "k"). Neither can complete "/admin", "/delete", "/update" or "/create", so sensitivity is unaffected.
- Timeline.DayOf: a day is an integer count of UTC days rather than the "YYYY-MM-DD" string, which maps one-to-one onto it. The range error that `toISOString` raises for timestamps beyond ±8.64e15 ms is not modelled.
- Timeline.UsageTimeline takes the hits the query returned. Parsing the endpoint id, filtering by endpoint and sorting by timestamp are not modelled. Sortedness is a hypothesis only of `Timeline.SortedHitsGiveAscendingDates`.
- Nothing in the core sets an endpoint's deprecation flag. It is an input.
- These are not part of this model:
  - the other analytics handlers;
  - the routes, the server and the sample routes;
  - the command-line analysis script;
  - the frontend.
