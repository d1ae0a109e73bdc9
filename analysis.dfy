/**
 * The risk-analysis engine: the dedup insert into the risk store, the five
 * detectors that walk the endpoint registry, and the run that clears the
 * store and applies them in order.
 */
module Analysis {
  import opened Store
  import opened Rules

  // ---------------------------------------------------------------------
  // The risk store's dedup insert, as a function on the stored sequence
  // ---------------------------------------------------------------------

  /** The store after inserting `r` unless its (endpointId, kind) slot is taken. */
  function Insert(risks: seq<Risk>, r: Risk): (rs: seq<Risk>)
    ensures NoDuplicateRisks(risks) ==> NoDuplicateRisks(rs)
  {
    if HasSlot(risks, r.endpointId, r.kind) then risks else risks + [r]
  }

  /** The store after inserting each of `cs`, in order, through the dedup insert. */
  function InsertAll(risks: seq<Risk>, cs: seq<Risk>): (rs: seq<Risk>)
    ensures NoDuplicateRisks(risks) ==> NoDuplicateRisks(rs)
  {
    if cs == [] then risks
    else Insert(InsertAll(risks, cs[..|cs| - 1]), cs[|cs| - 1])
  }

  /** The dedup insert keeps what was stored and adds nothing but the candidates. */
  lemma {:induction false} InsertAllOrigin(risks: seq<Risk>, cs: seq<Risk>, r: Risk)
    requires r in InsertAll(risks, cs)
    ensures r in risks || r in cs
  {
    if cs != [] {
      var init := cs[..|cs| - 1];
      if r in InsertAll(risks, init) {
        InsertAllOrigin(risks, init, r);
        assert r in init ==> r in cs;
      }
    }
  }

  /** Inserting `a` then `b` is inserting `a + b`. */
  lemma {:induction false} InsertAllConcat(risks: seq<Risk>, a: seq<Risk>, b: seq<Risk>)
    ensures InsertAll(risks, a + b) == InsertAll(InsertAll(risks, a), b)
  {
    if b == [] {
      assert a + b == a;
    } else {
      var ab := a + b;
      assert ab[..|ab| - 1] == a + b[..|b| - 1];
      assert ab[|ab| - 1] == b[|b| - 1];
      InsertAllConcat(risks, a, b[..|b| - 1]);
    }
  }

  /** A step of a rule's walk whose rule does not hold leaves the store as it was. */
  lemma WalkSkip(risks: seq<Risk>, kind: RiskKind, es: seq<Endpoint>, i: nat, hits: seq<Hit>, now: int)
    requires i < |es| && !Holds(kind, es[i], hits, now)
    ensures InsertAll(risks, Candidates(kind, es[..i + 1], hits, now))
      == InsertAll(risks, Candidates(kind, es[..i], hits, now))
  {
    var prefix := es[..i + 1];
    assert prefix[..|prefix| - 1] == es[..i] && prefix[|prefix| - 1] == es[i];
    assert Emit(kind, es[i], hits, now) == [];
    assert Candidates(kind, prefix, hits, now)
      == Candidates(kind, prefix[..|prefix| - 1], hits, now) + Emit(kind, prefix[|prefix| - 1], hits, now);
    assert Candidates(kind, es[..i], hits, now) + [] == Candidates(kind, es[..i], hits, now);
  }

  /** A step of a rule's walk whose rule holds makes one dedup insert of the rule's verdict. */
  lemma WalkEmit(risks: seq<Risk>, kind: RiskKind, es: seq<Endpoint>, i: nat, hits: seq<Hit>, now: int, r: Risk)
    requires i < |es| && Evaluate(kind, es[i], hits, now) == Some(r)
    ensures InsertAll(risks, Candidates(kind, es[..i + 1], hits, now))
      == Insert(InsertAll(risks, Candidates(kind, es[..i], hits, now)), r)
  {
    assert es[..i + 1][..i] == es[..i];
    var before := Candidates(kind, es[..i], hits, now);
    var after := Candidates(kind, es[..i + 1], hits, now);
    assert after == before + [r];
    assert after[..|after| - 1] == before;
  }

  /** When no two of `risks + cs` share a slot, the dedup check rejects none of `cs`. */
  lemma {:induction false} InsertAllNoClash(risks: seq<Risk>, cs: seq<Risk>)
    requires NoDuplicateRisks(risks + cs)
    ensures InsertAll(risks, cs) == risks + cs
  {
    if cs != [] {
      var init, last := cs[..|cs| - 1], cs[|cs| - 1];
      var all := risks + cs;
      assert risks + init == all[..|all| - 1];
      InsertAllNoClash(risks, init);
      forall k | 0 <= k < |risks + init|
        ensures !SameSlot((risks + init)[k], last)
      {
        assert (risks + init)[k] == all[k] && last == all[|all| - 1];
      }
      assert risks + init + [last] == all;
    }
  }

  // ---------------------------------------------------------------------
  // What one run produces
  // ---------------------------------------------------------------------

  /** The candidates of the five rules, in the order the run applies them. */
  function AllCandidates(es: seq<Endpoint>, hits: seq<Hit>, now: int): seq<Risk> {
    Candidates(DeadApi, es, hits, now)
      + Candidates(UnsecuredApi, es, hits, now)
      + Candidates(UnstableApi, es, hits, now)
      + Candidates(LowUsageApi, es, hits, now)
      + Candidates(ZombieApi, es, hits, now)
  }

  /** The risk store a run leaves behind: the candidates inserted into an empty store. */
  function Detected(es: seq<Endpoint>, hits: seq<Hit>, now: int): (rs: seq<Risk>)
    ensures NoDuplicateRisks(rs)
  {
    InsertAll([], AllCandidates(es, hits, now))
  }

  /** The dedup insert only ever appends, so inserting a prefix of the candidates leaves a prefix of the store. */
  lemma {:induction false} InsertAllPrefix(risks: seq<Risk>, cs: seq<Risk>, k: nat)
    requires k <= |cs|
    ensures InsertAll(risks, cs[..k]) <= InsertAll(risks, cs)
    decreases |cs|
  {
    if k < |cs| {
      var init := cs[..|cs| - 1];
      assert cs[..k] == init[..k];
      InsertAllPrefix(risks, init, k);
    } else {
      assert cs[..k] == cs;
    }
  }

  /**
   * A run that stops after the first `k` candidates (a store operation
   * threw) leaves a duplicate-free prefix of what the full run stores.
   */
  lemma PartialRunIsPrefix(es: seq<Endpoint>, hits: seq<Hit>, now: int, k: nat)
    requires k <= |AllCandidates(es, hits, now)|
    ensures var partial := InsertAll([], AllCandidates(es, hits, now)[..k]);
      partial <= Detected(es, hits, now) && NoDuplicateRisks(partial)
  {
    InsertAllPrefix([], AllCandidates(es, hits, now), k);
  }

  /** A rule walking endpoints with distinct ids never emits twice for one endpoint. */
  lemma {:induction false} CandidatesNoDuplicates(kind: RiskKind, es: seq<Endpoint>, hits: seq<Hit>, now: int)
    requires DistinctIds(es)
    ensures NoDuplicateRisks(Candidates(kind, es, hits, now))
  {
    if es != [] {
      var init, last := es[..|es| - 1], es[|es| - 1];
      CandidatesNoDuplicates(kind, init, hits, now);
      var before := Candidates(kind, init, hits, now);
      forall k | 0 <= k < |before|
        ensures before[k].endpointId != last.id
      {
        CandidateOrigin(kind, init, hits, now, before[k]);
        var e :| e in init && Evaluate(kind, e, hits, now) == Some(before[k]);
        var i :| 0 <= i < |init| && init[i] == e;
        assert es[i] == e;
      }
      assert Candidates(kind, es, hits, now) == before + Emit(kind, last, hits, now);
    }
  }

  /** Every risk of `rs` has one of the kinds in `kinds`. */
  predicate OfKinds(rs: seq<Risk>, kinds: set<RiskKind>) {
    forall k :: 0 <= k < |rs| ==> rs[k].kind in kinds
  }

  /** Joining two duplicate-free runs of disjoint kinds gives a duplicate-free sequence. */
  lemma JoinKinds(a: seq<Risk>, b: seq<Risk>, ka: set<RiskKind>, kb: set<RiskKind>)
    requires NoDuplicateRisks(a) && NoDuplicateRisks(b)
    requires OfKinds(a, ka) && OfKinds(b, kb) && ka !! kb
    ensures NoDuplicateRisks(a + b) && OfKinds(a + b, ka + kb)
  {
    var ab := a + b;
    forall i, j | 0 <= i < j < |ab|
      ensures !SameSlot(ab[i], ab[j])
    {
      if j < |a| {
        assert ab[i] == a[i] && ab[j] == a[j];
      } else if i >= |a| {
        assert ab[i] == b[i - |a|] && ab[j] == b[j - |a|];
      } else {
        assert ab[i] == a[i] && ab[j] == b[j - |a|];
        assert a[i].kind in ka && b[j - |a|].kind in kb;
      }
    }
    forall k | 0 <= k < |ab|
      ensures ab[k].kind in ka + kb
    {
      if k < |a| {
        assert ab[k] == a[k];
      } else {
        assert ab[k] == b[k - |a|];
      }
    }
  }

  /** One rule's candidates are duplicate-free and all of the rule's kind. */
  lemma RuleCandidates(kind: RiskKind, es: seq<Endpoint>, hits: seq<Hit>, now: int)
    requires DistinctIds(es)
    ensures NoDuplicateRisks(Candidates(kind, es, hits, now)) && OfKinds(Candidates(kind, es, hits, now), {kind})
  {
    CandidatesNoDuplicates(kind, es, hits, now);
  }

  lemma AllCandidatesNoDuplicates(es: seq<Endpoint>, hits: seq<Hit>, now: int)
    requires DistinctIds(es)
    ensures NoDuplicateRisks(AllCandidates(es, hits, now))
  {
    var cd := Candidates(DeadApi, es, hits, now);
    var cu := Candidates(UnsecuredApi, es, hits, now);
    var cs := Candidates(UnstableApi, es, hits, now);
    var cl := Candidates(LowUsageApi, es, hits, now);
    var cz := Candidates(ZombieApi, es, hits, now);
    RuleCandidates(DeadApi, es, hits, now);
    RuleCandidates(UnsecuredApi, es, hits, now);
    RuleCandidates(UnstableApi, es, hits, now);
    RuleCandidates(LowUsageApi, es, hits, now);
    RuleCandidates(ZombieApi, es, hits, now);
    JoinKinds(cd, cu, {DeadApi}, {UnsecuredApi});
    JoinKinds(cd + cu, cs, {DeadApi, UnsecuredApi}, {UnstableApi});
    JoinKinds(cd + cu + cs, cl, {DeadApi, UnsecuredApi, UnstableApi}, {LowUsageApi});
    JoinKinds(cd + cu + cs + cl, cz, {DeadApi, UnsecuredApi, UnstableApi, LowUsageApi}, {ZombieApi});
  }

  /**
   * With distinct endpoint ids the dedup check of a run never rejects an
   * insert: the store holds every candidate of every rule, in rule order.
   */
  lemma DedupNeverRejects(es: seq<Endpoint>, hits: seq<Hit>, now: int)
    requires DistinctIds(es)
    ensures Detected(es, hits, now) == AllCandidates(es, hits, now)
  {
    AllCandidatesNoDuplicates(es, hits, now);
    assert [] + AllCandidates(es, hits, now) == AllCandidates(es, hits, now);
    InsertAllNoClash([], AllCandidates(es, hits, now));
  }

  /** Every candidate of a rule is that rule's verdict on some endpoint of the walk. */
  lemma {:induction false} CandidateOrigin(kind: RiskKind, es: seq<Endpoint>, hits: seq<Hit>, now: int, r: Risk)
    requires r in Candidates(kind, es, hits, now)
    ensures exists e :: e in es && Evaluate(kind, e, hits, now) == Some(r)
  {
    var init, last := es[..|es| - 1], es[|es| - 1];
    if r in Candidates(kind, init, hits, now) {
      CandidateOrigin(kind, init, hits, now, r);
      var e :| e in init && Evaluate(kind, e, hits, now) == Some(r);
      assert e in es;
    } else {
      assert r in Emit(kind, last, hits, now);
    }
  }

  /** A rule that holds for an endpoint of the walk emits its verdict. */
  lemma {:induction false} CandidateComplete(kind: RiskKind, es: seq<Endpoint>, hits: seq<Hit>, now: int, e: Endpoint)
    requires e in es && Holds(kind, e, hits, now)
    ensures Evaluate(kind, e, hits, now).value in Candidates(kind, es, hits, now)
  {
    var init, last := es[..|es| - 1], es[|es| - 1];
    if e == last {
      assert Emit(kind, last, hits, now) == [Evaluate(kind, e, hits, now).value];
    } else {
      assert es == init + [last];
      CandidateComplete(kind, init, hits, now, e);
    }
  }

  /**
   * Every risk a run stores was produced, during that run, by the rule of
   * its kind for an endpoint of the registry; nothing from before the run
   * survives.
   */
  lemma DetectedFromRules(es: seq<Endpoint>, hits: seq<Hit>, now: int, r: Risk)
    requires r in Detected(es, hits, now)
    ensures exists e :: e in es && e.id == r.endpointId && Evaluate(r.kind, e, hits, now) == Some(r)
    ensures r.severity == SeverityOf(r.kind)
  {
    var cd := Candidates(DeadApi, es, hits, now);
    var cu := Candidates(UnsecuredApi, es, hits, now);
    var cs := Candidates(UnstableApi, es, hits, now);
    var cl := Candidates(LowUsageApi, es, hits, now);
    var cz := Candidates(ZombieApi, es, hits, now);
    InsertAllOrigin([], cd + cu + cs + cl + cz, r);
    var kind :=
      if r in cd then DeadApi else if r in cu then UnsecuredApi else if r in cs then UnstableApi
      else if r in cl then LowUsageApi else ZombieApi;
    assert r in Candidates(kind, es, hits, now);
    CandidateOrigin(kind, es, hits, now, r);
    var e :| e in es && Evaluate(kind, e, hits, now) == Some(r);
    assert r.kind == kind;
  }

  lemma SameIdSameEndpoint(es: seq<Endpoint>, a: Endpoint, b: Endpoint)
    requires DistinctIds(es) && a in es && b in es && a.id == b.id
    ensures a == b
  {
    var i :| 0 <= i < |es| && es[i] == a;
    var j :| 0 <= j < |es| && es[j] == b;
    assert i == j;
  }

  /**
   * With distinct endpoint ids, a run stores a risk of a given kind for an
   * endpoint exactly when that kind's rule holds for it, and the stored risk
   * is the rule's verdict.
   */
  lemma FlaggedIff(es: seq<Endpoint>, hits: seq<Hit>, now: int, e: Endpoint, kind: RiskKind, condition: bool)
    requires DistinctIds(es) && e in es
    requires condition == Holds(kind, e, hits, now)
    ensures HasSlot(Detected(es, hits, now), e.id, kind) <==> condition
  {
    var d := Detected(es, hits, now);
    if HasSlot(d, e.id, kind) {
      var k :| 0 <= k < |d| && d[k].endpointId == e.id && d[k].kind == kind;
      StoredRiskIsVerdict(es, hits, now, e, kind);
      assert Evaluate(kind, e, hits, now) == Some(d[k]);
    }
    if Holds(kind, e, hits, now) {
      var r := Evaluate(kind, e, hits, now).value;
      CandidateComplete(kind, es, hits, now, e);
      DedupNeverRejects(es, hits, now);
      assert r in d;
      var k :| 0 <= k < |d| && d[k] == r;
      assert HasSlot(d, e.id, kind);
    }
  }

  /**
   * With distinct ids, the risk a run stores for an endpoint and kind is
   * the one that kind's rule emits for it, figures included.
   */
  lemma StoredRiskIsVerdict(es: seq<Endpoint>, hits: seq<Hit>, now: int, e: Endpoint, kind: RiskKind)
    requires DistinctIds(es) && e in es
    ensures forall r :: r in Detected(es, hits, now) && r.endpointId == e.id && r.kind == kind ==>
      Evaluate(kind, e, hits, now) == Some(r)
  {
    var d := Detected(es, hits, now);
    forall r | r in d && r.endpointId == e.id && r.kind == kind
      ensures Evaluate(kind, e, hits, now) == Some(r)
    {
      DetectedFromRules(es, hits, now, r);
      var e' :| e' in es && e'.id == r.endpointId && Evaluate(r.kind, e', hits, now) == Some(r);
      SameIdSameEndpoint(es, e, e');
    }
  }

  /** A run stores DEAD_API for an endpoint iff it has no hit at or after now - 30 days. */
  lemma DeadApiFlaggedIff(es: seq<Endpoint>, hits: seq<Hit>, now: int, e: Endpoint)
    requires DistinctIds(es) && e in es
    ensures HasSlot(Detected(es, hits, now), e.id, DeadApi)
      <==> !HasHitSince(hits, e.id, now - 30 * DAY_MS)
  {
    FlaggedIff(es, hits, now, e, DeadApi, !HasHitSince(hits, e.id, now - THIRTY_DAYS_MS));
  }

  /**
   * A run stores UNSECURED_API for an endpoint iff its lower-cased path
   * contains a sensitive pattern and some hit, at any time, lacked credentials.
   */
  lemma UnsecuredApiFlaggedIff(es: seq<Endpoint>, hits: seq<Hit>, now: int, e: Endpoint)
    requires DistinctIds(es) && e in es
    ensures HasSlot(Detected(es, hits, now), e.id, UnsecuredApi)
      <==> IsSensitivePath(e.path) && HasUnauthenticatedHit(hits, e.id)
  {
    FlaggedIff(es, hits, now, e, UnsecuredApi, IsSensitivePath(e.path) && HasUnauthenticatedHit(hits, e.id));
  }

  /**
   * A run stores UNSTABLE_API for an endpoint iff it had calls in the last
   * 7 days and more than a fifth of them failed; no calls, no risk.
   */
  lemma UnstableApiFlaggedIff(es: seq<Endpoint>, hits: seq<Hit>, now: int, e: Endpoint)
    requires DistinctIds(es) && e in es
    ensures HasSlot(Detected(es, hits, now), e.id, UnstableApi)
      <==> CountSince(hits, e.id, now - SEVEN_DAYS_MS) > 0
           && 5 * CountErrorsSince(hits, e.id, now - SEVEN_DAYS_MS) > CountSince(hits, e.id, now - SEVEN_DAYS_MS)
  {
    FlaggedIff(es, hits, now, e, UnstableApi,
      CountSince(hits, e.id, now - SEVEN_DAYS_MS) > 0
      && 5 * CountErrorsSince(hits, e.id, now - SEVEN_DAYS_MS) > CountSince(hits, e.id, now - SEVEN_DAYS_MS));
  }

  /** A run stores LOW_USAGE_API for an endpoint iff it had 1 to 9 calls in the last 30 days. */
  lemma LowUsageApiFlaggedIff(es: seq<Endpoint>, hits: seq<Hit>, now: int, e: Endpoint)
    requires DistinctIds(es) && e in es
    ensures HasSlot(Detected(es, hits, now), e.id, LowUsageApi)
      <==> 0 < CountSince(hits, e.id, now - THIRTY_DAYS_MS) < LOW_USAGE_LIMIT
  {
    FlaggedIff(es, hits, now, e, LowUsageApi, 0 < CountSince(hits, e.id, now - THIRTY_DAYS_MS) < LOW_USAGE_LIMIT);
  }

  /** A run stores ZOMBIE_API for an endpoint iff it is deprecated and was called in the last 7 days. */
  lemma ZombieApiFlaggedIff(es: seq<Endpoint>, hits: seq<Hit>, now: int, e: Endpoint)
    requires DistinctIds(es) && e in es
    ensures HasSlot(Detected(es, hits, now), e.id, ZombieApi)
      <==> e.deprecated && CountSince(hits, e.id, now - SEVEN_DAYS_MS) > 0
  {
    FlaggedIff(es, hits, now, e, ZombieApi, e.deprecated && CountSince(hits, e.id, now - SEVEN_DAYS_MS) > 0);
  }

  /**
   * A full run over one sensitive endpoint called once, without
   * credentials, a day ago: it is flagged UNSECURED_API and, having fewer
   * than 10 calls in 30 days, LOW_USAGE_API as well, and nothing else.
   */
  lemma SensitiveEndpointCalledOnce(now: int)
    ensures var e := Endpoint(3, "/admin/x", "GET", false, 0);
      var hits := [Hit(3, now - DAY_MS, 200, 12, false)];
      var rs := Detected([e], hits, now);
      && HasSlot(rs, 3, UnsecuredApi) && HasSlot(rs, 3, LowUsageApi)
      && !HasSlot(rs, 3, DeadApi) && !HasSlot(rs, 3, UnstableApi) && !HasSlot(rs, 3, ZombieApi)
  {
    var e := Endpoint(3, "/admin/x", "GET", false, 0);
    var hits := [Hit(3, now - DAY_MS, 200, 12, false)];
    assert MatchesAt(Lower(e.path), SENSITIVE_PATTERNS[0], 0);
    assert InWindow(hits[0], 3, now - 30 * DAY_MS);
    assert hits[1..] == [];
    assert CountSince(hits, 3, now - 30 * DAY_MS) == 1;
    assert CountSince(hits, 3, now - 7 * DAY_MS) == 1;
    assert CountErrorsSince(hits, 3, now - 7 * DAY_MS) == 0;
    DeadApiFlaggedIff([e], hits, now, e);
    UnsecuredApiFlaggedIff([e], hits, now, e);
    UnstableApiFlaggedIff([e], hits, now, e);
    LowUsageApiFlaggedIff([e], hits, now, e);
    ZombieApiFlaggedIff([e], hits, now, e);
  }

  /**
   * A run never stores DEAD_API beside LOW_USAGE_API, UNSTABLE_API or
   * ZOMBIE_API for the same endpoint.
   */
  lemma DeadExcludesOtherTrafficRisks(es: seq<Endpoint>, hits: seq<Hit>, now: int, e: Endpoint)
    requires DistinctIds(es) && e in es
    requires HasSlot(Detected(es, hits, now), e.id, DeadApi)
    ensures !HasSlot(Detected(es, hits, now), e.id, LowUsageApi)
    ensures !HasSlot(Detected(es, hits, now), e.id, UnstableApi)
    ensures !HasSlot(Detected(es, hits, now), e.id, ZombieApi)
  {
    FlaggedIff(es, hits, now, e, DeadApi, !HasHitSince(hits, e.id, now - THIRTY_DAYS_MS));
    FlaggedIff(es, hits, now, e, LowUsageApi, 0 < CountSince(hits, e.id, now - THIRTY_DAYS_MS) < LOW_USAGE_LIMIT);
    FlaggedIff(es, hits, now, e, UnstableApi,
      CountSince(hits, e.id, now - SEVEN_DAYS_MS) > 0
      && 5 * CountErrorsSince(hits, e.id, now - SEVEN_DAYS_MS) > CountSince(hits, e.id, now - SEVEN_DAYS_MS));
    FlaggedIff(es, hits, now, e, ZombieApi, e.deprecated && CountSince(hits, e.id, now - SEVEN_DAYS_MS) > 0);
    DeadExcludesTrafficRules(e, hits, now);
  }

  // ---------------------------------------------------------------------
  // The engine's operations on the database
  // ---------------------------------------------------------------------

  // One step of each rule's loop, in terms of the figures the loop computes.

  lemma DeadStep(risks: seq<Risk>, es: seq<Endpoint>, i: nat, hits: seq<Hit>, now: int, recentHit: bool)
    requires i < |es| && recentHit == HasHitSince(hits, es[i].id, now - THIRTY_DAYS_MS)
    ensures InsertAll(risks, Candidates(DeadApi, es[..i + 1], hits, now)) ==
      if recentHit then InsertAll(risks, Candidates(DeadApi, es[..i], hits, now))
      else Insert(InsertAll(risks, Candidates(DeadApi, es[..i], hits, now)),
                  Risk(es[i].id, DeadApi, Medium, NotCalledSince(DaysSinceLastHit(hits, es[i].id, now))))
  {
    if recentHit {
      WalkSkip(risks, DeadApi, es, i, hits, now);
    } else {
      DeadVerdict(es[i], hits, now);
      WalkEmit(risks, DeadApi, es, i, hits, now,
               Risk(es[i].id, DeadApi, Medium, NotCalledSince(DaysSinceLastHit(hits, es[i].id, now))));
    }
  }

  lemma UnsecuredStep(risks: seq<Risk>, es: seq<Endpoint>, i: nat, hits: seq<Hit>, now: int, flagged: bool)
    requires i < |es| && flagged == (IsSensitivePath(es[i].path) && HasUnauthenticatedHit(hits, es[i].id))
    ensures InsertAll(risks, Candidates(UnsecuredApi, es[..i + 1], hits, now)) ==
      if flagged then Insert(InsertAll(risks, Candidates(UnsecuredApi, es[..i], hits, now)),
                             Risk(es[i].id, UnsecuredApi, Critical, UnauthenticatedAccess))
      else InsertAll(risks, Candidates(UnsecuredApi, es[..i], hits, now))
  {
    if flagged {
      UnsecuredVerdict(es[i], hits, now);
      WalkEmit(risks, UnsecuredApi, es, i, hits, now, Risk(es[i].id, UnsecuredApi, Critical, UnauthenticatedAccess));
    } else {
      WalkSkip(risks, UnsecuredApi, es, i, hits, now);
    }
  }

  lemma UnstableStep(risks: seq<Risk>, es: seq<Endpoint>, i: nat, hits: seq<Hit>, now: int, errors: nat, calls: nat)
    requires i < |es|
    requires calls == CountSince(hits, es[i].id, now - SEVEN_DAYS_MS)
    requires errors == CountErrorsSince(hits, es[i].id, now - SEVEN_DAYS_MS)
    ensures InsertAll(risks, Candidates(UnstableApi, es[..i + 1], hits, now)) ==
      if calls > 0 && 5 * errors > calls
      then Insert(InsertAll(risks, Candidates(UnstableApi, es[..i], hits, now)),
                  Risk(es[i].id, UnstableApi, High, ErrorRate(errors, calls)))
      else InsertAll(risks, Candidates(UnstableApi, es[..i], hits, now))
  {
    if calls > 0 && 5 * errors > calls {
      UnstableVerdict(es[i], hits, now, errors, calls);
      WalkEmit(risks, UnstableApi, es, i, hits, now, Risk(es[i].id, UnstableApi, High, ErrorRate(errors, calls)));
    } else {
      WalkSkip(risks, UnstableApi, es, i, hits, now);
    }
  }

  lemma LowUsageStep(risks: seq<Risk>, es: seq<Endpoint>, i: nat, hits: seq<Hit>, now: int, calls: nat)
    requires i < |es| && calls == CountSince(hits, es[i].id, now - THIRTY_DAYS_MS)
    ensures InsertAll(risks, Candidates(LowUsageApi, es[..i + 1], hits, now)) ==
      if 0 < calls < LOW_USAGE_LIMIT
      then Insert(InsertAll(risks, Candidates(LowUsageApi, es[..i], hits, now)),
                  Risk(es[i].id, LowUsageApi, Low, FewCalls(calls)))
      else InsertAll(risks, Candidates(LowUsageApi, es[..i], hits, now))
  {
    if 0 < calls < LOW_USAGE_LIMIT {
      LowUsageVerdict(es[i], hits, now, calls);
      WalkEmit(risks, LowUsageApi, es, i, hits, now, Risk(es[i].id, LowUsageApi, Low, FewCalls(calls)));
    } else {
      WalkSkip(risks, LowUsageApi, es, i, hits, now);
    }
  }

  lemma ZombieStep(risks: seq<Risk>, ds: seq<Endpoint>, i: nat, hits: seq<Hit>, now: int, calls: nat)
    requires i < |ds| && ds[i].deprecated && calls == CountSince(hits, ds[i].id, now - SEVEN_DAYS_MS)
    ensures InsertAll(risks, Candidates(ZombieApi, ds[..i + 1], hits, now)) ==
      if calls > 0
      then Insert(InsertAll(risks, Candidates(ZombieApi, ds[..i], hits, now)),
                  Risk(ds[i].id, ZombieApi, Medium, StillCalled(calls)))
      else InsertAll(risks, Candidates(ZombieApi, ds[..i], hits, now))
  {
    if calls > 0 {
      ZombieVerdict(ds[i], hits, now, calls);
      WalkEmit(risks, ZombieApi, ds, i, hits, now, Risk(ds[i].id, ZombieApi, Medium, StillCalled(calls)));
    } else {
      WalkSkip(risks, ZombieApi, ds, i, hits, now);
    }
  }

  /** Inserts `r` unless a risk with the same (endpointId, kind) is stored. */
  method CreateRisk(db: Database, r: Risk)
    modifies db`risks
    ensures HasSlot(old(db.risks), r.endpointId, r.kind) ==> db.risks == old(db.risks)
    ensures !HasSlot(old(db.risks), r.endpointId, r.kind) ==> db.risks == old(db.risks) + [r]
    ensures db.risks == Insert(old(db.risks), r)
    ensures NoDuplicateRisks(old(db.risks)) ==> NoDuplicateRisks(db.risks)
  {
    var existing := HasSlot(db.risks, r.endpointId, r.kind);
    if !existing {
      db.risks := db.risks + [r];
    }
  }

  /** RULE 1: every endpoint with no hit in the last 30 days gets DEAD_API / MEDIUM. */
  method DetectDeadApis(db: Database, now: int)
    modifies db`risks
    ensures db.risks == InsertAll(old(db.risks), Candidates(DeadApi, db.endpoints, db.hits, now))
  {
    var thirtyDaysAgo := now - THIRTY_DAYS_MS;
    var endpoints := db.endpoints;
    for i := 0 to |endpoints|
      invariant db.risks == InsertAll(old(db.risks), Candidates(DeadApi, endpoints[..i], db.hits, now))
    {
      var endpoint := endpoints[i];
      var recentHit := HasHitSince(db.hits, endpoint.id, thirtyDaysAgo);
      DeadStep(old(db.risks), endpoints, i, db.hits, now, recentHit);
      if !recentHit {
        var daysSinceLastHit := DaysSinceLastHit(db.hits, endpoint.id, now);
        CreateRisk(db, Risk(endpoint.id, DeadApi, Medium, NotCalledSince(daysSinceLastHit)));
      }
    }
    assert endpoints[..|endpoints|] == endpoints;
  }

  /** RULE 2: every sensitive endpoint ever called without credentials gets UNSECURED_API / CRITICAL. */
  method DetectUnsecuredApis(db: Database, now: int)
    modifies db`risks
    ensures db.risks == InsertAll(old(db.risks), Candidates(UnsecuredApi, db.endpoints, db.hits, now))
  {
    var endpoints := db.endpoints;
    for i := 0 to |endpoints|
      invariant db.risks == InsertAll(old(db.risks), Candidates(UnsecuredApi, endpoints[..i], db.hits, now))
    {
      var endpoint := endpoints[i];
      var isSensitive := IsSensitivePath(endpoint.path);
      if isSensitive {
        var unauthHit := HasUnauthenticatedHit(db.hits, endpoint.id);
        UnsecuredStep(old(db.risks), endpoints, i, db.hits, now, unauthHit);
        if unauthHit {
          CreateRisk(db, Risk(endpoint.id, UnsecuredApi, Critical, UnauthenticatedAccess));
        }
      } else {
        UnsecuredStep(old(db.risks), endpoints, i, db.hits, now, false);
      }
    }
    assert endpoints[..|endpoints|] == endpoints;
  }

  /** RULE 3: every endpoint whose last-7-days error rate exceeds 20% gets UNSTABLE_API / HIGH. */
  method DetectUnstableApis(db: Database, now: int)
    modifies db`risks
    ensures db.risks == InsertAll(old(db.risks), Candidates(UnstableApi, db.endpoints, db.hits, now))
  {
    var sevenDaysAgo := now - SEVEN_DAYS_MS;
    var endpoints := db.endpoints;
    for i := 0 to |endpoints|
      invariant db.risks == InsertAll(old(db.risks), Candidates(UnstableApi, endpoints[..i], db.hits, now))
    {
      var endpoint := endpoints[i];
      var calls := CountSince(db.hits, endpoint.id, sevenDaysAgo);
      if calls == 0 {
        UnstableStep(old(db.risks), endpoints, i, db.hits, now, CountErrorsSince(db.hits, endpoint.id, sevenDaysAgo), calls);
        continue;
      }
      var errors := CountErrorsSince(db.hits, endpoint.id, sevenDaysAgo);
      UnstableStep(old(db.risks), endpoints, i, db.hits, now, errors, calls);
      if 5 * errors > calls {
        CreateRisk(db, Risk(endpoint.id, UnstableApi, High, ErrorRate(errors, calls)));
      }
    }
    assert endpoints[..|endpoints|] == endpoints;
  }

  /** RULE 4: every endpoint with 1 to 9 calls in the last 30 days gets LOW_USAGE_API / LOW. */
  method DetectLowUsageApis(db: Database, now: int)
    modifies db`risks
    ensures db.risks == InsertAll(old(db.risks), Candidates(LowUsageApi, db.endpoints, db.hits, now))
  {
    var thirtyDaysAgo := now - THIRTY_DAYS_MS;
    var endpoints := db.endpoints;
    for i := 0 to |endpoints|
      invariant db.risks == InsertAll(old(db.risks), Candidates(LowUsageApi, endpoints[..i], db.hits, now))
    {
      var endpoint := endpoints[i];
      var hitCount := CountSince(db.hits, endpoint.id, thirtyDaysAgo);
      LowUsageStep(old(db.risks), endpoints, i, db.hits, now, hitCount);
      if hitCount > 0 && hitCount < LOW_USAGE_LIMIT {
        CreateRisk(db, Risk(endpoint.id, LowUsageApi, Low, FewCalls(hitCount)));
      }
    }
    assert endpoints[..|endpoints|] == endpoints;
  }

  /** RULE 5: every deprecated endpoint called in the last 7 days gets ZOMBIE_API / MEDIUM. */
  method DetectZombieApis(db: Database, now: int)
    modifies db`risks
    ensures db.risks == InsertAll(old(db.risks), Candidates(ZombieApi, db.endpoints, db.hits, now))
  {
    var sevenDaysAgo := now - SEVEN_DAYS_MS;
    var deprecatedEndpoints := Deprecated(db.endpoints);
    for i := 0 to |deprecatedEndpoints|
      invariant db.risks == InsertAll(old(db.risks), Candidates(ZombieApi, deprecatedEndpoints[..i], db.hits, now))
    {
      var endpoint := deprecatedEndpoints[i];
      var recentHits := CountSince(db.hits, endpoint.id, sevenDaysAgo);
      ZombieStep(old(db.risks), deprecatedEndpoints, i, db.hits, now, recentHits);
      if recentHits > 0 {
        CreateRisk(db, Risk(endpoint.id, ZombieApi, Medium, StillCalled(recentHits)));
      }
    }
    assert deprecatedEndpoints[..|deprecatedEndpoints|] == deprecatedEndpoints;
    ZombieCandidatesOnlyDeprecated(db.endpoints, db.hits, now);
  }

  /**
   * Clears the risk store, then runs the five rules in order. The store
   * afterwards depends only on the registry, the hit log and the clock.
   */
  method RunAllAnalyses(db: Database, now: int)
    modifies db`risks
    ensures db.risks == Detected(db.endpoints, db.hits, now)
    ensures NoDuplicateRisks(db.risks)
    ensures DistinctIds(db.endpoints) ==> db.risks == AllCandidates(db.endpoints, db.hits, now)
  {
    db.risks := [];
    DetectDeadApis(db, now);
    DetectUnsecuredApis(db, now);
    DetectUnstableApis(db, now);
    DetectLowUsageApis(db, now);
    DetectZombieApis(db, now);
    var es, hits := db.endpoints, db.hits;
    var cd := Candidates(DeadApi, es, hits, now);
    var cu := Candidates(UnsecuredApi, es, hits, now);
    var cs := Candidates(UnstableApi, es, hits, now);
    var cl := Candidates(LowUsageApi, es, hits, now);
    var cz := Candidates(ZombieApi, es, hits, now);
    InsertAllConcat([], cd, cu);
    InsertAllConcat([], cd + cu, cs);
    InsertAllConcat([], cd + cu + cs, cl);
    InsertAllConcat([], cd + cu + cs + cl, cz);
    if DistinctIds(es) {
      DedupNeverRejects(es, hits, now);
    }
  }

  /** Two runs with the same clock and unchanged traffic leave the same risk store. */
  method RerunIsIdempotent(db: Database, now: int) returns (first: seq<Risk>, second: seq<Risk>)
    modifies db`risks
    ensures first == second == db.risks
  {
    RunAllAnalyses(db, now);
    first := db.risks;
    RunAllAnalyses(db, now);
    second := db.risks;
  }
}
