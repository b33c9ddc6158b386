/**
 * The background worker of internal/worker/worker.go, run sequentially: the promotion step, the
 * per-enrichment orchestrator and the per-job provider walk. The random latency and success draw
 * are replaced by an oracle sequence of draws; the two job runners run one after the other,
 * phone first.
 */
module Worker {
  import opened Wrappers
  import opened Models
  import opened Strings
  import opened Database
  import opened Data

  /** Worker configuration; durations in seconds. */
  datatype Config = Config(pollInterval: int, pendingToInProgressDelay: int, providerSuccessRate: real)

  function DefaultConfig(): (c: Config)
    ensures c.pollInterval == 10 && c.pendingToInProgressDelay == 10 && c.providerSuccessRate == 0.2
  {
    Config(10, 10, 0.2)
  }

  /** The success rate used when the contact hint matches the third-party profile. */
  const BoostedSuccessRate: real := 0.8

  // ---------------------------------------------------------------------------------------------
  // Hint matching

  /** stringSlicesEqual: same length and the same lower-cased elements, counted with multiplicity. */
  predicate SlicesEqual(a: seq<string>, b: seq<string>) {
    |a| == |b| && multiset(LowerAll(a)) == multiset(LowerAll(b))
  }

  /** Counts of a list's elements, as the Go code keeps them in a map. */
  ghost predicate CountsOf(m: map<string, int>, s: seq<string>) {
    && (forall k :: k in m <==> k in multiset(s))
    && (forall k :: k in m ==> m[k] == multiset(s)[k])
  }

  lemma SubsetSameSize(a: set<string>, b: set<string>)
    requires a <= b && |a| == |b|
    ensures a == b
  {
    assert b == a + (b - a);
    assert a * (b - a) == {};
    assert |b - a| == 0;
  }

  /** Counting one more element: its lower-cased key goes up by one. */
  lemma CountsOfStep(m: map<string, int>, s: seq<string>, x: string)
    requires CountsOf(m, LowerAll(s))
    ensures CountsOf(m[ToLower(x) := (if ToLower(x) in m then m[ToLower(x)] else 0) + 1], LowerAll(s + [x]))
  {
    LowerAllConcat(s, [x]);
    assert LowerAll([x]) == [ToLower(x)];
    assert multiset(LowerAll(s + [x])) == multiset(LowerAll(s)) + multiset{ToLower(x)};
  }

  /** One counting loop of stringSlicesEqual: the count of every lower-cased element. */
  method CountLowered(s: seq<string>) returns (m: map<string, int>)
    ensures CountsOf(m, LowerAll(s))
  {
    m := map[];
    for i := 0 to |s|
      invariant CountsOf(m, LowerAll(s[..i]))
    {
      var k := ToLower(s[i]);
      CountsOfStep(m, s[..i], s[i]);
      assert s[..i + 1] == s[..i] + [s[i]];
      m := m[k := (if k in m then m[k] else 0) + 1];
    }
    assert s[..|s|] == s;
  }

  /** Equal multisets have count maps over the same keys. */
  lemma CountsSameKeys(mA: map<string, int>, mB: map<string, int>, a: seq<string>, b: seq<string>)
    requires CountsOf(mA, a) && CountsOf(mB, b) && multiset(a) == multiset(b)
    ensures mA.Keys == mB.Keys
  {
  }

  /** Count maps that agree on every key of the first and have as many keys describe equal multisets. */
  lemma CountsAgree(mA: map<string, int>, mB: map<string, int>, a: seq<string>, b: seq<string>)
    requires CountsOf(mA, a) && CountsOf(mB, b) && |mA| == |mB|
    requires forall k :: k in mA ==> k in mB && mB[k] == mA[k]
    ensures multiset(a) == multiset(b)
  {
    SubsetSameSize(mA.Keys, mB.Keys);
    forall k
      ensures multiset(a)[k] == multiset(b)[k]
    {
      if k in mA {
        assert mB[k] == mA[k];
      }
    }
  }

  /** stringSlicesEqual: count the lower-cased elements of each list and compare the counts. */
  method StringSlicesEqual(a: seq<string>, b: seq<string>) returns (eq: bool)
    ensures eq == SlicesEqual(a, b)
  {
    if |a| != |b| {
      return false;
    }
    var mapA := CountLowered(a);
    var mapB := CountLowered(b);
    if |mapA| != |mapB| {
      assert !SlicesEqual(a, b) by {
        if SlicesEqual(a, b) {
          CountsSameKeys(mapA, mapB, LowerAll(a), LowerAll(b));
        }
      }
      return false;
    }
    var keys := mapA.Keys;
    while keys != {}
      invariant keys <= mapA.Keys
      invariant forall k :: k in mapA && k !in keys ==> k in mapB && mapB[k] == mapA[k]
      decreases |keys|
    {
      var k :| k in keys;
      if (if k in mapB then mapB[k] else 0) != mapA[k] {
        assert multiset(LowerAll(a))[k] != multiset(LowerAll(b))[k];
        return false;
      }
      keys := keys - {k};
    }
    CountsAgree(mapA, mapB, LowerAll(a), LowerAll(b));
    eq := true;
  }

  /** The comparison is symmetric. */
  lemma SlicesEqualSymmetric(a: seq<string>, b: seq<string>)
    ensures SlicesEqual(a, b) == SlicesEqual(b, a)
  {
  }

  /** Reordering either list does not change the outcome. */
  lemma SlicesEqualIgnoresOrder(a: seq<string>, a': seq<string>, b: seq<string>)
    requires multiset(a) == multiset(a')
    ensures SlicesEqual(a, b) == SlicesEqual(a', b)
  {
    LowerAllPermutation(a, a');
    assert |a| == |multiset(a)| == |multiset(a')| == |a'|;
  }

  /** Changing the case of the elements does not change the outcome. */
  lemma SlicesEqualIgnoresCase(a: seq<string>)
    ensures SlicesEqual(LowerAll(a), a)
  {
    forall i | 0 <= i < |a|
      ensures LowerAll(LowerAll(a))[i] == LowerAll(a)[i]
    {
      ToLowerIdempotent(a[i]);
    }
    assert LowerAll(LowerAll(a)) == LowerAll(a);
  }

  /**
   * contactInfoMatches: every non-empty scalar field of the hint equals the profile's
   * (case-sensitively) and every non-empty list of the hint is SlicesEqual to the profile's.
   */
  function ContactInfoMatches(c: EnrichmentContactInfo, p: ThirdPartyInfo): (r: bool)
    ensures r <==>
      && (c.linkedInUrl == "" || c.linkedInUrl == p.linkedInUrl)
      && (c.twitterHandle == "" || c.twitterHandle == p.twitterHandle)
      && (c.gitHubUsername == "" || c.gitHubUsername == p.gitHubUsername)
      && (c.bio == "" || c.bio == p.bio)
      && (c.location == "" || c.location == p.location)
      && (|c.skills| == 0 || SlicesEqual(c.skills, p.skills))
      && (|c.companies| == 0 || SlicesEqual(c.companies, p.companies))
  {
    if c.linkedInUrl != "" && c.linkedInUrl != p.linkedInUrl then false
    else if c.twitterHandle != "" && c.twitterHandle != p.twitterHandle then false
    else if c.gitHubUsername != "" && c.gitHubUsername != p.gitHubUsername then false
    else if c.bio != "" && c.bio != p.bio then false
    else if c.location != "" && c.location != p.location then false
    else if |c.skills| > 0 && !SlicesEqual(c.skills, p.skills) then false
    else if |c.companies| > 0 && !SlicesEqual(c.companies, p.companies) then false
    else true
  }

  /** A hint with every field empty matches every profile. */
  lemma EmptyHintMatches(p: ThirdPartyInfo)
    ensures ContactInfoMatches(EnrichmentContactInfo("", "", "", "", "", [], []), p)
  {
  }

  /** A hint copied from the profile, with its lists in any order, matches it. */
  lemma HintFromProfileMatches(p: ThirdPartyInfo, skills: seq<string>, companies: seq<string>)
    requires multiset(skills) == multiset(p.skills) && multiset(companies) == multiset(p.companies)
    ensures ContactInfoMatches(EnrichmentContactInfo(p.linkedInUrl, p.twitterHandle, p.gitHubUsername,
                                                     p.bio, p.location, skills, companies), p)
  {
    SlicesEqualIgnoresOrder(p.skills, skills, p.skills);
    SlicesEqualIgnoresOrder(p.companies, companies, p.companies);
  }

  /** The success rate of a run: boosted exactly when a hint was given and matches the contact's profile. */
  function EffectiveSuccessRate(config: Config, thirdParty: map<string, ThirdPartyInfo>, contact: Contact,
                                hint: Option<EnrichmentContactInfo>): (rate: real)
    ensures rate == BoostedSuccessRate || rate == config.providerSuccessRate
    ensures hint.None? ==> rate == config.providerSuccessRate
    ensures rate == BoostedSuccessRate && config.providerSuccessRate != BoostedSuccessRate ==>
              hint.Some? && LookupThirdParty(thirdParty, contact.firstName + " " + contact.lastName).Some?
    ensures var info := LookupThirdParty(thirdParty, contact.firstName + " " + contact.lastName);
            hint.Some? && info.Some? && ContactInfoMatches(hint.value, info.value) ==> rate == BoostedSuccessRate
    ensures var info := LookupThirdParty(thirdParty, contact.firstName + " " + contact.lastName);
            !(hint.Some? && info.Some? && ContactInfoMatches(hint.value, info.value)) ==>
              rate == config.providerSuccessRate
  {
    if hint.None? then config.providerSuccessRate
    else
      var info := LookupThirdParty(thirdParty, contact.firstName + " " + contact.lastName);
      if info.Some? && ContactInfoMatches(hint.value, info.value) then BoostedSuccessRate
      else config.providerSuccessRate
  }

  // ---------------------------------------------------------------------------------------------
  // The provider walk of one job, on values

  /** The store and the directory's contacts: what the worker writes. */
  datatype World = World(records: Table, contacts: map<string, Contact>)

  /** The oracle's success draw for the provider at index i; a missing draw is a failure. */
  function Draw(draws: seq<bool>, i: nat): bool {
    i < |draws| && draws[i]
  }

  /** The value a successful draw yields for the job: the ground truth, "" when there is none. */
  function Discovered(data: map<string, FindableData>, contactId: string, jobType: string): (v: string)
    ensures v != "" ==> contactId in data && (jobType == "phone" || jobType == "email")
    ensures v != "" && jobType == "phone" ==> v == data[contactId].phone
    ensures v != "" && jobType == "email" ==> v == data[contactId].email
    ensures contactId in data && jobType == "phone" ==> v == data[contactId].phone
    ensures contactId in data && jobType == "email" ==> v == data[contactId].email
    ensures contactId !in data || (jobType != "phone" && jobType != "email") ==> v == ""
  {
    if contactId !in data then ""
    else if jobType == "phone" then data[contactId].phone
    else if jobType == "email" then data[contactId].email
    else ""
  }

  /** The runner's exit test: the row is gone, failed, or its job is already completed. */
  predicate RunnerStops(t: Table, id: string, jobType: string) {
    id !in t || t[id].status == Failed || jobType in t[id].completedJobs
  }

  /** The contact update after a find. */
  function ContactAfterFind(contacts: map<string, Contact>, contactId: string, jobType: string, value: string)
    : map<string, Contact>
  {
    if jobType == "phone" then WithContactPhone(contacts, contactId, value)
    else if jobType == "email" then WithContactEmail(contacts, contactId, value)
    else contacts
  }

  /** The writes after a find: result field, provider, contact, completion, provider cleared. */
  function RecordFind(t: Table, contacts: map<string, Contact>, id: string, contact: Contact, jobType: string,
                      provider: Provider, value: string, now: int): World
  {
    var t1 := WithResultField(t, id, jobType, value);
    var t2 := WithJobProvider(t1, id, InProgress, None, Some(provider.id), jobType, now);
    var c := ContactAfterFind(contacts, contact.id, jobType, value);
    var t3 := AddCompletedJobSpec(t2, id, jobType, now);
    World(WithJobProvider(t3, id, InProgress, None, None, jobType, now), c)
  }

  /** processJobForEnrichment from the provider at index i on. */
  function RunFrom(w: World, data: map<string, FindableData>, id: string, contact: Contact, jobType: string,
                   providers: seq<Provider>, draws: seq<bool>, now: int, i: nat): World
    decreases |providers| - i
  {
    if i >= |providers| || RunnerStops(w.records, id, jobType) then w
    else
      var t1 := WithJobProvider(w.records, id, InProgress, None, Some(providers[i].id), jobType, now);
      var value := if Draw(draws, i) then Discovered(data, contact.id, jobType) else "";
      if value == "" then RunFrom(World(t1, w.contacts), data, id, contact, jobType, providers, draws, now, i + 1)
      else RecordFind(t1, w.contacts, id, contact, jobType, providers[i], value, now)
  }

  /** processJobForEnrichment over the whole provider list. */
  function RunJob(w: World, data: map<string, FindableData>, id: string, contact: Contact, jobType: string,
                  providers: seq<Provider>, draws: seq<bool>, now: int): World
  {
    RunFrom(w, data, id, contact, jobType, providers, draws, now, 0)
  }

  /** A runner that must stop writes nothing. */
  lemma RunJobStopsWithoutWrite(w: World, data: map<string, FindableData>, id: string, contact: Contact,
                                jobType: string, providers: seq<Provider>, draws: seq<bool>, now: int)
    requires RunnerStops(w.records, id, jobType)
    ensures RunJob(w, data, id, contact, jobType, providers, draws, now) == w
  {
  }

  /** Two provider writes in a row for the same job: the second wins. */
  lemma WithJobProviderTwice(t: Table, id: string, status: EnrichmentStatus, result: Option<EnrichmentResult>,
                             p1: Option<string>, p2: Option<string>, jobType: string, now: int)
    ensures WithJobProvider(WithJobProvider(t, id, status, result, p1, jobType, now), id, status, result, p2, jobType, now)
         == WithJobProvider(t, id, status, result, p2, jobType, now)
  {
  }

  /** The runner's own provider write never makes it stop. */
  lemma ProviderWriteKeepsRunning(t: Table, id: string, providerId: Option<string>, jobType: string, now: int)
    requires !RunnerStops(t, id, jobType)
    ensures !RunnerStops(WithJobProvider(t, id, InProgress, None, providerId, jobType, now), id, jobType)
  {
  }

  /**
   * When no draw from index i on yields a value, the runner visits every remaining provider and
   * leaves the last one as the job's provider, with status in_progress and the result cleared;
   * it completes nothing and touches no contact.
   */
  lemma {:induction false} RunFromAllMiss(w: World, data: map<string, FindableData>, id: string, contact: Contact,
                                          jobType: string, providers: seq<Provider>, draws: seq<bool>, now: int, i: nat)
    requires i < |providers| && !RunnerStops(w.records, id, jobType)
    requires forall m :: i <= m < |providers| && Draw(draws, m) ==> Discovered(data, contact.id, jobType) == ""
    ensures RunFrom(w, data, id, contact, jobType, providers, draws, now, i)
         == World(WithJobProvider(w.records, id, InProgress, None, Some(providers[|providers| - 1].id), jobType, now),
                  w.contacts)
    decreases |providers| - i
  {
    var t1 := WithJobProvider(w.records, id, InProgress, None, Some(providers[i].id), jobType, now);
    MissStep(w, data, id, contact, jobType, providers, draws, now, i);
    if i + 1 < |providers| {
      ProviderWriteKeepsRunning(w.records, id, Some(providers[i].id), jobType, now);
      RunFromAllMiss(World(t1, w.contacts), data, id, contact, jobType, providers, draws, now, i + 1);
      WithJobProviderTwice(w.records, id, InProgress, None, Some(providers[i].id),
                           Some(providers[|providers| - 1].id), jobType, now);
    }
  }


  /**
   * The runner stops at the first provider, in list order, whose draw yields a value: all earlier
   * providers were visited and missed, and the find is recorded for that provider.
   */
  lemma {:induction false} RunFromFirstHit(w: World, data: map<string, FindableData>, id: string, contact: Contact,
                                           jobType: string, providers: seq<Provider>, draws: seq<bool>, now: int,
                                           i: nat, k: nat)
    requires i <= k < |providers| && !RunnerStops(w.records, id, jobType)
    requires Draw(draws, k) && Discovered(data, contact.id, jobType) != ""
    requires forall m :: i <= m < k ==> !Draw(draws, m)
    ensures RunFrom(w, data, id, contact, jobType, providers, draws, now, i)
         == RecordFind(WithJobProvider(w.records, id, InProgress, None, Some(providers[k].id), jobType, now),
                       w.contacts, id, contact, jobType, providers[k], Discovered(data, contact.id, jobType), now)
    decreases k - i
  {
    var t1 := WithJobProvider(w.records, id, InProgress, None, Some(providers[i].id), jobType, now);
    if i < k {
      MissStep(w, data, id, contact, jobType, providers, draws, now, i);
      ProviderWriteKeepsRunning(w.records, id, Some(providers[i].id), jobType, now);
      RunFromFirstHit(World(t1, w.contacts), data, id, contact, jobType, providers, draws, now, i + 1, k);
      WithJobProviderTwice(w.records, id, InProgress, None, Some(providers[i].id), Some(providers[k].id), jobType, now);
    } else {
      HitStep(w, data, id, contact, jobType, providers, draws, now, i);
    }
  }

  /** One step of the walk on a missed draw: the provider is recorded and the walk moves on. */
  lemma MissStep(w: World, data: map<string, FindableData>, id: string, contact: Contact,
                 jobType: string, providers: seq<Provider>, draws: seq<bool>, now: int, i: nat)
    requires i < |providers| && !RunnerStops(w.records, id, jobType)
    requires !Draw(draws, i) || Discovered(data, contact.id, jobType) == ""
    ensures RunFrom(w, data, id, contact, jobType, providers, draws, now, i)
         == RunFrom(World(WithJobProvider(w.records, id, InProgress, None, Some(providers[i].id), jobType, now), w.contacts),
                    data, id, contact, jobType, providers, draws, now, i + 1)
  {
  }

  /** One step of the walk on a draw that yields a value: the provider is recorded and the find written. */
  lemma HitStep(w: World, data: map<string, FindableData>, id: string, contact: Contact,
                jobType: string, providers: seq<Provider>, draws: seq<bool>, now: int, i: nat)
    requires i < |providers| && !RunnerStops(w.records, id, jobType)
    requires Draw(draws, i) && Discovered(data, contact.id, jobType) != ""
    ensures RunFrom(w, data, id, contact, jobType, providers, draws, now, i)
         == RecordFind(WithJobProvider(w.records, id, InProgress, None, Some(providers[i].id), jobType, now),
                       w.contacts, id, contact, jobType, providers[i], Discovered(data, contact.id, jobType), now)
  {
  }

  /** Draws after the first hit are never consulted. */
  lemma LaterDrawsIrrelevant(w: World, data: map<string, FindableData>, id: string, contact: Contact,
                             jobType: string, providers: seq<Provider>, draws: seq<bool>, now: int, k: nat)
    requires k < |providers| && !RunnerStops(w.records, id, jobType)
    requires Draw(draws, k) && Discovered(data, contact.id, jobType) != ""
    requires forall m :: 0 <= m < k ==> !Draw(draws, m)
    ensures RunJob(w, data, id, contact, jobType, providers, draws, now)
         == RunJob(w, data, id, contact, jobType, providers, draws[..k + 1], now)
  {
    RunFromFirstHit(w, data, id, contact, jobType, providers, draws, now, 0, k);
    var prefix := draws[..k + 1];
    assert Draw(prefix, k);
    forall m | 0 <= m < k
      ensures !Draw(prefix, m)
    {
      assert Draw(prefix, m) == Draw(draws, m);
    }
    RunFromFirstHit(w, data, id, contact, jobType, providers, prefix, now, 0, k);
  }

  /**
   * What a recorded find leaves, as the code is written: the job is completed once, the contact
   * gets the value, but the two provider writes that follow store a NULL result and status
   * in_progress, so the found value is not kept and a completed row is reopened.
   */
  lemma RecordFindOutcome(t: Table, contacts: map<string, Contact>, id: string, contact: Contact, jobType: string,
                          provider: Provider, value: string, now: int)
    requires id in t && jobType !in t[id].completedJobs
    requires jobType == "phone" || jobType == "email"
    ensures var w' := RecordFind(t, contacts, id, contact, jobType, provider, value, now);
      && w'.records.Keys == t.Keys
      && (forall k :: k in t && k != id ==> w'.records[k] == t[k])
      && w'.records[id].completedJobs == t[id].completedJobs + [jobType]
      && w'.records[id].status == InProgress
      && w'.records[id].result.None?
      && (jobType == "phone" ==> w'.records[id].phoneProviderId.None?)
      && (jobType == "email" ==> w'.records[id].emailProviderId.None?)
      && (jobType == "phone" ==> w'.contacts == WithContactPhone(contacts, contact.id, value))
      && (jobType == "email" ==> w'.contacts == WithContactEmail(contacts, contact.id, value))
  {
  }

  // ---------------------------------------------------------------------------------------------
  // Row evolution under the worker's writes

  /**
   * How a row may change under the worker's writes: same rows, other rows untouched, and the row
   * keeps its user, creation time, static flag and requested jobs while completedJobs only grows
   * at its end.
   */
  ghost predicate Evolves(t: Table, t': Table, id: string) {
    && t'.Keys == t.Keys
    && (forall k :: k in t && k != id ==> t'[k] == t[k])
    && (id in t ==>
          && t'[id].userId == t[id].userId && t'[id].createdAt == t[id].createdAt
          && t'[id].isStatic == t[id].isStatic && t'[id].jobs == t[id].jobs
          && t[id].completedJobs <= t'[id].completedJobs)
  }

  /** Every completed job of the row is one of its requested jobs. */
  ghost predicate CompletedAreRequested(t: Table, id: string) {
    id in t ==> forall j :: j in t[id].completedJobs ==> j in RequestedJobs(t[id])
  }

  lemma EvolvesTrans(t1: Table, t2: Table, t3: Table, id: string)
    requires Evolves(t1, t2, id) && Evolves(t2, t3, id)
    ensures Evolves(t1, t3, id)
  {
  }

  /** A provider write keeps the row's identity and its completed jobs. */
  lemma WithJobProviderEvolves(t: Table, id: string, status: EnrichmentStatus, result: Option<EnrichmentResult>,
                               providerId: Option<string>, jobType: string, now: int)
    ensures var t' := WithJobProvider(t, id, status, result, providerId, jobType, now);
      Evolves(t, t', id) && (CompletedAreRequested(t, id) ==> CompletedAreRequested(t', id))
  {
    if id in t {
      WithJobProviderColumns(t, id, status, result, providerId, jobType, now);
    }
  }

  /** A result-field write keeps the row's identity and its completed jobs. */
  lemma WithResultFieldEvolves(t: Table, id: string, jobType: string, value: string)
    ensures var t' := WithResultField(t, id, jobType, value);
      Evolves(t, t', id) && (CompletedAreRequested(t, id) ==> CompletedAreRequested(t', id))
  {
  }

  /** Completing a requested job keeps the row's identity and only appends to completedJobs. */
  lemma AddCompletedJobEvolves(t: Table, id: string, jobType: string, now: int)
    ensures var t' := AddCompletedJobSpec(t, id, jobType, now);
      && Evolves(t, t', id)
      && (id in t ==> jobType in t'[id].completedJobs)
      && (CompletedAreRequested(t, id) && (id in t ==> jobType in RequestedJobs(t[id])) ==>
            CompletedAreRequested(t', id))
  {
  }

  /** A runner for a requested job keeps the row's identity, never shrinks completedJobs, and completes only requested jobs. */
  lemma {:induction false} RunFromEvolves(w: World, data: map<string, FindableData>, id: string, contact: Contact,
                                          jobType: string, providers: seq<Provider>, draws: seq<bool>, now: int, i: nat)
    requires id in w.records ==> jobType in RequestedJobs(w.records[id])
    ensures var w' := RunFrom(w, data, id, contact, jobType, providers, draws, now, i);
      Evolves(w.records, w'.records, id)
      && (CompletedAreRequested(w.records, id) ==> CompletedAreRequested(w'.records, id))
    decreases |providers| - i
  {
    if i < |providers| && !RunnerStops(w.records, id, jobType) {
      var t1 := WithJobProvider(w.records, id, InProgress, None, Some(providers[i].id), jobType, now);
      WithJobProviderEvolves(w.records, id, InProgress, None, Some(providers[i].id), jobType, now);
      var value := if Draw(draws, i) then Discovered(data, contact.id, jobType) else "";
      if value == "" {
        RunFromEvolves(World(t1, w.contacts), data, id, contact, jobType, providers, draws, now, i + 1);
        EvolvesTrans(w.records, t1, RunFrom(World(t1, w.contacts), data, id, contact, jobType, providers, draws, now, i + 1).records, id);
      } else {
        var t2 := WithResultField(t1, id, jobType, value);
        WithResultFieldEvolves(t1, id, jobType, value);
        var t3 := WithJobProvider(t2, id, InProgress, None, Some(providers[i].id), jobType, now);
        WithJobProviderEvolves(t2, id, InProgress, None, Some(providers[i].id), jobType, now);
        var t4 := AddCompletedJobSpec(t3, id, jobType, now);
        AddCompletedJobEvolves(t3, id, jobType, now);
        WithJobProviderEvolves(t4, id, InProgress, None, None, jobType, now);
        EvolvesTrans(w.records, t1, t2, id);
        EvolvesTrans(w.records, t2, t3, id);
        EvolvesTrans(w.records, t3, t4, id);
        EvolvesTrans(w.records, t4, WithJobProvider(t4, id, InProgress, None, None, jobType, now), id);
      }
    }
  }

  // ---------------------------------------------------------------------------------------------
  // The orchestrator, on values

  /** The closure after both runners: force an empty result and a completion for each unfinished requested job. */
  function CloseUnfinished(t: Table, id: string, needsPhone: bool, needsEmail: bool, now: int): Table {
    if id !in t then t
    else
      var done := t[id].completedJobs;
      var t1 := if needsPhone && "phone" !in done then CloseJob(t, id, "phone", now) else t;
      if needsEmail && "email" !in done then CloseJob(t1, id, "email", now) else t1
  }

  /** processEnrichmentThroughProviders, sequentialised: phone runner, email runner, then the closure. */
  function Process(w: World, data: map<string, FindableData>, providers: seq<Provider>, id: string, userId: string,
                   phoneDraws: seq<bool>, emailDraws: seq<bool>, now: int): World
  {
    if userId !in w.contacts || id !in w.records || |providers| == 0 then
      World(WithStatus(w.records, id, Failed, None, now), w.contacts)
    else
      var contact := w.contacts[userId];
      var jobs := RequestedJobs(w.records[id]);
      var needsPhone, needsEmail := "phone" in jobs, "email" in jobs;
      var w1 := if needsPhone then RunJob(w, data, id, contact, "phone", providers, phoneDraws, now) else w;
      var w2 := if needsEmail then RunJob(w1, data, id, contact, "email", providers, emailDraws, now) else w1;
      World(CloseUnfinished(w2.records, id, needsPhone, needsEmail, now), w2.contacts)
  }

  /** An unknown contact, a missing row or an empty provider list fails the row and starts no runner. */
  lemma ProcessFailsEarly(w: World, data: map<string, FindableData>, providers: seq<Provider>, id: string,
                          userId: string, phoneDraws: seq<bool>, emailDraws: seq<bool>, now: int)
    requires userId !in w.contacts || id !in w.records || |providers| == 0
    ensures var w' := Process(w, data, providers, id, userId, phoneDraws, emailDraws, now);
      && w'.contacts == w.contacts
      && w'.records.Keys == w.records.Keys
      && (forall k :: k in w.records && k != id ==> w'.records[k] == w.records[k])
      && (id in w.records ==>
            w'.records[id] == w.records[id].(status := Failed, updatedAt := now, result := None, currentProviderId := None))
  {
  }

  /** One closure step: an empty result entry for the job, then its completion. */
  function CloseJob(t: Table, id: string, jobType: string, now: int): Table {
    AddCompletedJobSpec(WithResultField(t, id, jobType, ""), id, jobType, now)
  }

  lemma CloseJobEvolves(t: Table, id: string, jobType: string, now: int)
    ensures var t' := CloseJob(t, id, jobType, now);
      && Evolves(t, t', id)
      && (id in t ==> jobType in t'[id].completedJobs)
      && (CompletedAreRequested(t, id) && (id in t ==> jobType in RequestedJobs(t[id])) ==>
            CompletedAreRequested(t', id))
  {
    WithResultFieldEvolves(t, id, jobType, "");
    AddCompletedJobEvolves(WithResultField(t, id, jobType, ""), id, jobType, now);
    EvolvesTrans(t, WithResultField(t, id, jobType, ""), CloseJob(t, id, jobType, now), id);
  }

  /** One closure step leaves its job a present, empty result entry and keeps the other job's entry. */
  lemma CloseJobResult(t: Table, id: string, jobType: string, now: int)
    requires id in t && (jobType == "phone" || jobType == "email")
    ensures var t' := CloseJob(t, id, jobType, now);
      && id in t'
      && t'[id].result.Some? && ResultEntry(t'[id].result, jobType) == ""
      && (jobType == "phone" ==> ResultEntry(t'[id].result, "email") == ResultEntry(t[id].result, "email"))
      && (jobType == "email" ==> ResultEntry(t'[id].result, "phone") == ResultEntry(t[id].result, "phone"))
  {
    AddCompletedJobCases(WithResultField(t, id, jobType, ""), id, jobType, now);
  }

  /**
   * The closure completes every requested phone/email job and keeps the row's identity; every job
   * it closes is left with a present, empty result entry.
   */
  lemma CloseUnfinishedCompletes(t: Table, id: string, needsPhone: bool, needsEmail: bool, now: int)
    requires id in t
    requires needsPhone ==> "phone" in RequestedJobs(t[id])
    requires needsEmail ==> "email" in RequestedJobs(t[id])
    ensures var t' := CloseUnfinished(t, id, needsPhone, needsEmail, now);
      && Evolves(t, t', id)
      && (needsPhone ==> "phone" in t'[id].completedJobs)
      && (needsEmail ==> "email" in t'[id].completedJobs)
      && (CompletedAreRequested(t, id) ==> CompletedAreRequested(t', id))
      && (needsPhone && "phone" !in t[id].completedJobs ==>
            t'[id].result.Some? && ResultEntry(t'[id].result, "phone") == "")
      && (needsEmail && "email" !in t[id].completedJobs ==>
            t'[id].result.Some? && ResultEntry(t'[id].result, "email") == "")
  {
    var done := t[id].completedJobs;
    var t1 := if needsPhone && "phone" !in done then CloseJob(t, id, "phone", now) else t;
    CloseJobEvolves(t, id, "phone", now);
    var t2 := if needsEmail && "email" !in done then CloseJob(t1, id, "email", now) else t1;
    CloseJobEvolves(t1, id, "email", now);
    if needsPhone && "phone" !in done {
      CloseJobResult(t, id, "phone", now);
    }
    if needsEmail && "email" !in done {
      CloseJobResult(t1, id, "email", now);
    }
    EvolvesTrans(t, t1, t2, id);
    assert t2 == CloseUnfinished(t, id, needsPhone, needsEmail, now);
  }

  /**
   * After a run on a known contact, an existing row and a non-empty provider list, every requested
   * phone/email job is in completedJobs, completedJobs has only grown and holds only requested jobs,
   * and no other row changed.
   */
  lemma ProcessCompletesRequestedJobs(w: World, data: map<string, FindableData>, providers: seq<Provider>, id: string,
                                      userId: string, phoneDraws: seq<bool>, emailDraws: seq<bool>, now: int)
    requires userId in w.contacts && id in w.records && |providers| > 0
    ensures var w' := Process(w, data, providers, id, userId, phoneDraws, emailDraws, now);
      && Evolves(w.records, w'.records, id)
      && ("phone" in RequestedJobs(w.records[id]) ==> "phone" in w'.records[id].completedJobs)
      && ("email" in RequestedJobs(w.records[id]) ==> "email" in w'.records[id].completedJobs)
      && (CompletedAreRequested(w.records, id) ==> CompletedAreRequested(w'.records, id))
  {
    var contact := w.contacts[userId];
    var jobs := RequestedJobs(w.records[id]);
    var needsPhone, needsEmail := "phone" in jobs, "email" in jobs;
    var w1 := if needsPhone then RunJob(w, data, id, contact, "phone", providers, phoneDraws, now) else w;
    if needsPhone {
      RunFromEvolves(w, data, id, contact, "phone", providers, phoneDraws, now, 0);
    }
    var w2 := if needsEmail then RunJob(w1, data, id, contact, "email", providers, emailDraws, now) else w1;
    if needsEmail {
      RunFromEvolves(w1, data, id, contact, "email", providers, emailDraws, now, 0);
    }
    EvolvesTrans(w.records, w1.records, w2.records, id);
    CloseUnfinishedCompletes(w2.records, id, needsPhone, needsEmail, now);
    EvolvesTrans(w.records, w2.records, CloseUnfinished(w2.records, id, needsPhone, needsEmail, now), id);
  }

  /**
   * A phone-only enrichment whose phone is never found ends completed, with an empty (not absent)
   * phone result and every provider pointer cleared.
   */
  lemma PhoneExhaustedEndsCompletedEmpty(w: World, data: map<string, FindableData>, providers: seq<Provider>,
                                         id: string, userId: string, phoneDraws: seq<bool>, emailDraws: seq<bool>,
                                         now: int)
    requires userId in w.contacts && id in w.records && |providers| > 0
    requires w.records[id].status == InProgress && w.records[id].completedJobs == []
    requires RequestedJobs(w.records[id]) == ["phone"]
    requires forall m :: 0 <= m < |providers| && Draw(phoneDraws, m) ==>
               Discovered(data, w.contacts[userId].id, "phone") == ""
    ensures id in Process(w, data, providers, id, userId, phoneDraws, emailDraws, now).records
    ensures var e := Process(w, data, providers, id, userId, phoneDraws, emailDraws, now).records[id];
      && e.status == Completed
      && e.completedJobs == ["phone"]
      && e.result.Some? && e.result.value.phone == ""
      && e.currentProviderId.None? && e.phoneProviderId.None? && e.emailProviderId.None?
  {
    var contact := w.contacts[userId];
    ProcessCompletesRequestedJobs(w, data, providers, id, userId, phoneDraws, emailDraws, now);
    RunFromAllMiss(w, data, id, contact, "phone", providers, phoneDraws, now, 0);
  }

  /**
   * As written, a phone-only enrichment whose phone is found does not end completed: the provider
   * write after AddCompletedJob puts status back to in_progress, and the found value is not kept
   * in the result. The value reaches the contact only.
   */
  lemma PhoneFoundEndsInProgress(w: World, data: map<string, FindableData>, providers: seq<Provider>,
                                 id: string, userId: string, phoneDraws: seq<bool>, emailDraws: seq<bool>,
                                 now: int, k: nat)
    requires userId in w.contacts && id in w.records
    requires w.records[id].status == InProgress && w.records[id].completedJobs == []
    requires RequestedJobs(w.records[id]) == ["phone"]
    requires k < |providers| && Draw(phoneDraws, k) && forall m :: 0 <= m < k ==> !Draw(phoneDraws, m)
    requires Discovered(data, w.contacts[userId].id, "phone") != ""
    ensures id in Process(w, data, providers, id, userId, phoneDraws, emailDraws, now).records
    ensures var w' := Process(w, data, providers, id, userId, phoneDraws, emailDraws, now);
      && w'.records[id].status == InProgress
      && w'.records[id].completedJobs == ["phone"]
      && w'.records[id].result.None?
      && w'.contacts == WithContactPhone(w.contacts, w.contacts[userId].id, Discovered(data, w.contacts[userId].id, "phone"))
  {
    var contact := w.contacts[userId];
    ProcessCompletesRequestedJobs(w, data, providers, id, userId, phoneDraws, emailDraws, now);
    RunFromFirstHit(w, data, id, contact, "phone", providers, phoneDraws, now, 0, k);
    var t1 := WithJobProvider(w.records, id, InProgress, None, Some(providers[k].id), "phone", now);
    RecordFindOutcome(t1, w.contacts, id, contact, "phone", providers[k], Discovered(data, contact.id, "phone"), now);
  }

  /**
   * Phone found, email absent from the ground truth, both requested: the row ends completed with
   * both jobs done, but the phone value is not in the stored result (both entries are empty):
   * the phone runner's own provider writes after the find store a NULL result, and the closure's
   * empty email entry then creates a result whose phone entry is empty.
   */
  lemma PhoneFoundEmailMissing(w: World, data: map<string, FindableData>, providers: seq<Provider>,
                               id: string, userId: string, phoneDraws: seq<bool>, emailDraws: seq<bool>,
                               now: int, k: nat)
    requires userId in w.contacts && id in w.records
    requires w.records[id].status == InProgress && w.records[id].completedJobs == []
    requires RequestedJobs(w.records[id]) == ["phone", "email"]
    requires k < |providers| && Draw(phoneDraws, k) && forall m :: 0 <= m < k ==> !Draw(phoneDraws, m)
    requires Discovered(data, w.contacts[userId].id, "phone") != ""
    requires Discovered(data, w.contacts[userId].id, "email") == ""
    ensures id in Process(w, data, providers, id, userId, phoneDraws, emailDraws, now).records
    ensures var e := Process(w, data, providers, id, userId, phoneDraws, emailDraws, now).records[id];
      && e.status == Completed
      && e.completedJobs == ["phone", "email"]
      && e.result == Some(EnrichmentResult("", ""))
  {
    var contact := w.contacts[userId];
    ProcessCompletesRequestedJobs(w, data, providers, id, userId, phoneDraws, emailDraws, now);
    var phone := Discovered(data, contact.id, "phone");
    RunFromFirstHit(w, data, id, contact, "phone", providers, phoneDraws, now, 0, k);
    var t1 := WithJobProvider(w.records, id, InProgress, None, Some(providers[k].id), "phone", now);
    RecordFindOutcome(t1, w.contacts, id, contact, "phone", providers[k], phone, now);
    EmailMissThenClose(RecordFind(t1, w.contacts, id, contact, "phone", providers[k], phone, now),
                       data, id, contact, providers, emailDraws, now);
  }

  /** The second half of the scenario above: the email runner misses everywhere, then the closure runs. */
  lemma EmailMissThenClose(w1: World, data: map<string, FindableData>, id: string, contact: Contact,
                           providers: seq<Provider>, emailDraws: seq<bool>, now: int)
    requires id in w1.records && |providers| > 0
    requires w1.records[id].status == InProgress && w1.records[id].completedJobs == ["phone"]
    requires w1.records[id].result.None? && RequestedJobs(w1.records[id]) == ["phone", "email"]
    requires Discovered(data, contact.id, "email") == ""
    ensures var t := CloseUnfinished(RunJob(w1, data, id, contact, "email", providers, emailDraws, now).records,
                                     id, true, true, now);
      && id in t
      && t[id].status == Completed
      && t[id].completedJobs == ["phone", "email"]
      && t[id].result == Some(EnrichmentResult("", ""))
  {
    RunFromAllMiss(w1, data, id, contact, "email", providers, emailDraws, now, 0);
    var t2 := WithJobProvider(w1.records, id, InProgress, None, Some(providers[|providers| - 1].id), "email", now);
    assert t2[id].completedJobs == ["phone"] && t2[id].result.None?;
    var t3 := WithResultField(t2, id, "email", "");
    assert t3[id].result == Some(EnrichmentResult("", ""));
    var t4 := AddCompletedJobSpec(t3, id, "email", now);
    assert t4 == CloseUnfinished(t2, id, true, true, now);
    assert t4[id].completedJobs == ["phone", "email"];
  }



  // ---------------------------------------------------------------------------------------------
  // The promotion step, on values

  /** A due row after UpdateEnrichmentStatus(id, in_progress, nil). */
  function Promoted(e: Enrichment, now: int): Enrichment {
    e.(status := InProgress, updatedAt := now, result := None, currentProviderId := None)
  }

  /** The table after promoting every row in `due`. */
  function PromoteAll(t: Table, due: set<string>, now: int): Table {
    map k | k in t :: if k in due then Promoted(t[k], now) else t[k]
  }

  /** After a promotion pass, no row is left due at the same instant, and only due rows changed. */
  lemma PromotionLeavesNothingDue(t: Table, now: int, olderThan: int)
    ensures var due := GetPendingEnrichments(t, now, olderThan);
      var t' := PromoteAll(t, due, now);
      && GetPendingEnrichments(t', now, olderThan) == {}
      && t'.Keys == t.Keys
      && (forall k :: k in due ==> t'[k].status == InProgress)
      && (forall k :: k in t && k !in due ==> t'[k] == t[k])
  {
    var due := GetPendingEnrichments(t, now, olderThan);
    var t' := PromoteAll(t, due, now);
    forall k | k in t'
      ensures !IsDue(t'[k], now - olderThan)
    {
      if k in due {
        assert t'[k].status == InProgress;
      } else {
        assert t'[k] == t[k];
      }
    }
  }

  /** Promoting one more due row. */
  lemma PromoteStep(t: Table, done: set<string>, id: string, now: int)
    requires id in t && id !in done
    ensures WithStatus(PromoteAll(t, done, now), id, InProgress, None, now) == PromoteAll(t, done + {id}, now)
  {
  }

  /** One iteration of the promotion loop: the row is promoted and its launch recorded. */
  lemma PromotionStep(t: Table, due: set<string>, rest: set<string>, id: string, launched: seq<Launch>, now: int)
    requires rest <= due <= t.Keys && id in rest && LaunchesOf(launched, t, due - rest)
    ensures id in PromoteAll(t, due - rest, now) && PromoteAll(t, due - rest, now)[id].userId == t[id].userId
    ensures WithStatus(PromoteAll(t, due - rest, now), id, InProgress, None, now) == PromoteAll(t, due - (rest - {id}), now)
    ensures LaunchesOf(launched + [Launch(id, t[id].userId)], t, due - (rest - {id}))
  {
    PromoteStep(t, due - rest, id, now);
    LaunchesOfStep(launched, t, due - rest, id);
    assert due - rest + {id} == due - (rest - {id});
  }

  /** The enrichment ids of a list of launches. */
  function LaunchedIds(launched: seq<Launch>): set<string> {
    set l | l in launched :: l.enrichmentId
  }

  /**
   * One launch per promoted row: the launches name exactly the rows in `done`, as many as there
   * are rows, each with the user id of its row.
   */
  ghost predicate LaunchesOf(launched: seq<Launch>, t: Table, done: set<string>) {
    && done <= t.Keys
    && LaunchedIds(launched) == done
    && |launched| == |done|
    && (forall i :: 0 <= i < |launched| ==> launched[i].enrichmentId in t && launched[i].userId == t[launched[i].enrichmentId].userId)
  }

  lemma LaunchesOfStep(launched: seq<Launch>, t: Table, done: set<string>, id: string)
    requires LaunchesOf(launched, t, done) && id in t && id !in done
    ensures LaunchesOf(launched + [Launch(id, t[id].userId)], t, done + {id})
  {
    var l := Launch(id, t[id].userId);
    assert l in launched + [l];
    assert forall x :: x in launched ==> x in launched + [l];
    assert LaunchedIds(launched + [l]) == done + {id};
  }

  /** The membership scan over a job list that the worker repeats. */
  method Contains(xs: seq<string>, x: string) returns (found: bool)
    ensures found <==> x in xs
  {
    found := false;
    for i := 0 to |xs|
      invariant !found
      invariant x !in xs[..i]
    {
      if xs[i] == x {
        return true;
      }
      assert xs[..i + 1] == xs[..i] + [xs[i]];
    }
    assert xs[..|xs|] == xs;
  }

  /** The scan over the requested jobs: which of the two known jobs were asked for. */
  method NeededJobs(jobs: seq<string>) returns (needsPhone: bool, needsEmail: bool)
    ensures needsPhone <==> "phone" in jobs
    ensures needsEmail <==> "email" in jobs
  {
    needsPhone, needsEmail := false, false;
    for i := 0 to |jobs|
      invariant needsPhone <==> "phone" in jobs[..i]
      invariant needsEmail <==> "email" in jobs[..i]
    {
      assert jobs[..i + 1] == jobs[..i] + [jobs[i]];
      if jobs[i] == "phone" {
        needsPhone := true;
      }
      if jobs[i] == "email" {
        needsEmail := true;
      }
    }
    assert jobs[..|jobs|] == jobs;
  }

  /** A launched orchestrator run. */
  datatype Launch = Launch(enrichmentId: string, userId: string)

  // ---------------------------------------------------------------------------------------------
  // The worker

  class Worker {
    const db: DB
    const mockData: MockData
    const config: Config

    /** New: a worker over a store and a directory. */
    constructor (db: DB, mockData: MockData, config: Config)
      ensures this.db == db && this.mockData == mockData && this.config == config
    {
      this.db := db;
      this.mockData := mockData;
      this.config := config;
    }

    /**
     * processPendingEnrichments: promote every due row to in_progress and hand back one launch per
     * promoted row (the goroutines are not started here).
     */
    method ProcessPendingEnrichments(now: int) returns (launched: seq<Launch>)
      modifies db
      ensures var due := GetPendingEnrichments(old(db.records), now, config.pendingToInProgressDelay);
        && db.records == PromoteAll(old(db.records), due, now)
        && LaunchesOf(launched, old(db.records), due)
    {
      ghost var t0 := db.records;
      var enrichments := GetPendingEnrichments(db.records, now, config.pendingToInProgressDelay);
      ghost var due := enrichments;
      launched := [];
      var rest := enrichments;
      while rest != {}
        invariant rest <= due <= t0.Keys
        invariant db.records == PromoteAll(t0, due - rest, now)
        invariant LaunchesOf(launched, t0, due - rest)
        decreases |rest|
      {
        var id :| id in rest;
        var userId := db.records[id].userId;
        db.UpdateEnrichmentStatus(id, InProgress, None, now);
        PromotionStep(t0, due, rest, id, launched, now);
        launched := launched + [Launch(id, userId)];
        rest := rest - {id};
      }
    }

    /**
     * processJobForEnrichment: walk the providers in order; stop when the row is gone or failed or
     * the job is completed; otherwise record the provider, draw, and on a value record the find.
     */
    method ProcessJobForEnrichment(enrichmentId: string, contact: Contact, jobType: string,
                                   providers: seq<Provider>, draws: seq<bool>, now: int)
      modifies db, mockData
      ensures World(db.records, mockData.contacts)
           == RunJob(World(old(db.records), old(mockData.contacts)), mockData.enrichmentData,
                     enrichmentId, contact, jobType, providers, draws, now)
    {
      ghost var w0 := World(db.records, mockData.contacts);
      ghost var data := mockData.enrichmentData;
      for i := 0 to |providers|
        invariant RunFrom(World(db.records, mockData.contacts), data, enrichmentId, contact, jobType, providers, draws, now, i)
               == RunJob(w0, data, enrichmentId, contact, jobType, providers, draws, now)
      {
        var provider := providers[i];
        var enrichment := GetEnrichment(db.records, enrichmentId);
        if enrichment.None? || enrichment.value.status != InProgress {
          var lists := GetEnrichmentJobs(db.records, enrichmentId);
          if lists.Ok? && jobType in lists.value.completedJobs {
            return;
          }
          if enrichment.None? || enrichment.value.status == Failed {
            return;
          }
        }
        var lists := GetEnrichmentJobs(db.records, enrichmentId);
        if lists.Err? {
          return;
        }
        var jobCompleted := Contains(lists.value.completedJobs, jobType);
        if jobCompleted {
          return;
        }
        assert !RunnerStops(db.records, enrichmentId, jobType);

        db.UpdateEnrichmentStatusWithJobProvider(enrichmentId, InProgress, None, Some(provider.id), jobType, now);
        ghost var t1 := db.records;
        ghost var c1 := mockData.contacts;

        if Draw(draws, i) {
          var found := true;
          var value := "";
          var (enrichmentPhone, enrichmentEmail, hasData) := mockData.GetEnrichmentData(contact.id);
          if jobType == "phone" {
            if hasData && enrichmentPhone != "" {
              value := enrichmentPhone;
            } else {
              found := false;
            }
          } else if jobType == "email" {
            if hasData && enrichmentEmail != "" {
              value := enrichmentEmail;
            } else {
              found := false;
            }
          }
          assert found && value != "" <==> Discovered(data, contact.id, jobType) != "";
          if found && value != "" {
            assert value == Discovered(data, contact.id, jobType);
            var resultErr := db.UpdateEnrichmentResultField(enrichmentId, jobType, value);
            if resultErr.None? {
              db.UpdateEnrichmentStatusWithJobProvider(enrichmentId, InProgress, None, Some(provider.id), jobType, now);
              if jobType == "phone" {
                var contactErr := mockData.UpdateContactPhone(contact.id, value);
              } else if jobType == "email" {
                var contactErr := mockData.UpdateContactEmail(contact.id, value);
              }
              var completeErr := db.AddCompletedJob(enrichmentId, jobType, now);
              if completeErr.None? {
                db.UpdateEnrichmentStatusWithJobProvider(enrichmentId, InProgress, None, None, jobType, now);
                assert World(db.records, mockData.contacts)
                    == RecordFind(t1, c1, enrichmentId, contact, jobType, provider, value, now);
                return;
              }
            }
          }
        }
      }
    }

    /**
     * processEnrichmentThroughProviders, sequentialised. Returns the provider list it used and the
     * success rate it computed; the rate only affects the draws, which are given.
     */
    method ProcessEnrichmentThroughProviders(enrichmentId: string, userId: string,
                                             contactInfo: Option<EnrichmentContactInfo>,
                                             phoneDraws: seq<bool>, emailDraws: seq<bool>, now: int)
      returns (providers: seq<Provider>, successRate: real)
      modifies db, mockData
      ensures World(db.records, mockData.contacts)
           == Process(World(old(db.records), old(mockData.contacts)), mockData.enrichmentData, providers,
                      enrichmentId, userId, phoneDraws, emailDraws, now)
      ensures userId in old(mockData.contacts) && enrichmentId in old(db.records) ==>
                |providers| == |mockData.providers| && forall p :: p in providers ==> p in mockData.providers.Values
      ensures userId in old(mockData.contacts) && enrichmentId in old(db.records) && |providers| > 0 ==>
                successRate == EffectiveSuccessRate(config, mockData.thirdParty, old(mockData.contacts)[userId], contactInfo)
    {
      providers := [];
      successRate := config.providerSuccessRate;
      ghost var w0 := World(db.records, mockData.contacts);
      ghost var data := mockData.enrichmentData;

      var found := mockData.GetContact(userId);
      if found.None? {
        db.UpdateEnrichmentStatus(enrichmentId, Failed, None, now);
        return;
      }
      var contact := found.value;

      var lists := GetEnrichmentJobs(db.records, enrichmentId);
      if lists.Err? {
        db.UpdateEnrichmentStatus(enrichmentId, Failed, None, now);
        return;
      }
      var jobs := lists.value.jobs;

      var needsPhone, needsEmail := NeededJobs(jobs);

      ghost var keys;
      providers, keys := mockData.GetAllProviders();
      if |providers| == 0 {
        db.UpdateEnrichmentStatus(enrichmentId, Failed, None, now);
        return;
      }

      successRate := SuccessRateFor(contact, contactInfo);

      if needsPhone {
        ProcessJobForEnrichment(enrichmentId, contact, "phone", providers, phoneDraws, now);
      }
      ghost var w1 := World(db.records, mockData.contacts);
      if needsEmail {
        ProcessJobForEnrichment(enrichmentId, contact, "email", providers, emailDraws, now);
      }
      ghost var w2 := World(db.records, mockData.contacts);

      CloseUnfinishedJobs(enrichmentId, needsPhone, needsEmail, now);
    }

    /** The success rate of a run: boosted to 0.8 when the hint matches the contact's third-party profile. */
    method SuccessRateFor(contact: Contact, contactInfo: Option<EnrichmentContactInfo>) returns (successRate: real)
      ensures successRate == EffectiveSuccessRate(config, mockData.thirdParty, contact, contactInfo)
    {
      successRate := config.providerSuccessRate;
      if contactInfo.Some? {
        var fullName := contact.firstName + " " + contact.lastName;
        var thirdPartyInfo := mockData.GetThirdPartyInfo(fullName);
        if thirdPartyInfo.Some? && ContactInfoMatches(contactInfo.value, thirdPartyInfo.value) {
          successRate := BoostedSuccessRate;
        }
      }
    }

    /** The closure of processEnrichmentThroughProviders: complete each requested job its runner left unfinished. */
    method CloseUnfinishedJobs(enrichmentId: string, needsPhone: bool, needsEmail: bool, now: int)
      modifies db
      ensures db.records == CloseUnfinished(old(db.records), enrichmentId, needsPhone, needsEmail, now)
    {
      var after := GetEnrichmentJobs(db.records, enrichmentId);
      if after.Err? {
        return;
      }
      var completedJobs := after.value.completedJobs;
      if needsPhone {
        var phoneCompleted := Contains(completedJobs, "phone");
        if !phoneCompleted {
          var resultErr := db.UpdateEnrichmentResultField(enrichmentId, "phone", "");
          var completeErr := db.AddCompletedJob(enrichmentId, "phone", now);
        }
      }
      if needsEmail {
        var emailCompleted := Contains(completedJobs, "email");
        if !emailCompleted {
          var resultErr := db.UpdateEnrichmentResultField(enrichmentId, "email", "");
          var completeErr := db.AddCompletedJob(enrichmentId, "email", now);
        }
      }
    }
  }
}
