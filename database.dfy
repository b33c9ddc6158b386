/**
 * The enrichment store of internal/database/database.go: the `enrichments` table as a map
 * from id to row. The value-level functions below say what each statement does to the
 * table; the class DB holds the table and performs the statements in place.
 */
module Database {
  import opened Wrappers
  import opened Models

  /** One row of the `enrichments` table; the row's id is its key in the table. */
  datatype Enrichment = Enrichment(
    userId: string,
    status: EnrichmentStatus,
    createdAt: int,
    updatedAt: int,
    result: Option<EnrichmentResult>,      // None: the column is NULL
    currentProviderId: Option<string>,
    phoneProviderId: Option<string>,
    emailProviderId: Option<string>,
    jobs: Option<seq<string>>,             // None: the column is NULL or empty
    completedJobs: seq<string>,
    isStatic: bool)

  type Table = map<string, Enrichment>

  datatype StoreError = EnrichmentNotFound | DuplicateId

  /** What GetEnrichmentJobs reads back: the requested and the completed jobs. */
  datatype JobLists = JobLists(jobs: seq<string>, completedJobs: seq<string>)

  /** The job list stored when a request names none, and read back for a row without one. */
  const DefaultJobs: seq<string> := ["phone"]

  /** The row CreateEnrichment inserts. */
  function NewEnrichment(userId: string, jobs: seq<string>, now: int): (e: Enrichment)
    ensures e.userId == userId && e.status == Pending && !e.isStatic
    ensures e.createdAt == now && e.updatedAt == now
    ensures e.jobs.Some? && |e.jobs.value| > 0
    ensures jobs == [] ==> e.jobs.value == ["phone"]
    ensures jobs != [] ==> e.jobs.value == jobs
    ensures e.completedJobs == [] && e.result.None?
    ensures e.currentProviderId.None? && e.phoneProviderId.None? && e.emailProviderId.None?
  {
    Enrichment(userId, Pending, now, now, None, None, None, None,
               Some(if |jobs| == 0 then DefaultJobs else jobs), [], false)
  }

  /** GetEnrichment: the row, or None when no row has that id. */
  function GetEnrichment(t: Table, id: string): (r: Option<Enrichment>)
    ensures r.Some? <==> id in t
    ensures r.Some? ==> r.value == t[id]
  {
    if id in t then Some(t[id]) else None
  }

  /** A provider column as GetEnrichmentWithProviders hands it on: only when set and non-empty. */
  function NonEmpty(p: Option<string>): (r: Option<string>)
    ensures r.Some? <==> p.Some? && p.value != ""
    ensures r.Some? ==> r == p
  {
    if p.Some? && p.value != "" then p else None
  }

  /** GetEnrichmentWithProviders: the row with its phone and email provider ids. */
  function GetEnrichmentWithProviders(t: Table, id: string)
    : (r: Option<(Enrichment, Option<string>, Option<string>)>)
    ensures r.Some? <==> id in t
    ensures r.Some? ==> r.value.0 == t[id]
    ensures r.Some? && r.value.1.Some? ==> r.value.1 == t[id].phoneProviderId && r.value.1.value != ""
    ensures r.Some? && r.value.2.Some? ==> r.value.2 == t[id].emailProviderId && r.value.2.value != ""
    ensures r.Some? && t[id].phoneProviderId.Some? && t[id].phoneProviderId.value != "" ==>
              r.value.1 == t[id].phoneProviderId
    ensures r.Some? && t[id].emailProviderId.Some? && t[id].emailProviderId.value != "" ==>
              r.value.2 == t[id].emailProviderId
  {
    if id in t then Some((t[id], NonEmpty(t[id].phoneProviderId), NonEmpty(t[id].emailProviderId)))
    else None
  }

  /** The jobs column as read back: a NULL or empty column reads as ["phone"]. */
  function RequestedJobs(e: Enrichment): seq<string> {
    match e.jobs
    case None => DefaultJobs
    case Some(js) => js
  }

  /** GetEnrichmentJobs: both job lists, or "enrichment not found". */
  function GetEnrichmentJobs(t: Table, id: string): (r: Result<JobLists, StoreError>)
    ensures r.Err? <==> id !in t
    ensures r.Err? ==> r.error == EnrichmentNotFound
    ensures r.Ok? ==> r.value.completedJobs == t[id].completedJobs
    ensures r.Ok? && t[id].jobs.None? ==> r.value.jobs == ["phone"]
    ensures r.Ok? && t[id].jobs.Some? ==> r.value.jobs == t[id].jobs.value
  {
    if id in t then Ok(JobLists(RequestedJobs(t[id]), t[id].completedJobs)) else Err(EnrichmentNotFound)
  }

  /** Every requested job appears among the completed ones. */
  predicate AllCompleted(jobs: seq<string>, completed: seq<string>) {
    forall j :: j in jobs ==> j in completed
  }

  /** What AddCompletedJob does to the table. */
  function AddCompletedJobSpec(t: Table, id: string, job: string, now: int): Table {
    if id !in t || job in t[id].completedJobs then t
    else
      var e := t[id];
      var completed := e.completedJobs + [job];
      if AllCompleted(RequestedJobs(e), completed) then
        t[id := e.(status := Completed, updatedAt := now, completedJobs := completed,
                   currentProviderId := None, phoneProviderId := None, emailProviderId := None)]
      else
        t[id := e.(updatedAt := now, completedJobs := completed)]
  }

  /** What UpdateEnrichmentStatusWithJobProvider does to the table. */
  function WithJobProvider(t: Table, id: string, status: EnrichmentStatus, result: Option<EnrichmentResult>,
                           providerId: Option<string>, jobType: string, now: int): Table
  {
    if id !in t then t
    else
      var e := t[id].(status := status, updatedAt := now, result := result);
      t[id := if jobType == "phone" then e.(phoneProviderId := providerId)
              else if jobType == "email" then e.(emailProviderId := providerId)
              else if status == Completed then
                e.(currentProviderId := None, phoneProviderId := None, emailProviderId := None)
              else e.(currentProviderId := providerId)]
  }

  /** What UpdateEnrichmentStatus does to the table (no provider, no job type). */
  function WithStatus(t: Table, id: string, status: EnrichmentStatus, result: Option<EnrichmentResult>, now: int): Table {
    WithJobProvider(t, id, status, result, None, "", now)
  }

  /** One job's entry of a result, absent entries reading as "". */
  function ResultEntry(r: Option<EnrichmentResult>, jobType: string): string {
    if r.None? then ""
    else if jobType == "phone" then r.value.phone
    else if jobType == "email" then r.value.email
    else ""
  }

  /**
   * What UpdateEnrichmentResultField is assumed to do (its body is not part of this model):
   * set the named job's entry of the result and nothing else.
   */
  function WithResultField(t: Table, id: string, jobType: string, value: string): (t': Table)
    ensures t'.Keys == t.Keys
    ensures forall k :: k in t && k != id ==> t'[k] == t[k]
    ensures id in t && (jobType == "phone" || jobType == "email") ==>
              t'[id].result.Some? && ResultEntry(t'[id].result, jobType) == value
    ensures id in t && jobType == "phone" ==> ResultEntry(t'[id].result, "email") == ResultEntry(t[id].result, "email")
    ensures id in t && jobType == "email" ==> ResultEntry(t'[id].result, "phone") == ResultEntry(t[id].result, "phone")
    ensures id in t ==> t'[id] == t[id].(result := t'[id].result)
    ensures jobType != "phone" && jobType != "email" ==> t' == t
  {
    if id !in t || (jobType != "phone" && jobType != "email") then t
    else
      var r := if t[id].result.Some? then t[id].result.value else EnrichmentResult("", "");
      t[id := t[id].(result := Some(if jobType == "phone" then r.(phone := value) else r.(email := value)))]
  }

  /** The WHERE clause of GetPendingEnrichments. */
  predicate IsDue(e: Enrichment, cutoff: int) {
    e.status == Pending && !e.isStatic && e.createdAt < cutoff
  }

  /** GetPendingEnrichments: the ids of the rows that are pending, not static and older than the cutoff. */
  function GetPendingEnrichments(t: Table, now: int, olderThan: int): (due: set<string>)
    ensures due <= t.Keys
    ensures forall id :: id in due ==> t[id].status == Pending && !t[id].isStatic
    ensures forall id :: id in due ==> t[id].createdAt < now - olderThan
    ensures forall id :: id in t && t[id].status == Pending && !t[id].isStatic && t[id].createdAt < now - olderThan ==> id in due
  {
    set id | id in t && IsDue(t[id], now - olderThan)
  }

  /** A seed row of SeedStaticEnrichments. */
  datatype Seed = Seed(id: string, userId: string, status: EnrichmentStatus, result: Option<EnrichmentResult>)

  /**
   * The four static rows. The completed one carries a result whose fields are not those of
   * EnrichmentResult, so it reads back with empty phone and email.
   */
  const StaticEnrichments: seq<Seed> := [
    Seed("e5f6a7b8-c9d0-1234-ef12-345678901234", "a1b2c3d4-e5f6-7890-abcd-ef1234567890", Pending, None),
    Seed("f6a7b8c9-d0e1-2345-f123-456789012345", "b2c3d4e5-f6a7-8901-bcde-f12345678901", InProgress, None),
    Seed("a7b8c9d0-e1f2-3456-0123-567890123456", "c3d4e5f6-a7b8-9012-cdef-123456789012", Completed,
         Some(EnrichmentResult("", ""))),
    Seed("b8c9d0e1-f2a3-4567-1234-678901234567", "d4e5f6a7-b8c9-0123-def1-234567890123", Failed, None)
  ]

  /** The row inserted for a seed. */
  function SeedRecord(s: Seed, now: int): (e: Enrichment)
    ensures e.isStatic && e.status == s.status && e.userId == s.userId
  {
    Enrichment(s.userId, s.status, now, now, s.result, None, None, None, Some(DefaultJobs), [], true)
  }

  /** The table after inserting, in order, every seed whose id is absent. */
  function SeedFrom(t: Table, seeds: seq<Seed>, now: int): Table
    decreases |seeds|
  {
    if seeds == [] then t
    else
      var s := seeds[0];
      SeedFrom(if s.id in t then t else t[s.id := SeedRecord(s, now)], seeds[1..], now)
  }

  /** Seeding keeps every existing row and leaves every seed id present. */
  lemma {:induction false} SeedFromExtends(t: Table, seeds: seq<Seed>, now: int)
    ensures forall k :: k in t ==> k in SeedFrom(t, seeds, now) && SeedFrom(t, seeds, now)[k] == t[k]
    ensures forall i :: 0 <= i < |seeds| ==> seeds[i].id in SeedFrom(t, seeds, now)
    ensures forall k :: k in SeedFrom(t, seeds, now) && k !in t ==>
              exists i :: 0 <= i < |seeds| && seeds[i].id == k && SeedFrom(t, seeds, now)[k] == SeedRecord(seeds[i], now)
    decreases |seeds|
  {
    if seeds != [] {
      var s := seeds[0];
      var t1 := if s.id in t then t else t[s.id := SeedRecord(s, now)];
      SeedFromExtends(t1, seeds[1..], now);
      forall k | k in SeedFrom(t, seeds, now) && k !in t
        ensures exists i :: 0 <= i < |seeds| && seeds[i].id == k && SeedFrom(t, seeds, now)[k] == SeedRecord(seeds[i], now)
      {
        if k in t1 {
          assert seeds[0].id == k;
        } else {
          var i :| 0 <= i < |seeds[1..]| && seeds[1..][i].id == k && SeedFrom(t1, seeds[1..], now)[k] == SeedRecord(seeds[1..][i], now);
          assert seeds[i + 1] == seeds[1..][i];
        }
      }
    }
  }

  /** Seeding a table that already holds every seed id changes nothing. */
  lemma {:induction false} SeedFromPresent(t: Table, seeds: seq<Seed>, now: int)
    requires forall i :: 0 <= i < |seeds| ==> seeds[i].id in t
    ensures SeedFrom(t, seeds, now) == t
    decreases |seeds|
  {
    if seeds != [] {
      SeedFromPresent(t, seeds[1..], now);
    }
  }

  /** Seeding twice inserts nothing the first seeding did not. */
  lemma SeedingIdempotent(t: Table, now1: int, now2: int)
    ensures SeedFrom(SeedFrom(t, StaticEnrichments, now1), StaticEnrichments, now2)
         == SeedFrom(t, StaticEnrichments, now1)
  {
    SeedFromExtends(t, StaticEnrichments, now1);
    SeedFromPresent(SeedFrom(t, StaticEnrichments, now1), StaticEnrichments, now2);
  }

  /** A row that seeding inserts is static and so is never returned by GetPendingEnrichments. */
  lemma SeededNeverDue(t: Table, now: int, at: int, olderThan: int)
    ensures forall k :: k in SeedFrom(t, StaticEnrichments, now) && k !in t ==>
              SeedFrom(t, StaticEnrichments, now)[k].isStatic &&
              k !in GetPendingEnrichments(SeedFrom(t, StaticEnrichments, now), at, olderThan)
  {
    SeedFromExtends(t, StaticEnrichments, now);
  }

  /** Job lists without repeated entries. */
  predicate NoDuplicates(s: seq<string>) {
    forall i, j :: 0 <= i < j < |s| ==> s[i] != s[j]
  }

  /** The effect of AddCompletedJob on the row it names, case by case. */
  lemma AddCompletedJobCases(t: Table, id: string, job: string, now: int)
    ensures var t' := AddCompletedJobSpec(t, id, job, now);
      && t'.Keys == t.Keys
      && (forall k :: k in t && k != id ==> t'[k] == t[k])
      && (id !in t ==> t' == t && GetEnrichmentJobs(t, id).Err?)
      && (id in t && job in t[id].completedJobs ==> t' == t)
      && (id in t && job !in t[id].completedJobs ==>
            t'[id].completedJobs == t[id].completedJobs + [job]
            && t'[id].updatedAt == now
            && t'[id].result == t[id].result
            && t'[id].jobs == t[id].jobs
            && (AllCompleted(RequestedJobs(t[id]), t'[id].completedJobs) ==>
                  t'[id].status == Completed && t'[id].currentProviderId.None?
                  && t'[id].phoneProviderId.None? && t'[id].emailProviderId.None?)
            && (!AllCompleted(RequestedJobs(t[id]), t'[id].completedJobs) ==>
                  t'[id] == t[id].(updatedAt := now, completedJobs := t'[id].completedJobs)))
  {
  }

  /** AddCompletedJob twice with the same job is AddCompletedJob once. */
  lemma AddCompletedJobIdempotent(t: Table, id: string, job: string, now1: int, now2: int)
    ensures AddCompletedJobSpec(AddCompletedJobSpec(t, id, job, now1), id, job, now2)
         == AddCompletedJobSpec(t, id, job, now1)
  {
  }

  /** completedJobs never holds a job twice when it did not before. */
  lemma AddCompletedJobNoDuplicates(t: Table, id: string, job: string, now: int)
    requires id in t && NoDuplicates(t[id].completedJobs)
    ensures NoDuplicates(AddCompletedJobSpec(t, id, job, now)[id].completedJobs)
  {
  }

  /** The provider columns each job type touches; status, updatedAt and result are always written. */
  lemma WithJobProviderColumns(t: Table, id: string, status: EnrichmentStatus, result: Option<EnrichmentResult>,
                               providerId: Option<string>, jobType: string, now: int)
    requires id in t
    ensures var e, e' := t[id], WithJobProvider(t, id, status, result, providerId, jobType, now)[id];
      && e'.status == status && e'.updatedAt == now && e'.result == result
      && e'.userId == e.userId && e'.createdAt == e.createdAt && e'.isStatic == e.isStatic
      && e'.jobs == e.jobs && e'.completedJobs == e.completedJobs
      && (jobType == "phone" ==>
            e'.phoneProviderId == providerId
            && e'.emailProviderId == e.emailProviderId && e'.currentProviderId == e.currentProviderId)
      && (jobType == "email" ==>
            e'.emailProviderId == providerId
            && e'.phoneProviderId == e.phoneProviderId && e'.currentProviderId == e.currentProviderId)
      && (jobType != "phone" && jobType != "email" && status == Completed ==>
            e'.currentProviderId.None? && e'.phoneProviderId.None? && e'.emailProviderId.None?)
      && (jobType != "phone" && jobType != "email" && status != Completed ==>
            e'.currentProviderId == providerId
            && e'.phoneProviderId == e.phoneProviderId && e'.emailProviderId == e.emailProviderId)
  {
  }

  /** The store: the `enrichments` table, updated in place. */
  class DB {
    var records: Table

    /** An empty store (New and migrate, without the SQL plumbing). */
    constructor ()
      ensures records == map[]
    {
      records := map[];
    }

    /** CreateEnrichment: insert a pending row under a fresh id; an id already present is refused. */
    method CreateEnrichment(id: string, userId: string, jobs: seq<string>, now: int)
      returns (r: Result<Enrichment, StoreError>)
      modifies this
      ensures id in old(records) ==> r == Err(DuplicateId) && records == old(records)
      ensures id !in old(records) ==>
                r == Ok(NewEnrichment(userId, jobs, now)) && records == old(records)[id := r.value]
    {
      var js := jobs;
      if |js| == 0 {
        js := DefaultJobs;
      }
      if id in records {
        return Err(DuplicateId);
      }
      var e := Enrichment(userId, Pending, now, now, None, None, None, None, Some(js), [], false);
      records := records[id := e];
      r := Ok(e);
    }

    /** AddCompletedJob: record `job` as completed once, and complete the row when every job is done. */
    method AddCompletedJob(enrichmentId: string, job: string, now: int) returns (err: Option<StoreError>)
      modifies this
      ensures err.Some? <==> enrichmentId !in old(records)
      ensures records == AddCompletedJobSpec(old(records), enrichmentId, job, now)
    {
      var lists := GetEnrichmentJobs(records, enrichmentId);
      if lists.Err? {
        return Some(lists.error);
      }
      var jobs, completedJobs := lists.value.jobs, lists.value.completedJobs;

      for k := 0 to |completedJobs|
        invariant forall m :: 0 <= m < k ==> completedJobs[m] != job
      {
        if completedJobs[k] == job {
          return None;
        }
      }

      completedJobs := completedJobs + [job];

      var allCompleted := true;
      for k := 0 to |jobs|
        invariant allCompleted
        invariant forall m :: 0 <= m < k ==> jobs[m] in completedJobs
      {
        var found := false;
        for l := 0 to |completedJobs|
          invariant !found
          invariant forall m :: 0 <= m < l ==> completedJobs[m] != jobs[k]
        {
          if completedJobs[l] == jobs[k] {
            found := true;
            break;
          }
        }
        if !found {
          assert jobs[k] !in completedJobs;
          allCompleted := false;
          break;
        }
      }
      assert allCompleted <==> AllCompleted(jobs, completedJobs);
      assert jobs == RequestedJobs(records[enrichmentId]);

      var e := records[enrichmentId];
      if allCompleted {
        // the stored result is read back and written again unchanged
        var current := GetEnrichment(records, enrichmentId);
        var result := if current.Some? then current.value.result else None;
        records := records[enrichmentId := e.(status := Completed, updatedAt := now, completedJobs := completedJobs,
                                              currentProviderId := None, phoneProviderId := None,
                                              emailProviderId := None, result := result)];
      } else {
        records := records[enrichmentId := e.(updatedAt := now, completedJobs := completedJobs)];
      }
      err := None;
    }

    /** UpdateEnrichmentStatus: status and result, with no provider and no job type. */
    method UpdateEnrichmentStatus(id: string, status: EnrichmentStatus, result: Option<EnrichmentResult>, now: int)
      modifies this
      ensures records == WithStatus(old(records), id, status, result, now)
    {
      UpdateEnrichmentStatusWithProvider(id, status, result, None, now);
    }

    /** UpdateEnrichmentStatusWithProvider: status, result and the current provider. */
    method UpdateEnrichmentStatusWithProvider(id: string, status: EnrichmentStatus, result: Option<EnrichmentResult>,
                                              providerId: Option<string>, now: int)
      modifies this
      ensures records == WithJobProvider(old(records), id, status, result, providerId, "", now)
    {
      UpdateEnrichmentStatusWithJobProvider(id, status, result, providerId, "", now);
    }

    /**
     * UpdateEnrichmentStatusWithJobProvider: one UPDATE that always writes status, updatedAt and
     * result, plus the provider column(s) the job type selects. A missing row is left alone.
     */
    method UpdateEnrichmentStatusWithJobProvider(id: string, status: EnrichmentStatus, result: Option<EnrichmentResult>,
                                                 providerId: Option<string>, jobType: string, now: int)
      modifies this
      ensures records == WithJobProvider(old(records), id, status, result, providerId, jobType, now)
    {
      if id !in records {
        return;
      }
      var e := records[id].(status := status, updatedAt := now, result := result);
      if jobType == "phone" {
        records := records[id := e.(phoneProviderId := providerId)];
      } else if jobType == "email" {
        records := records[id := e.(emailProviderId := providerId)];
      } else if status == Completed {
        records := records[id := e.(currentProviderId := None, phoneProviderId := None, emailProviderId := None)];
      } else {
        records := records[id := e.(currentProviderId := providerId)];
      }
    }

    /** UpdateEnrichmentResultField, under the assumed contract of WithResultField; a missing row is an error. */
    method UpdateEnrichmentResultField(id: string, jobType: string, value: string) returns (err: Option<StoreError>)
      modifies this
      ensures err.Some? <==> id !in old(records)
      ensures records == WithResultField(old(records), id, jobType, value)
    {
      if id !in records {
        return Some(EnrichmentNotFound);
      }
      records := WithResultField(records, id, jobType, value);
      err := None;
    }

    /** SeedStaticEnrichments: insert each static row whose id is not yet present. */
    method SeedStaticEnrichments(now: int)
      modifies this
      ensures records == SeedFrom(old(records), StaticEnrichments, now)
    {
      var staticEnrichments := StaticEnrichments;
      for i := 0 to |staticEnrichments|
        invariant SeedFrom(records, staticEnrichments[i..], now) == SeedFrom(old(records), staticEnrichments, now)
      {
        var e := staticEnrichments[i];
        assert staticEnrichments[i..][0] == e && staticEnrichments[i..][1..] == staticEnrichments[i + 1..];
        if e.id in records {
          continue;
        }
        records := records[e.id := Enrichment(e.userId, e.status, now, now, e.result, None, None, None,
                                              Some(DefaultJobs), [], true)];
      }
    }
  }
}
