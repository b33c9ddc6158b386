/**
 * The request-level derivations of internal/handlers/handlers.go: the validation and job filter
 * of StartEnrichment, and the per-job status view of GetEnrichment. Response writing is not
 * modelled; a handler's outcome is a value or an HTTP error.
 */
module Handlers {
  import opened Wrappers
  import opened Models
  import opened Database
  import opened Data
  import Worker

  /** An error response: status code and message. */
  datatype HttpError = HttpError(code: int, message: string)

  /** The jobs the service knows how to run. */
  predicate IsValidJob(job: string) {
    job == "phone" || job == "email"
  }

  /** The reference filter: the valid entries, in order, duplicates kept. */
  function Filtered(jobs: seq<string>): (r: seq<string>)
    ensures |r| <= |jobs|
    ensures forall j :: j in r ==> IsValidJob(j)
  {
    if |jobs| == 0 then []
    else if IsValidJob(jobs[0]) then [jobs[0]] + Filtered(jobs[1..])
    else Filtered(jobs[1..])
  }

  /** Filtering a concatenation filters each part in turn: the order of the kept entries is the input's. */
  lemma {:induction false} FilteredConcat(a: seq<string>, b: seq<string>)
    ensures Filtered(a + b) == Filtered(a) + Filtered(b)
    decreases |a|
  {
    if |a| > 0 {
      assert (a + b)[0] == a[0] && (a + b)[1..] == a[1..] + b;
      FilteredConcat(a[1..], b);
    } else {
      assert a + b == b;
    }
  }

  /** The filter keeps every valid entry as often as it occurs and drops every other entry. */
  lemma {:induction false} FilteredCounts(jobs: seq<string>, x: string)
    ensures multiset(Filtered(jobs))[x] == if IsValidJob(x) then multiset(jobs)[x] else 0
    decreases |jobs|
  {
    if |jobs| > 0 {
      FilteredCounts(jobs[1..], x);
      assert jobs == [jobs[0]] + jobs[1..];
    }
  }

  /** The validation of StartEnrichment: a user id, then the job filter when jobs were given. */
  method ValidateStartRequest(userId: string, jobs: seq<string>) returns (r: Result<seq<string>, HttpError>)
    ensures userId == "" ==> r == Err(HttpError(400, "userId is required"))
    ensures userId != "" && |jobs| == 0 ==> r == Ok([])
    ensures userId != "" && |jobs| > 0 && Filtered(jobs) == [] ==>
              r == Err(HttpError(400, "jobs must contain 'phone' and/or 'email'"))
    ensures userId != "" && Filtered(jobs) != [] ==> r == Ok(Filtered(jobs))
  {
    if userId == "" {
      return Err(HttpError(400, "userId is required"));
    }
    var valid := jobs;
    if |jobs| > 0 {
      valid := [];
      for i := 0 to |jobs|
        invariant valid == Filtered(jobs[..i])
      {
        FilteredConcat(jobs[..i], [jobs[i]]);
        assert jobs[..i + 1] == jobs[..i] + [jobs[i]];
        if jobs[i] == "phone" || jobs[i] == "email" {
          valid := valid + [jobs[i]];
        }
      }
      assert jobs[..|jobs|] == jobs;
      if |valid| == 0 {
        return Err(HttpError(400, "jobs must contain 'phone' and/or 'email'"));
      }
    }
    r := Ok(valid);
  }

  /** The body of a successful start. */
  datatype StartResponse = StartResponse(id: string, status: EnrichmentStatus, message: string)

  /**
   * StartEnrichment after decoding: validate, then create the row under the fresh id. A rejected
   * request creates nothing.
   */
  method StartEnrichment(db: DB, id: string, userId: string, jobs: seq<string>, now: int)
    returns (r: Result<StartResponse, HttpError>)
    modifies db
    ensures userId == "" || (|jobs| > 0 && Filtered(jobs) == []) ==> r.Err? && r.error.code == 400 && db.records == old(db.records)
    ensures r.Ok? ==> id !in old(db.records)
                      && r.value == StartResponse(id, Pending, "Enrichment started successfully")
                      && db.records == old(db.records)[id := NewEnrichment(userId, Filtered(jobs), now)]
    ensures r.Ok? <==> userId != "" && (|jobs| == 0 || Filtered(jobs) != []) && id !in old(db.records)
    ensures r.Err? ==> db.records == old(db.records)
  {
    var validated := ValidateStartRequest(userId, jobs);
    if validated.Err? {
      return Err(validated.error);
    }
    assert |jobs| == 0 ==> Filtered(jobs) == [];
    var created := db.CreateEnrichment(id, userId, validated.value, now);
    if created.Err? {
      return Err(HttpError(500, "failed to create enrichment"));
    }
    r := Ok(StartResponse(id, created.value.status, "Enrichment started successfully"));
  }

  /** The rows a started request stores always name at least one job, and only phone or email. */
  lemma StartedJobsAreValid(userId: string, jobs: seq<string>, now: int)
    requires |jobs| == 0 || Filtered(jobs) != []
    ensures var e := NewEnrichment(userId, Filtered(jobs), now);
      |RequestedJobs(e)| > 0 && forall j :: j in RequestedJobs(e) ==> IsValidJob(j)
  {
  }

  /** The route prefix of GetEnrichment. */
  const EnrichmentPrefix: string := "/enrichment/"

  /** strings.TrimPrefix. */
  function TrimPrefix(s: string, prefix: string): (r: string)
    ensures prefix <= s ==> s == prefix + r
    ensures !(prefix <= s) ==> r == s
  {
    if prefix <= s then s[|prefix|..] else s
  }

  /**
   * The enrichment id of a GetEnrichment path; "" and "start" are rejected as missing, so
   * "/enrichment/" and "/enrichment/start" are never read as ids.
   */
  function ParseEnrichmentId(path: string): (r: Result<string, HttpError>)
    ensures r.Err? <==> TrimPrefix(path, EnrichmentPrefix) in {"", "start"}
    ensures r.Err? ==> r.error == HttpError(400, "missing enrichment ID")
    ensures r.Ok? ==> r.value == TrimPrefix(path, EnrichmentPrefix)
    ensures r.Ok? && EnrichmentPrefix <= path ==> path == EnrichmentPrefix + r.value
  {
    var id := TrimPrefix(path, EnrichmentPrefix);
    if id == "" || id == "start" then Err(HttpError(400, "missing enrichment ID")) else Ok(id)
  }

  /** The message shown for a job: found, exhausted, or still searching. */
  function JobMessage(jobType: string, completed: bool, found: bool): string {
    if jobType == "phone" then
      if !completed then "Searching for phone number..."
      else if found then "Phone number found successfully"
      else "Phone number not found after checking all providers"
    else
      if !completed then "Searching for email..."
      else if found then "Email found successfully"
      else "Email not found after checking all providers"
  }

  /** The status of one requested job, from the row's completion, result and provider column. */
  function JobStatusFor(jobType: string, completed: bool, result: Option<EnrichmentResult>,
                        providerId: Option<string>, providers: map<string, Provider>): (s: JobStatus)
    requires jobType == "phone" || jobType == "email"
  {
    var value := ResultEntry(result, jobType);
    var current := if providerId.Some? && providerId.value in providers then Some(providers[providerId.value]) else None;
    JobStatus(current, if completed then value else "", JobMessage(jobType, completed, value != ""), !completed)
  }

  /** The response of GetEnrichment: the row and the status of each requested job. */
  datatype EnrichmentView = EnrichmentView(enrichment: Enrichment, phone: Option<JobStatus>, email: Option<JobStatus>)

  /** GetEnrichment after the path has been parsed; the provider columns arrive through GetEnrichmentWithProviders. */
  function ViewEnrichment(t: Table, id: string, providers: map<string, Provider>): (r: Result<EnrichmentView, HttpError>)
    ensures r.Err? <==> id !in t
    ensures r.Err? ==> r.error == HttpError(404, "enrichment not found")
    ensures r.Ok? ==> r.value.enrichment == t[id]
  {
    match GetEnrichmentWithProviders(t, id)
    case None => Err(HttpError(404, "enrichment not found"))
    case Some((e, phoneProviderId, emailProviderId)) =>
      var jobs := RequestedJobs(e);
      var completed := e.completedJobs;
      Ok(EnrichmentView(
        e,
        if "phone" in jobs then Some(JobStatusFor("phone", "phone" in completed, e.result, phoneProviderId, providers)) else None,
        if "email" in jobs then Some(JobStatusFor("email", "email" in completed, e.result, emailProviderId, providers)) else None))
  }

  /** The status shown for a job, read from a view. */
  function StatusOf(v: EnrichmentView, jobType: string): Option<JobStatus> {
    if jobType == "phone" then v.phone else v.email
  }

  /** The provider column of a job. */
  function ProviderColumn(e: Enrichment, jobType: string): Option<string> {
    if jobType == "phone" then e.phoneProviderId else e.emailProviderId
  }

  /**
   * The view of a job, for every row: it is present exactly when the job was requested; it is
   * pending exactly when the job is not completed; a completed job shows the stored value with the
   * found message when the value is non-empty and "" with the not-found message otherwise; an
   * unfinished job shows the searching message; and a provider is shown exactly when the column
   * is non-empty and names a known provider.
   */
  lemma JobViewCases(t: Table, id: string, providers: map<string, Provider>, jobType: string)
    requires id in t && (jobType == "phone" || jobType == "email")
    ensures var v := ViewEnrichment(t, id, providers).value;
      var e := t[id];
      var s := StatusOf(v, jobType);
      var completed := jobType in e.completedJobs;
      var value := ResultEntry(e.result, jobType);
      var column := ProviderColumn(e, jobType);
      && (s.Some? <==> jobType in RequestedJobs(e))
      && (s.Some? ==> s.value.pending == !completed)
      && (s.Some? && completed && value != "" ==>
            s.value.result == value && s.value.message == JobMessage(jobType, true, true))
      && (s.Some? && completed && value == "" ==>
            s.value.result == "" && s.value.message == JobMessage(jobType, true, false))
      && (s.Some? && !completed ==> s.value.message == JobMessage(jobType, false, false))
      && (s.Some? ==>
            (s.value.currentProvider.Some? <==>
               column.Some? && column.value != "" && column.value in providers))
      && (s.Some? && s.value.currentProvider.Some? ==> s.value.currentProvider.value == providers[column.value])
  {
  }

  /**
   * After a run of the worker on a known contact, an existing row and a non-empty provider list,
   * no requested job is shown as pending.
   */
  lemma NoPendingJobAfterProcess(w: Worker.World, data: map<string, FindableData>, providers: seq<Provider>,
                                 id: string, userId: string, phoneDraws: seq<bool>, emailDraws: seq<bool>,
                                 now: int, directory: map<string, Provider>, jobType: string)
    requires userId in w.contacts && id in w.records && |providers| > 0
    requires jobType == "phone" || jobType == "email"
    requires jobType in RequestedJobs(w.records[id])
    ensures var t := Worker.Process(w, data, providers, id, userId, phoneDraws, emailDraws, now).records;
      && id in t
      && StatusOf(ViewEnrichment(t, id, directory).value, jobType).Some?
      && !StatusOf(ViewEnrichment(t, id, directory).value, jobType).value.pending
  {
    Worker.ProcessCompletesRequestedJobs(w, data, providers, id, userId, phoneDraws, emailDraws, now);
    var t := Worker.Process(w, data, providers, id, userId, phoneDraws, emailDraws, now).records;
    JobViewCases(t, id, directory, jobType);
  }

  /**
   * As written, a phone-only enrichment whose phone a provider found is shown as "not found after
   * checking all providers" with an empty result: the job is completed, but the provider write that
   * follows AddCompletedJob stores a NULL result, so the found value is not in the row.
   */
  lemma FoundPhoneShownWithoutValue(w: Worker.World, data: map<string, FindableData>, providers: seq<Provider>,
                                    id: string, userId: string, phoneDraws: seq<bool>, emailDraws: seq<bool>,
                                    now: int, k: nat, directory: map<string, Provider>)
    requires userId in w.contacts && id in w.records
    requires w.records[id].status == InProgress && w.records[id].completedJobs == []
    requires RequestedJobs(w.records[id]) == ["phone"]
    requires k < |providers| && Worker.Draw(phoneDraws, k) && forall m :: 0 <= m < k ==> !Worker.Draw(phoneDraws, m)
    requires Worker.Discovered(data, w.contacts[userId].id, "phone") != ""
    ensures var t := Worker.Process(w, data, providers, id, userId, phoneDraws, emailDraws, now).records;
      && id in t
      && ViewEnrichment(t, id, directory).value.phone.Some?
      && ViewEnrichment(t, id, directory).value.phone.value.result == ""
      && ViewEnrichment(t, id, directory).value.phone.value.message == "Phone number not found after checking all providers"
  {
    Worker.PhoneFoundEndsInProgress(w, data, providers, id, userId, phoneDraws, emailDraws, now, k);
    Worker.ProcessCompletesRequestedJobs(w, data, providers, id, userId, phoneDraws, emailDraws, now);
    var t := Worker.Process(w, data, providers, id, userId, phoneDraws, emailDraws, now).records;
    JobViewCases(t, id, directory, "phone");
  }
}
