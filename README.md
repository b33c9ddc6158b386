# Enrichment mock API: a sequential model in Dafny

This project models the core of a mock contact-enrichment service. A client starts an
*enrichment* for a contact and names the jobs it wants (`phone`, `email`). The row starts
`pending`. A background worker promotes due rows to `in_progress` and walks a list of data
providers for each requested job. A provider either finds the contact's ground-truth value or
misses. After both job runners the worker forces an empty value for each unfinished job. A row
completes when every requested job is in its `completedJobs`. Clients poll the row and see a
per-job status (pending flag, result, message, current provider).

The model has seven modules:

- `Wrappers`: `Option` and `Result`.
- `Models`: the record types of `internal/models/models.go`.
- `Strings`: ASCII `strings.ToLower`.
- `Database`: the `enrichments` table.
  - It is a class `DB` whose field `records: map<string, Enrichment>` the methods update in place.
  - Each SQL statement's effect is also a function on the table (`AddCompletedJobSpec`,
    `WithJobProvider`, `WithResultField`, `SeedFrom`). The methods are proved equal to those
    functions, and the lemmas are stated about the functions.
- `Data`: the directory.
  - It is a class `MockData`. Its contacts map is updated in place.
  - Third-party profiles, providers and ground-truth values are constant.
- `Worker`: the worker, run sequentially.
  - Randomness is replaced by an oracle sequence of booleans: provider `i` draws a success
    exactly when `Draw(draws, i)` holds.
  - The phone runner runs first, then the email runner, then the closure.
  - Each method is proved equal to a function on values (`RunJob`, `Process`, `PromoteAll`).
- `Handlers`: request validation, the job filter and the per-job status view.

The model follows the code as written, including where it contradicts its own comments:

- `UpdateEnrichmentStatusWithJobProvider` always writes `status`, `updatedAt` and `result`, and a
  nil result stores NULL. So the provider writes that follow a find clear the stored result, and
  the last of them reopens a row that `AddCompletedJob` had just completed. The comments at
  `internal/worker/worker.go` lines 419, 447 and 453 ("preserves the other field", "should have
  our value", "result is already saved") expect the found value to stay in the result.
- As a consequence, a phone-only enrichment whose phone is found ends `in_progress`, with an
  absent result and `completedJobs == ["phone"]` (`Worker.PhoneFoundEndsInProgress`). The status
  view then reports the phone as "not found after checking all providers"
  (`Handlers.FoundPhoneShownWithoutValue`).
- With both jobs requested, a found phone is lost from the result as well
  (`Worker.PhoneFoundEmailMissing`): the phone runner's own provider writes after the find
  (`internal/worker/worker.go` lines 426 and 454) store a NULL result, and the closure's empty
  email entry then creates a result whose phone entry is empty.
- `contactInfoMatches` compares the scalar hint fields exactly (case-sensitively). The
  comment at `internal/worker/worker.go` line 266 says case-insensitive. Only the list comparison ignores
  case.
- Only the provider columns are isolated per job type. `status` and `result` are not.

## Model

| member | source | states |
|---|---|---|
| Strings.ToLower | internal/data/mock_data.go:235 | lower-casing keeps the length, turns each upper-case ASCII letter into its lower-case form (code point + 32) and changes no other character |
| Strings.LowerAll | internal/worker/worker.go:310-315 | each element is lower-cased, in order |
| Strings.LowerAllPermutation | internal/worker/worker.go:310-315 | lower-casing the elements of two permutations of each other gives permutations of each other |
| Database.NewEnrichment | internal/database/database.go:137-163 | a new row is pending, not static, with createdAt == updatedAt == now, no result, no provider pointers and empty completedJobs; its jobs are ["phone"] when none were given and the given jobs otherwise |
| Database.GetEnrichment | internal/database/database.go:173-213 | the row when the id exists, none otherwise |
| Database.GetEnrichmentWithProviders | internal/database/database.go:216-249 | the row exactly when the id exists, with its phone and email provider ids, each handed on exactly when set and non-empty |
| Database.NonEmpty | internal/database/database.go:241-246 | a provider column is handed on exactly when it is set and non-empty |
| Database.GetEnrichmentJobs | internal/database/database.go:252-287 | an unknown id is an error; otherwise the completed jobs and the requested jobs, a NULL or empty column reading as ["phone"] |
| Database.WithResultField | internal/worker/worker.go:420-424 | assumed contract: sets only the given job's entry of the result (creating an empty result first), leaves every other row and field alone, and does nothing for an unknown id or another job type |
| Database.GetPendingEnrichments | internal/database/database.go:372-396 | exactly the rows that are pending, not static and created before now - olderThan |
| Database.SeedFromExtends | internal/database/database.go:534-560 | seeding keeps every existing row, makes every seed id present, and inserts only static seed rows |
| Database.SeedFromPresent | internal/database/database.go:538-545 | seeding a table that already holds every seed id changes nothing |
| Database.SeedingIdempotent | internal/database/database.go:495-570 | seeding twice is seeding once |
| Database.SeededNeverDue | internal/database/database.go:372-379 | a seeded row is static and is never returned as due |
| Database.AddCompletedJobCases | internal/database/database.go:290-369 | unknown id: error and no write; job already completed: no write; otherwise the job is appended once, updatedAt is now, result and jobs are kept; if every requested job is then completed the status is completed and all three provider pointers are cleared, otherwise nothing else changes |
| Database.AddCompletedJobIdempotent | internal/database/database.go:297-301 | completing the same job twice is completing it once |
| Database.AddCompletedJobNoDuplicates | internal/database/database.go:297-304 | completedJobs never gains a repeated job |
| Database.WithJobProviderColumns | internal/database/database.go:436-492 | status, updatedAt and result are always written; "phone" sets only the phone pointer, "email" only the email pointer; any other job type clears all three pointers when the status is completed and sets only the current pointer otherwise; jobs, completedJobs and identity are kept |
| Database.DB.constructor | internal/database/database.go:24-75 | a new store is empty |
| Database.DB.CreateEnrichment | internal/database/database.go:137-170 | inserts NewEnrichment under a fresh id and changes nothing else; a duplicate id is an error with no write |
| Database.DB.AddCompletedJob | internal/database/database.go:290-369 | the nested membership loops compute AddCompletedJobSpec; error exactly for an unknown id |
| Database.DB.UpdateEnrichmentStatus | internal/database/database.go:426-428 | the table becomes WithStatus of the old table |
| Database.DB.UpdateEnrichmentStatusWithProvider | internal/database/database.go:431-433 | the table becomes WithJobProvider with an empty job type |
| Database.DB.UpdateEnrichmentStatusWithJobProvider | internal/database/database.go:436-492 | the table becomes WithJobProvider of the old table |
| Database.DB.UpdateEnrichmentResultField | internal/worker/worker.go:421-424 | assumed contract: the table becomes WithResultField of the old table; error exactly for an unknown id |
| Database.DB.SeedStaticEnrichments | internal/database/database.go:495-570 | the insert-if-absent loop over the four seeds computes SeedFrom |
| Data.LookupThirdParty | internal/data/mock_data.go:232-237 | the profile stored under the lower-cased full name |
| Data.LookupThirdPartyIgnoresCase | internal/data/mock_data.go:232-237 | two names equal up to case find the same profile |
| Data.SeededProfileFoundInAnyCase | internal/data/mock_data.go:139-171 | every seeded profile is found under any casing of its key |
| Data.WithContactPhone | internal/data/mock_data.go:270-280 | only that contact's phone changes; an unknown id changes nothing |
| Data.WithContactEmail | internal/data/mock_data.go:283-293 | only that contact's email changes; an unknown id changes nothing |
| Data.MockData.constructor | internal/data/mock_data.go:49-221 | the directory holds the seeded contacts, profiles, providers and ground truth |
| Data.MockData.GetContact | internal/data/mock_data.go:224-229 | the contact when the id is known, none otherwise |
| Data.MockData.GetThirdPartyInfo | internal/data/mock_data.go:232-237 | the profile under the lower-cased name |
| Data.MockData.GetAllProviders | internal/data/mock_data.go:240-248 | every provider exactly once, as many entries as providers, in an order left open |
| Data.MockData.GetProvider | internal/data/mock_data.go:251-256 | the provider when the id is known, none otherwise |
| Data.MockData.GetEnrichmentData | internal/data/mock_data.go:259-267 | ("", "", false) for an unknown contact, the stored phone, email and true otherwise |
| Data.MockData.UpdateContactPhone | internal/data/mock_data.go:270-280 | unknown id: the error "contact not found: <id>" and no change; otherwise only that contact's phone changes |
| Data.MockData.UpdateContactEmail | internal/data/mock_data.go:283-293 | the same for the email field |
| Worker.DefaultConfig | internal/worker/worker.go:28-34 | poll every 10 s, promote after 10 s, base success rate 0.2 |
| Worker.StringSlicesEqual | internal/worker/worker.go:301-329 | the count-map comparison returns true exactly when the lists have the same length and the same lower-cased elements with multiplicity |
| Worker.CountLowered | internal/worker/worker.go:309-315 | the map holds the count of every lower-cased element and no other key |
| Worker.SlicesEqualSymmetric | internal/worker/worker.go:301-329 | the comparison is symmetric |
| Worker.SlicesEqualIgnoresOrder | internal/worker/worker.go:301-329 | reordering a list does not change the outcome |
| Worker.SlicesEqualIgnoresCase | internal/worker/worker.go:309-315 | a list compares equal to its lower-cased copy |
| Worker.ContactInfoMatches | internal/worker/worker.go:265-298 | true exactly when every non-empty scalar hint field equals the profile's exactly and every non-empty hint list compares equal to the profile's |
| Worker.EmptyHintMatches | internal/worker/worker.go:265-298 | an all-empty hint matches every profile |
| Worker.HintFromProfileMatches | internal/worker/worker.go:265-298 | a hint copied from the profile, with its lists in any order, matches |
| Worker.EffectiveSuccessRate | internal/worker/worker.go:153-172 | 0.8 exactly when a hint was given, a profile exists under the contact's full name and the hint matches it; the base rate otherwise |
| Worker.Discovered | internal/worker/worker.go:394-416 | for a known contact, the phone job yields its ground-truth phone and the email job its ground-truth email (a miss when that value is empty); a missing contact or another job type yields "" (a miss) |
| Worker.RunJobStopsWithoutWrite | internal/worker/worker.go:339-379 | the runner writes nothing when the row is missing or failed or its job is already completed |
| Worker.WithJobProviderTwice | internal/worker/worker.go:384-386 | of two provider writes for one job, the second wins |
| Worker.MissStep | internal/worker/worker.go:384-416 | a draw that fails, or succeeds without a value, records the provider and moves on to the next one |
| Worker.HitStep | internal/worker/worker.go:384-459 | a draw that yields a value records the provider and then the find |
| Worker.RunFromAllMiss | internal/worker/worker.go:337-468 | when no draw yields a value, every provider is visited in order and the last one is left as the job's provider, status in_progress, result cleared, nothing completed, no contact touched |
| Worker.RunFromFirstHit | internal/worker/worker.go:337-459 | the runner stops at the first provider in list order whose draw yields a value and records the find for it |
| Worker.LaterDrawsIrrelevant | internal/worker/worker.go:458 | draws after the first hit are never consulted |
| Worker.RecordFindOutcome | internal/worker/worker.go:419-459 | a find appends the job once and gives the contact the value, but leaves status in_progress, the result absent and the job's provider cleared |
| Worker.WithJobProviderEvolves | internal/database/database.go:436-492 | a provider write keeps the row's identity, requested jobs and completed jobs |
| Worker.WithResultFieldEvolves | internal/worker/worker.go:421 | a result-field write keeps the row's identity, requested jobs and completed jobs |
| Worker.AddCompletedJobEvolves | internal/database/database.go:290-369 | completing a job only appends to completedJobs, and completing a requested job keeps completedJobs within the requested jobs |
| Worker.RunFromEvolves | internal/worker/worker.go:333-469 | a runner for a requested job keeps the row's identity, only grows completedJobs, and keeps completedJobs within the requested jobs |
| Worker.ProcessFailsEarly | internal/worker/worker.go:118-151 | unknown contact, missing row or no provider: the row is failed (result and current pointer cleared), no runner starts, nothing else changes |
| Worker.CloseJobEvolves | internal/worker/worker.go:208-248 | one closure step completes its job and keeps the row's identity |
| Worker.CloseJobResult | internal/worker/worker.go:208-248 | one closure step leaves its job a present, empty result entry and keeps the other job's entry |
| Worker.CloseUnfinishedCompletes | internal/worker/worker.go:199-248 | the closure completes every requested phone and email job, and every job it closes ends with a present, empty result entry ("set to empty string if not found") |
| Worker.ProcessCompletesRequestedJobs | internal/worker/worker.go:116-262 | after a full run every requested phone and email job is completed, completedJobs only grew and stays within the requested jobs, no other row changed |
| Worker.PhoneExhaustedEndsCompletedEmpty | internal/worker/worker.go:199-228 | a phone-only request, in progress with nothing completed, whose phone every provider missed ends completed, with an empty (not absent) phone result and no provider pointers |
| Worker.PhoneFoundEndsInProgress | internal/worker/worker.go:419-459 | a found phone (phone-only request) leaves the row in_progress with no result; the value reaches the contact only |
| Worker.PhoneFoundEmailMissing | internal/worker/worker.go:174-248 | phone found, email absent, both requested: the row completes, but both result entries are empty |
| Worker.EmailMissThenClose | internal/worker/worker.go:199-248 | an email runner that misses everywhere, then the closure, completes the row with both entries empty |
| Worker.PromotionLeavesNothingDue | internal/worker/worker.go:92-111 | after promotion every due row is in_progress, no other row changed, and no row is due any more at that instant |
| Worker.Contains | internal/worker/worker.go:210-215 | the membership scan finds x exactly when x is in the list |
| Worker.Worker.constructor | internal/worker/worker.go:45-53 | the worker holds the given store, directory and configuration |
| Worker.Worker.ProcessPendingEnrichments | internal/worker/worker.go:92-111 | the due rows are promoted to in_progress (status, updatedAt, result and current pointer written), nothing else changes, and one launch per due row is returned, carrying its user id |
| Worker.Worker.ProcessJobForEnrichment | internal/worker/worker.go:333-469 | the provider loop leaves the store and the contacts as RunJob says |
| Worker.Worker.ProcessEnrichmentThroughProviders | internal/worker/worker.go:116-262 | the store and contacts end as Process says; the providers used are the directory's; the success rate is EffectiveSuccessRate |
| Worker.NeededJobs | internal/worker/worker.go:134-143 | the scan reports exactly whether phone and email were requested |
| Worker.Worker.SuccessRateFor | internal/worker/worker.go:153-172 | the rate is EffectiveSuccessRate |
| Worker.Worker.CloseUnfinishedJobs | internal/worker/worker.go:199-248 | the closure leaves the table as CloseUnfinished says |
| Handlers.Filtered | internal/handlers/handlers.go:94-102 | the filter keeps only phone and email entries and never lengthens the list |
| Handlers.FilteredConcat | internal/handlers/handlers.go:94-102 | filtering a concatenation filters each part in turn, so the kept entries keep their order |
| Handlers.FilteredCounts | internal/handlers/handlers.go:94-102 | every phone or email entry is kept as often as it occurs and every other entry is dropped |
| Handlers.ValidateStartRequest | internal/handlers/handlers.go:88-107 | empty userId: 400 "userId is required"; empty jobs pass unchanged; non-empty jobs that filter to nothing: 400 "jobs must contain 'phone' and/or 'email'"; otherwise the filtered jobs |
| Handlers.StartEnrichment | internal/handlers/handlers.go:76-122 | a rejected request writes nothing; an accepted one inserts the new pending row with the filtered jobs and answers with its id |
| Handlers.StartedJobsAreValid | internal/handlers/handlers.go:94-109 | a started row's requested jobs are non-empty and only phone or email |
| Handlers.TrimPrefix | internal/handlers/handlers.go:135 | the prefix is removed exactly when the path starts with it |
| Handlers.ParseEnrichmentId | internal/handlers/handlers.go:135-139 | the id is the path with the "/enrichment/" prefix trimmed; a trimmed id of "" or "start" is a 400 "missing enrichment ID" |
| Handlers.ViewEnrichment | internal/handlers/handlers.go:141-248 | an unknown id is a 404 "enrichment not found"; a known id answers with the stored row itself, unchanged, beside the per-job statuses |
| Handlers.JobViewCases | internal/handlers/handlers.go:158-246 | a job's status is present exactly when it was requested; pending exactly when not completed; a completed job shows its stored value with the found message, or "" with the not-found message; an unfinished job shows the searching message; a provider is shown exactly when the column is non-empty and names a known provider |
| Handlers.NoPendingJobAfterProcess | internal/handlers/handlers.go:175-177 | after a full worker run no requested job is shown as pending |
| Handlers.FoundPhoneShownWithoutValue | internal/handlers/handlers.go:187-198 | a phone the worker found is shown with an empty result and the not-found message |

## Left out

- The SQL and SQLite plumbing (`New`, `migrate`, `Close`, query strings, NULL scanning, JSON
  columns). Columns are typed fields; a NULL or empty `jobs` column is `None`.
- Store failures other than an unknown id (connection errors, JSON decoding errors). The store
  methods fail only where a missing row makes them fail.
- `time.Now` and RFC 3339 strings: a timestamp is an integer parameter `now`. `uuid.New`: the new
  id is a parameter, and an id already present is an error (the INSERT's key conflict).
- Worker.Process, Worker.RunFrom, Worker.RunJob and Worker.CloseUnfinished (and the worker methods
  proved equal to them): one `now` stamps every write of the whole run, whereas the Go store reads
  the clock at each write (database.go lines 328 and 437). The model therefore does not
  distinguish the `updatedAt` values of successive writes within one run; the row's final
  `updatedAt` is that single `now` rather than the time of its last write.
- Goroutines, `sync.WaitGroup` and the ticker loop (`Start`, `Stop`, `run`). The two job runners
  run one after the other, phone first. Interleavings of the two runners are not modelled.
  Promotion returns the launches instead of starting them.
- `time.Sleep`, `rand.Intn` and the `float32` success draw. A provider's draw is the oracle entry
  `Draw(draws, i)`. The success rate is computed and returned, but it does not shape the draws.
- Logging, the HTTP plumbing (`writeJSON`, `writeError`, method checks, body decoding),
  `HealthCheck`, `GetContacts` and `GetContact` handlers, and the whole of `cmd/server`.
- `GetInProgressEnrichments`: nothing in the core calls it.
- `GetThirdPartyInfo`'s artificial latency.
- Strings.ToLower: only ASCII letters are lower-cased; Go's `strings.ToLower` also folds other
  Unicode letters.
- Database.WithResultField and Database.DB.UpdateEnrichmentResultField: the body of
  `UpdateEnrichmentResultField` is not part of this model. Its contract is assumed: it writes only
  the named job's entry and fails only for an unknown id.
- The contact hint: `GetEnrichmentContactInfo` is not part of this model, and
  `CreateEnrichment` is called with a third argument its definition does not take. The hint is
  an `Option` input of the orchestrator, and `StartEnrichment` does not store it.
- `GetAllContacts` is not part of this model.
- The seed for Bob's completed row: its result names fields that `models.EnrichmentResult` does
  not have. It is modelled as a present result with both entries empty.
- Handlers.ViewEnrichment: the flag-search loops over `jobs` and `completedJobs` are stated as
  sequence membership.
