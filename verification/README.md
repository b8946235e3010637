# Verified model of the release engine's core

A Dafny model of the hard parts of a release engine, a service that accepts jobs over HTTP, schedules
them through a database, runs provisioning modules, gates them on human approval and renders
infrastructure manifests. `dafny verify dfyconfig.toml` checks the whole project.

## What is modelled

- **The job protocol** (`JobTable`, `JobProtocol`): the tables `jobs`, `jobs_read`, `steps`,
  `approval_decisions` and `idempotency_keys`, a clock, the create calls, the runners and the decision calls,
  as one step relation. Each SQL statement is one atomic step and there are no larger transactions; steps of
  all processes interleave freely and any process may stop for ever. Run ids and job ids are fresh, the clock
  does not go back, the cron library is any fixed function from a schedule and a time to a next time or an error. A claim takes any set of at most ten
  eligible jobs. `ProtocolInvariants` holds what every step keeps; `RowEffects` says what each statement
  writes, column by column; `Fencing`, `Attempts`, `Schedules`, `ReadProjection`, `IntakeHistory` and `ApprovalParking` hold the theorems over whole runs. `Scenarios` puts runs together, to show
  that what is said to be possible really happens from an empty database. `Backoff` is the retry delay.
- **Intake** (`Intake`): validation, fingerprints, the in-memory handler as a class, the database handler as it
  serves one request after the other, and when the two reply alike. SHA-256 is taken to be injective.
- **The approval service** (`ApprovalPolicy`, `ApprovalModel`, `ApprovalService`, `ApprovalRuns`,
  `ApprovalEffects`): the object
  with its maps and event log, proved step by step against a value model, and theorems over all runs of it
  from freshly seeded steps. The model keeps the accepted decisions and drained events as history.
- **The rate limiter** (`RateLimiter`): token buckets over real numbers, the buckets of all tenants, the
  objects proved against them.
- **Canonical YAML** (`Yaml`, `YamlInPlace`): the sorted form of a tree as a function on values, and the
  in-place algorithm on linked nodes that computes it.
- **The infrastructure workflow** (`HealthPolling`, `Workflow`): the provisioning workflow over every answer of
  its connectors, the polling loop over every clock whose passes last at least one interval. The timeouts are the
  fixed ones of `checkHealth`; what the module is configured with is read by the code and not used.
- **Rendering** (`Capabilities`, `Catalogue`, `Render`): from a request to its resources, with the catalogue
  check. A capability's fragment is one named part that may fail to validate or render; its parameter builder
  is any function.

`Text` has the string operations these rest on.

## Where the code does not do what one would expect

The model follows the code. Each of these is proved, with the exact condition where there is one.

- A success requeue of a scheduled job does not reset `attempt`, so a job stays within its attempts in every run
  exactly when its request has no schedule or the schedule has run out by the earliest time the job can be at its
  last attempt (`Schedules.WithinAttemptsIff`).
- A scheduled job never succeeds, not even when its schedule has run out (`Schedules.ScheduledNeverSucceeds`).
- The retry delay function shrinks when the policy's base is negative, and only then (`Backoff.NeverShrinksIff`).
  No statement of the service sets a policy, so every job waits by the default one
  (`Attempts.RetryWaitsItsDelay`, `Backoff.DefaultDelay`).
- The unique index on `jobs` spans tenant and key but not the path, so a second path's call can be recorded, fail
  and never get a job (`IntakeHistory.RecordedButNeverCreated`, `IntakeHistory.InsertSucceedsIff`,
  `IntakeHistory.CrossPathKeyOrphans`). The handler in memory accepts it.
- The in-memory handler's joined key is ambiguous when one tenant id is another followed by a bar and text a path can
  start with. Together these are the only ways the two handlers can differ (`Intake.AgreementIff`, `Intake.TenantsCollideIff`).
- The fingerprint of a create request does not cover the maximum number of attempts (`Intake.ReplayIff`).
- Replaying a decision key from another job overwrites the job column and hides the decision; nothing else does
  (`ApprovalParking.ReadableUnlessMisfiled`, `ApprovalParking.CrossJobReplayHidesDecision`).
- A step row keeps the run id of its first writer, so a waiting run can be answered exactly when it wrote the row
  first; a second run at the same attempt keeps its job, unanswered, until the row is written again (`ApprovalParking.AnswerableIff`,
  `ApprovalParking.StuckForEver`).
- A runner that stops while a step of its job waits for approval leaves the job running for ever
  (`ApprovalParking.DesertedForEver`).
- Steps are kept under job and step joined with a colon, so an approval can count for another job's step exactly when
  a name contains one (`ApprovalRuns.OnlyOwnApprovalsIff`).
- A decision's payload string is ambiguous exactly when a field contains a bar (`ApprovalRuns.PayloadIdentifiesIff`).
- After a remediation the success callback names the first commit, not the one found healthy
  (`Workflow.SuccessNamesVerifiedCommitIff`).
- A failure callback without a string address panics, and so does a terminal commit error without details
  (`Workflow.Execute`, `Workflow.MissingCallbackCrashes`). The recommit's status is not looked at.
- A status report about another commit ends a polling round at once (`HealthPolling.StaleReportEndsRound`).

## Model

| member | source | states |
|---|---|---|
| `Fencing.RunsRefine` | internal/runner/service.go:150-310 | in every run, for any number of schedulers and runners in any interleaving, each job is in exactly the state its own log of claims and finishes leads a sequential one-job machine to, and that log is legal for the machine |
| `Fencing.FinishPairsWithLatestClaim` | internal/runner/service.go:169-198 | in every run each finish of a job is made by the run id of the job's latest claim, no run id occurs in two claims of the job, and each run id finishes the job at most once |
| `Fencing.RunIdsServeOneJob` | internal/scheduler/service.go:98-104 | in every run the logs of two different jobs have no run id in common, neither in claims nor in finishes |
| `Fencing.EventsFresh` | internal/scheduler/service.go:98-104 | whatever job a step claims, the run id it stamps was never issued to any job before |
| `Fencing.StaleRunnerIsHarmless` | internal/runner/service.go:181-198 | a runner whose job was reclaimed never changes any job row again, whatever it still does and however late |
| `Fencing.SupersededForEver` | internal/scheduler/service.go:98-110 | a run id that is no longer the job's current one never becomes it again |
| `Fencing.ClaimsAreFresh` | internal/scheduler/service.go:98-104 | in every run all claims of a job carry different run ids, and every one of them is on record as issued to that job and no other |
| `Fencing.LegalLogPairs` | internal/runner/service.go:238-251 | in any legal log every finish directly follows the claim of the same run, so finishes and claims pair up |
| `ProtocolInvariants.InvAlways` | internal/runner/service.go:52-331 | the protocol invariant (row shapes, attempt budgets, stamped run ids, intake bookkeeping, projection ownership) holds in every reachable state |
| `RowEffects.FinaliseEffect` | internal/runner/service.go:141-310 | in every run, by columns of the row an effective finalise leaves: a terminal error exhausts the job at any attempt, with its code and message; a failure exhausts it exactly when no attempt is left and otherwise queues it after its delay, with its code and message; a success ends an unscheduled job, with no error, and queues a scheduled one for the run the cron library reported when its runner read the schedule; owner and lease go, attempt, run id and the fixed columns stay, and no other row is written |
| `RowEffects.FinishingWasRead` | internal/runner/service.go:150-167 | a runner about to finish read the schedule of its job earlier in the run, and holds what it read |
| `RowEffects.PositionEffect` | internal/runner/service.go:52-198 | where each statement takes its runner: one that no longer holds its job stops when it fetches the job, reads its schedule or finalises, one that holds it goes on; no other runner is moved |
| `RowEffects.ClaimEffect` | internal/scheduler/service.go:98-110 | by columns of every row a claim takes: running, owner, new run id, a lease of sixty seconds, one attempt more exactly if it was queued, the first start kept, the rest unchanged; rows it does not take are left alone |
| `RowEffects.InsertEffect` | internal/transport/http/job_handler.go:305-313 | by columns of the row intake inserts: queued at attempt 0 for the first run asked for or the time of acceptance, the columns of the request, the default policy |
| `RowEffects.StepEffect` | internal/runner/step_api.go:170-224 | ending a step records whether it went well, parking it that it waits; the row keeps its first run and no other row is written |
| `RowEffects.DecisionEffect` | internal/transport/http/job_handler.go:576-583 | a decision call stores exactly the decision it was asked to store, dated now, and nothing when its approver has already decided on the step under another key |
| `RowEffects.MayDecideIff` | internal/transport/http/job_handler.go:547-562 | who may decide on a step of a job: somebody with a name, of the job's tenant, in one of the two approving roles |
| `RowEffects.HolderKnowsItsAttempt` | internal/runner/service.go:52-85 | in every run a runner that holds its job writes its steps, and waits for approval, under the attempt the job is at |
| `Attempts.AttemptCountsTakes` | internal/scheduler/service.go:98-109 | in every run `attempt` is the number of claims taken from `queued`; lease-expiry reclaims do not count |
| `Attempts.AttemptsBounded` | internal/runner/service.go:238-251 | an unscheduled job never exceeds `max_attempts`, and is queued only while an attempt is left |
| `Schedules.WithinAttemptsIff` | internal/runner/service.go:141-251 | for every cron library that reports the first occurrence after a time: in every run from an empty database started at a given time or later the job of a request stays within the attempts it asks for, if and only if the request has no schedule or its schedule has no occurrence after the earliest time the job can be at its last attempt |
| `Schedules.InTimeAlways` | internal/runner/service.go:169-251 | in every run, when the schedule runs out by then, no attempt of the job comes before its earliest time and none after the last is ever queued |
| `Schedules.EarliestIsReached` | internal/runner/service.go:169-251 | every attempt up to the last can be reached, from an empty database, at exactly that earliest time: by failing or by succeeding, whichever requeues sooner |
| `Schedules.EndlessRequestOverruns` | internal/runner/service.go:169-179 | a schedule that never ends brings the job past any number of attempts |
| `Schedules.NeverOccurringStaysWithin` | internal/runner/service.go:338-354 | a schedule that never occurs keeps the job within its attempts, although it is present |
| `Schedules.ScheduledNeverSucceeds` | internal/runner/service.go:157-179 | in every run a scheduled job is never `succeeded`, not even when its schedule has run out |
| `Attempts.BoundedCompletion` | internal/runner/service.go:181-251 | in every run an unscheduled job's claims from the queue and finishes are exactly what its measure 2·(max_attempts−attempt)+(1 if running) has lost, so there are at most 2·max_attempts of them; reclaims leave the measure alone |
| `Attempts.LogSpendsMeasure` | internal/runner/service.go:238-251 | along every legal log the measure falls by exactly one at every claim from the queue and every finish |
| `Attempts.RowsShaped` | internal/runner/service.go:169-191 | in every reachable state owner and lease are set exactly on running rows, queued rows have `next_run_at`, terminal rows have `finished_at` and no `next_run_at` |
| `Attempts.TerminalForEver` | internal/runner/service.go:294-310 | a `succeeded` or `jobs_exhausted` row never changes in any column |
| `Attempts.EventlessStepKeepsRow` | internal/scheduler/service.go:76-110 | the log misses nothing: a job row changes only in a step that adds to its log, and a queued job is only taken when due |
| `Attempts.RetryWaitsItsDelay` | internal/runner/service.go:238-257 | after a retryable failure at attempt n nothing happens to the job before the failure time plus the delay of attempt n under the default policy, the only one a job ever has |
| `Attempts.LeaseProtects` | internal/scheduler/service.go:80-109 | between two claims of a job with no finish in between at least the sixty-second lease passes: no scheduler takes a job from a runner earlier |
| `Backoff.DelayGrowsToCap` | internal/db/schema.go:537-543 | with a non-negative base the delay never shrinks from one attempt to a later one and never passes the cap |
| `Backoff.DelayDoubles` | internal/db/schema.go:537-543 | the delay starts at the base and doubles with every further failure until it meets the cap |
| `Backoff.NeverShrinksIff` | internal/db/schema.go:537-543 | the delay is monotone for exactly the policies whose base is not negative |
| `Backoff.DefaultDelay` | internal/db/schema.go:537-543 | a policy that sets nothing waits 2 to the power n seconds after the nth failure up to the eighth, and 300 seconds from then on |
| `ReadProjection.ProjectionNeverGoesBack` | internal/runner/service.go:200-221 | in every run each `jobs_read` row equals, column by column, a row `jobs` really held, and its successive contents come from ever later states, including the race between intake's insert and a finaliser's upsert |
| `ReadProjection.InsertedRowWasThere` | internal/transport/http/job_handler.go:307-329 | the columns intake still holds when it inserts into `jobs_read` are those of a row `jobs` held earlier in the run |
| `ReadProjection.CopySettles` | internal/runner/service.go:259-280 | once the copy after a terminal finalise has run, `jobs` and `jobs_read` agree on the job in every column for ever |
| `ReadProjection.SettledForEver` | internal/runner/service.go:200-221 | an agreed terminal row stays agreed through every later step, stale copies included |
| `Intake.FirstEnvelopeWins` | internal/transport/http/job_handler.go:247-257 | over any sequence of creates the first record stored under a key is the only one ever answered: as a replay exactly when it is not the first call and fingerprints match, as a conflict exactly when they differ |
| `Intake.StoreHoldsFirst` | internal/transport/http/job_handler.go:247-257 | the store holds exactly the keys seen so far, each with its first record |
| `Intake.ReplayIff` | internal/transport/http/job_handler.go:213-257 | a later create for a key is a replay exactly when it agrees with the first on parameters, callback, schedule and first run time; the number of attempts is not compared, and the answer carries the first one's figure |
| `Intake.DbReplyExact` | internal/transport/http/job_handler.go:259-336 | on the database a create fails exactly when it is the first for its triple and an earlier one of its tenant used its key under another path; every other create is answered from the key table |
| `Intake.AgreementIff` | internal/transport/http/job_handler.go:162-336 | the handler in memory, keyed by tenant, path and key joined with bars, and the handler on the database, with its jobs insert, reply alike to a sequence of creates if and only if no two different triples join to the same text and no tenant uses a key under two paths |
| `Intake.CrossPathDisagrees` | internal/transport/http/job_handler.go:305-313 | one tenant, one key, two paths: the second create fails on the database and is accepted as new in memory |
| `Intake.KeyTablesAgreeIff` | internal/transport/http/job_handler.go:162-257 | the two tables of idempotency records alone give the same answers if and only if no two different triples join to the same text |
| `Intake.TenantsCollideIff` | internal/transport/http/job_handler.go:131-162 | admissible requests of two tenants can collide on a key exactly when one id is the other followed by a bar and text that is empty or does not start with white space, for paths are trimmed |
| `Intake.BarFreeTenantsAgree` | internal/transport/http/job_handler.go:162-336 | for admissible requests, when no tenant id extends another in that way, in particular when none contains a bar, the two handlers agree exactly on the sequences in which no tenant uses a key under two paths (valid keys never contain a bar; paths may) |
| `Intake.BarredTenantCollides` | internal/transport/http/job_handler.go:131-162 | a tenant id that extends another in that way breaks the agreement: whatever its path and key, some admissible request of the shorter tenant collides |
| `Intake.JobHandler.CreateJob` | internal/transport/http/job_handler.go:118-204 | a request that fails validation is refused with the first failed rule and changes nothing; one whose key is new is answered 202 with its job id, trimmed tenant and path, attempts, acceptance time and first run; every other one is answered from the store as the sequence model says |
| `Intake.JobHandler.HandleInMemory` | internal/transport/http/job_handler.go:247-257 | the stored map and the answer are those of the model; existing records are never changed |
| `Intake.Validate` | internal/transport/http/job_handler.go:118-160 | a request is let through exactly when tenant and path are not blank, the key has 1 to 128 letters, digits, hyphens, full stops or underscores, and callback and schedule are absent or parse; tenant, path and schedule then lose exactly the white space at their ends, fewer than one attempt becomes three, and nothing else changes |
| `IntakeHistory.AnswersAreTruthful` | internal/transport/http/job_handler.go:259-360 | in every run of the database protocol every answered call was given the one record its key will ever have: its own when it was accepted, the existing one as a replay when fingerprints match and as a conflict when they do not |
| `IntakeHistory.OneAcceptancePerKey` | internal/transport/http/job_handler.go:259-360 | of all the calls for one (tenant, path, key) at most one is accepted as new, and every other answer carries its envelope |
| `IntakeHistory.RecordsForEver` | internal/transport/http/job_handler.go:338-360 | an idempotency record is never changed or removed |
| `IntakeHistory.EveryJobHasItsRecord` | internal/transport/http/job_handler.go:259-336 | in every reachable state every job has its idempotency record, which names it |
| `IntakeHistory.RecordedButNeverCreated` | internal/db/schema.go:110-113 | the converse is false: a call recorded while its tenant already has a job with that key, under any path, never gets a job although its record is returned for ever |
| `IntakeHistory.InsertSucceedsIff` | internal/transport/http/job_handler.go:305-313 | the job insert of a recorded call takes effect exactly when no job of its tenant has the key |
| `IntakeHistory.CrossPathKeyOrphans` | internal/db/schema.go:110-113 | any two admissible requests of one tenant with the same key and different paths really get there: a run in which the second call ends broken, its record in place and without a job, while the handler in memory accepts it |
| `IntakeHistory.SerialRun` | internal/transport/http/job_handler.go:259-336 | any requests can be served one after the other from an empty database, and each call then ends exactly as the sequential database handler says: this ties that handler to the statements of the protocol |
| `ApprovalParking.ParkedJobIsNotReclaimed` | internal/scheduler/service.go:80-110 | while some step of a job is `waiting_approval` nothing changes the job's run id or attempt, even after its lease has expired |
| `ApprovalParking.ReturnedDecisionIsOurs` | internal/runner/step_api.go:581-624 | any decision `WaitForApproval` returns was recorded, earlier in the run, for the very job, run and step row the runner waits on, with the verdict it returns, and no such decision is newer |
| `ApprovalParking.DecisionForEver` | internal/transport/http/job_handler.go:576-583 | a recorded decision keeps verdict, approver, justification, step, run and time for ever; replaying its key alters at most the job column |
| `ApprovalParking.DecisionWasRecorded` | internal/transport/http/job_handler.go:576-583 | every decision row in the table was put there by one decision call of the run, with that call's step, run, verdict, approver and justification |
| `ApprovalParking.DecisionWasAuthorised` | internal/transport/http/job_handler.go:531-562 | that call had, earlier in the run, found the step waiting and its approver let through by the policy for the job's tenant and the two approving roles |
| `ApprovalParking.StepKeepsDecision` | internal/transport/http/job_handler.go:576-583 | a step leaves a recorded decision exactly as it is unless it is a decision call under its key for a step of a job other than the one in its job column, which then changes that column and nothing else |
| `ApprovalParking.ReadableUnlessMisfiled` | internal/runner/step_api.go:589-606 | a decision a waiting runner can read stays readable through a step of anybody else if and only if the step is not a decision call of another job under the same key |
| `ApprovalParking.CrossJobReplayHidesDecision` | internal/transport/http/job_handler.go:576-583 | any two jobs with different index keys get there from an empty database: a reachable state in which the first runner's poll would return the decision, and the replay after which it cannot |
| `ApprovalParking.MisfiledDecisionIsUnreadable` | internal/runner/step_api.go:589-606 | a decision whose job column no longer names the job of its step is returned to nobody |
| `ApprovalParking.StepRunForEver` | internal/runner/step_api.go:560-573 | the upsert of a step row never updates its run id: a row names for ever the run that first wrote it |
| `ApprovalParking.AnswerableIff` | internal/runner/step_api.go:560-606 | in every reachable state a run that waits on a waiting row can still be answered, in some continuation, if and only if the row names that run |
| `ApprovalParking.SecondRunIsNeverAnswered` | internal/runner/step_api.go:560-606 | a run that waits on a row written by another run is answered in no continuation at all |
| `ApprovalParking.StuckForEver` | internal/scheduler/service.go:80-110 | the job such a run holds is stuck until some runner writes the step row again: its row stays running and unchanged, no scheduler may claim it, no decision reaches it |
| `ApprovalParking.StuckIsReachable` | internal/runner/step_api.go:170-198 | any job can get there from an empty database: the first run ends the step and falls silent, its lease runs out, the second run at the same attempt waits for approval of the same step |
| `ApprovalParking.DesertedForEver` | internal/scheduler/service.go:80-110 | a job whose runners have all stopped while a step of it waits for approval is lost: in every continuation its row stays running and unchanged, whatever is decided and however long ago its lease ran out |
| `ApprovalParking.DesertedIsReachable` | internal/runner/step_api.go:560-581 | any job can get there from an empty database: its runner stops while it waits for approval |
| `ApprovalPolicy.Evaluate` | internal/transport/http/services.go:28-61 | an approver is let through exactly when present, not the owner (unless self-approval is on), of the right tenant, of an allowed role and within budget |
| `ApprovalPolicy.EvaluateApproval` | internal/transport/http/services.go:28-61 | the scan over allowed roles computes that evaluation, with the same first violation |
| `ApprovalPolicy.EqualFoldByCode` | internal/transport/http/services.go:46-53 | roles match when they are equally long and each pair of characters is the same or the two cases of one ASCII letter |
| `ApprovalService.Approvals.SubmitDecision` | internal/transport/http/services.go:407-511 | the object performs exactly the model's decision step and gives its reply |
| `ApprovalService.Approvals.TickApprovals` | internal/transport/http/services.go:316-379 | the object performs a model tick that visits every step once, in an order the caller does not choose |
| `ApprovalService.Approvals.SeedStep` | internal/transport/http/services.go:279-314 | seeding stores the step with its default times and records one request event |
| `ApprovalService.Approvals.DrainEvents` | internal/transport/http/services.go:381-391 | draining returns all pending events in order and leaves none |
| `ApprovalService.Approvals.CountApproved` | internal/transport/http/services.go:468-473 | the scan counts the distinct approvers whose decision is `approved` |
| `ApprovalRuns.InvAlways` | internal/transport/http/services.go:279-511 | in every run every step's status, tally, backing ballots and event trace fit together |
| `ApprovalEffects.SeedEffect` | internal/transport/http/services.go:279-314 | a seeded step waits, without decisions, from the given time or now, for the given time or forty-eight hours, and its request event is recorded |
| `ApprovalEffects.RecordEffect` | internal/transport/http/services.go:455-511 | a recorded decision: the vote is kept, a rejection ends the step, the approval that completes the quorum lets it run; the reply carries that state and the number of approvals still missing |
| `ApprovalEffects.RefusalEffect` | internal/transport/http/services.go:407-453 | a decision that is not recorded changes nothing, and the caller gets a replay or the failure of the first rule it breaks |
| `ApprovalEffects.KeyOnRecord` | internal/transport/http/services.go:411-427 | in every run a key is on record exactly if an earlier call recorded a decision under it; the record holds that call's payload and answer |
| `ApprovalRuns.Quorum` | internal/transport/http/services.go:407-486 | in every run of seeds, decisions, ticks and drains a step is `running` only if exactly max(1, MinApprovers) distinct approvers, each let through by the policy, approved under its key and nobody rejected under it; a waiting step has fewer approvals than required and no rejection |
| `ApprovalRuns.OnlyOwnApprovalsIff` | internal/transport/http/services.go:268-271 | a step counts only approvals addressed to that job and step, in every run, if and only if neither its name nor its job's contains a colon, the character keys are joined with |
| `ApprovalRuns.StrayApproval` | internal/transport/http/services.go:268-271 | for every job and step with a colon, a run in which an approval addressed to another job brings the step to run |
| `ApprovalRuns.EventTrace` | internal/transport/http/services.go:279-391 | in every run the event history of each step follows the trace grammar and the phase it ends in is the step's status |
| `ApprovalRuns.TraceGrammar` | internal/transport/http/services.go:482-524 | a well-formed trace starts with its only request and has at most one escalation |
| `ApprovalRuns.NothingAfterClosing` | internal/transport/http/services.go:482-524 | nothing may follow a rejection, the decision that completes the quorum, or an expiry |
| `ApprovalRuns.NothingLost` | internal/transport/http/services.go:381-391 | in every run the drained batches followed by the pending events are exactly the events emitted so far, in order |
| `ApprovalRuns.DecisionReplay` | internal/transport/http/services.go:411-427 | once a decision call has succeeded every later call with its key and payload returns the same output marked as replay and changes nothing, even after the step ended; the key with another payload string is a conflict |
| `ApprovalRuns.PayloadIdentifiesIff` | internal/transport/http/services.go:411-427 | a payload string identifies its payload, among all payloads with its key, if and only if no field of the payload contains a bar |
| `ApprovalRuns.PayloadIdentifies` | internal/transport/http/services.go:411-427 | a payload without bars is the only one with its payload string |
| `ApprovalRuns.BarConfuses` | internal/transport/http/services.go:411-427 | for every payload with a bar in any field there is a different payload with the same key and payload string |
| `ApprovalRuns.TickOrderIrrelevant` | internal/transport/http/services.go:316-379 | whatever order the map is walked in, a tick leaves the same state and emits the same multiset of events |
| `ApprovalRuns.TickExact` | internal/transport/http/services.go:316-379 | a tick updates every step once, independently of the others, and appends one batch of events |
| `ApprovalRuns.TickSettles` | internal/transport/http/services.go:316-379 | a second tick at the same instant changes nothing, and no waiting step is left at or past its expiry |
| `ApprovalEffects.TickEffect` | internal/transport/http/services.go:316-379 | a tick expires a waiting step exactly from its deadline on, and escalates it exactly if it is not escalated, not expired and four fifths of its time to live have passed, to the nanosecond; it emits the matching event and changes no other column |
| `ApprovalEffects.WindowEscalates` | internal/transport/http/services.go:330-352 | in every run a tick that finds a waiting step in that window leaves it escalated and its event in the history |
| `ApprovalEffects.EscalatedByTick` | internal/transport/http/services.go:330-352 | in every run a step has its escalation event only if some tick found it waiting, not escalated, and in that window |
| `ApprovalEffects.ExpiredByTick` | internal/transport/http/services.go:354-376 | in every run a step has its expiry event only if some tick found it waiting at or past its deadline |
| `ApprovalRuns.StillbornNeverEscalates` | internal/transport/http/services.go:331-352 | in every run a step seeded with a non-positive time to live is never escalated |
| `ApprovalRuns.NonPositiveTtl` | internal/transport/http/services.go:331-376 | such a step is expired by the first tick at or after its request |
| `RateLimiter.RateBound` | internal/transport/http/middleware.go:129-146 | for every sequence of calls at non-decreasing times the number admitted between s and t is at most capacity + refill·(t−s), wherever the window lies |
| `RateLimiter.Spent` | internal/transport/http/middleware.go:129-146 | tokens spent plus tokens left never exceed tokens held plus tokens poured in |
| `RateLimiter.StaysSound` | internal/transport/http/middleware.go:129-146 | tokens stay within [0, capacity] along every sequence of calls |
| `RateLimiter.CallTakesOne` | internal/transport/http/middleware.go:129-146 | a call is admitted exactly when the tokens held plus refill·(t−last), cut at the capacity, reach one, and takes exactly one |
| `RateLimiter.BurstAdmitted` | internal/transport/http/middleware.go:129-146 | at any time as many calls in a row are admitted as whole tokens are available |
| `RateLimiter.BurstEnds` | internal/transport/http/middleware.go:129-146 | and the next one at the same time is refused |
| `RateLimiter.FirstCallsAdmitted` | internal/transport/http/middleware.go:110-146 | from an empty store a tenant's first calls, as many as the capacity, are all admitted, whenever they come and whatever the others do |
| `RateLimiter.TenantRateBound` | internal/transport/http/middleware.go:110-146 | the same bound per tenant, from an empty store, in any interleaving of all tenants' calls |
| `RateLimiter.TenantsAreIsolated` | internal/transport/http/middleware.go:110-146 | a tenant's outcomes depend only on its own bucket and its own calls |
| `RateLimiter.LazyRefill` | internal/transport/http/middleware.go:129-160 | refilling in two steps is refilling once |
| `RateLimiter.RefusedCallsInvisible` | internal/transport/http/middleware.go:129-146 | dropping every refused call from a sequence changes no other outcome and no later level |
| `RateLimiter.RetryHintIsRight` | internal/transport/http/middleware.go:163-172 | after a refusal waiting the hinted seconds always admits, and waiting less than the hint minus one second never does |
| `RateLimiter.TokenBucket.Consume` | internal/transport/http/middleware.go:129-146 | admits exactly when a whole token is available, takes one if so, and leaves the rest with the time of the call |
| `RateLimiter.TokenBucket.RemainingTokens` | internal/transport/http/middleware.go:149-160 | reads the level a call at that time would find, changing nothing |
| `RateLimiter.TokenBucket.RetryAfter` | internal/transport/http/middleware.go:163-172 | reads the hint of the model, changing nothing |
| `RateLimiter.RateLimiterStore.GetBucket` | internal/transport/http/middleware.go:110-126 | a known tenant keeps its bucket, a new one gets a full bucket of its own, no other tenant's bucket is touched |
| `RateLimiter.RateLimiterStore.Allow` | internal/transport/http/middleware.go:535-575 | serving one request changes the tenant's bucket alone, as the model does |
| `Yaml.MeaningKept` | internal/module/infra/template/xr.go:900-933 | sorting keeps the meaning of every tree with distinct keys as nested maps and lists |
| `Yaml.SortsEveryLevel` | internal/module/infra/template/xr.go:910-925 | every mapping at every level comes out sorted, even with repeated keys |
| `Yaml.Idempotent` | internal/module/infra/template/xr.go:900-933 | sorting twice is sorting once, for every tree, when equal keys keep their order |
| `Yaml.AnySortAgrees` | internal/module/infra/template/xr.go:915-917 | whatever algorithm sorts the entries, and however it arranges equal ones, the result for a tree with distinct keys is the canonical form |
| `Yaml.AnySortIdempotent` | internal/module/infra/template/xr.go:900-933 | sorting again, by whatever algorithm, changes nothing when keys are distinct |
| `Yaml.RepeatedKeysMaySwap` | internal/module/infra/template/xr.go:915-917 | with a repeated key an unstable algorithm may swap the entries, so the tree can change at every call |
| `Yaml.CanonicalIff` | internal/module/infra/template/xr.go:887-933 | two trees with distinct keys get the same form if and only if they mean the same, so the output does not depend on map iteration order |
| `Yaml.SortedUnique` | internal/module/infra/template/xr.go:915-917 | with distinct keys there is one sorted arrangement, so the instability of the library sort does not matter |
| `Text.LessByPosition` | internal/module/infra/template/xr.go:915-917 | the order of keys: at the first difference the smaller character comes first, and a text comes before everything it is a proper prefix of |
| `Yaml.SortCommutes` | internal/module/infra/template/xr.go:915-922 | it does not matter whether entries are put in order before or after their values are sorted |
| `YamlInPlace.SortYamlNode` | internal/module/infra/template/xr.go:900-933 | on linked nodes, rewriting children in place: the same nodes, still a tree without sharing, now hold the canonical form of the tree they held; no other node is touched, and nil is left alone |
| `YamlInPlace.WriteBack` | internal/module/infra/template/xr.go:918-922 | the loop that stores the sorted pairs and sorts each value leaves the children in sorted order and every value canonical |
| `YamlInPlace.PairUp` | internal/module/infra/template/xr.go:911-914 | the loop that groups children yields the keys and values in turn |
| `HealthPolling.PollHealth` | internal/module/infra/health.go:32-142 | the loop ends at the first iteration that decides; it reports healthy exactly when some read reports the polled commit healthy in time and nothing ended the loop before, and reads at most timeout/interval + 1 times |
| `HealthPolling.FindsIff` | internal/module/infra/health.go:52-141 | healthy, by the reads: some read in time is not an error and its content is parsed as a healthy report on the polled commit, and every iteration before it was in time and met an error status or a report that the polled commit is not healthy yet |
| `HealthPolling.CheckHealth` | internal/module/infra/health.go:221-236 | at most 61 reads, whatever the module is configured with, for the timeouts are fixed here |
| `HealthPolling.SixtyOneReads` | internal/module/infra/health.go:52-101 | 61 reads are really possible |
| `HealthPolling.StaleReportEndsRound` | internal/module/infra/health.go:103-115 | a commit is found healthy only if no earlier read of the round showed a report about another commit |
| `Workflow.Execute` | internal/module/infra/module.go:275-863 | over all connector answers, by their fields: a commit happens only if the policy answer has no error and a true `allowed`, at the top or, if there is no boolean there, under `output`, and a denial or a missing flag fails without a commit; succeeds exactly when policy, approval, commit and (where not skipped) one of the two health rounds check out; commits only after the policy allowed it and any required, unskipped approval was granted; one commit, or two exactly when the first round failed; at most 61 reads per round, all of them after a commit, hence at most 61 per commit in all; after a successful first commit with a string `callback_url` exactly one callback, last of all, saying `succeeded` exactly when the workflow returns nil; the exact condition for a panic |
| `Workflow.Clear` | internal/module/infra/module.go:333-454 | the commit phase is reached exactly when the policy allows it and any required, unskipped approval is granted |
| `Workflow.Verify` | internal/module/infra/module.go:658-858 | after a commit that has to be checked: outcome, number of commits and the one callback, for every course of polling and remediation |
| `Workflow.SuccessNamesVerifiedCommitIff` | internal/module/infra/module.go:818-832 | a success callback names the commit found healthy exactly when no remediation was needed or the remediation made the same commit again |
| `Workflow.RemediationAnnouncesOldCommit` | internal/module/infra/module.go:818-832 | an outcome in which the first commit never turns healthy, its replacement does, and the callback announces the first |
| `Workflow.MissingCallbackCrashes` | internal/module/infra/module.go:692-696 | without a string `callback_url` a failed remediation panics instead of failing |
| `Catalogue.ValidateCapabilities` | internal/module/infra/template/catalog/catalog.go:138-173 | accepts exactly when every required name is enabled, no forbidden name is, and the provider each enabled capability resolves to is allowed, in whatever order the map is walked |
| `Catalogue.ConformingCapability` | internal/module/infra/template/engine.go:165-188 | a request that passes the check has, for each enabled capability, an allowed provider under the renderer's own resolution |
| `Catalogue.RequiredIsEnabled` | internal/module/infra/template/catalog/catalog.go:140-145 | every required name is that of an enabled capability |
| `Render.CollectParts` | internal/module/infra/template/engine.go:59-102 | succeeds exactly when every fragment of an enabled capability validates and renders; yields the parts of exactly those capabilities and the tags, never the compliance part |
| `Render.SortKeys` | internal/module/infra/template/xr.go:136-140 | whatever order the map is walked in, the keys come out in strictly ascending order, none lost and none added |
| `Render.BuildXRs` | internal/module/infra/template/xr.go:133-224 | on any parts: succeeds exactly when every part is the tags or a known capability whose provider, if it is enabled, is supported; yields one resource per enabled capability among them in ascending name order, each with its kind, name, composition, built fields and merged tags |
| `Render.Assemble` | internal/module/infra/template/engine.go:59-108 | the fragments and the builder together: succeeds exactly when some enabled capability has a fragment and each one validates, renders and has a supported provider, and then yields the manifest |
| `Render.CountErrors` | internal/module/infra/template/validate.go:13-80 | no error is collected exactly when every required field is there and the rules on recovery, backups and the time to live hold |
| `Render.CheckRequest` | internal/module/infra/template/engine.go:43-57 | passes exactly when the template admits the request, no global rule is broken, some capability is enabled and the cross-capability rules hold |
| `Render.Render` | internal/module/infra/template/engine.go:42-144 | succeeds exactly when the checks pass, some enabled capability has a fragment and each of them can be rendered on a supported provider; and then yields the manifest |
| `Render.RenderManifests` | internal/module/infra/render.go:15-52 | with the module's own fragments the manifest has exactly one resource for every enabled capability |
| `Render.ResourcesDiffer` | internal/module/infra/template/xr.go:70-110 | no two resources of a manifest share a kind or a name |
| `Render.ManifestUnique` | internal/module/infra/template/xr.go:133-224 | the manifest is determined by the request: neither map iteration order nor fragment order leaves a trace |
| `Render.ProvidersAllowed` | internal/module/infra/template/xr.go:56-67 | every resource of a successful rendering uses a supported provider that the named template allows, and no forbidden capability |
| `Render.TagsPresent` | internal/module/infra/template/xr.go:226-240 | every resource carries every tag pair, with the request's own tags winning |
| `Render.TagsByField` | internal/module/infra/template/fragments/tags.go:15-48 | which field of the request each mandatory and optional tag carries; the request's own tags win and there are no others |
| `Catalogue.ValidateParams` | internal/module/infra/template/catalog/catalog.go:101-115 | accepts exactly when each of the four dimensions is in its list or the list is empty |
| `Render.CheckTemplate` | internal/module/infra/template/engine.go:146-191 | admits exactly the requests whose template exists and permits them (or that face no template) |
| `Capabilities.KindsDiffer` | internal/module/infra/template/xr.go:70-110 | different capabilities have different kinds |
| `Capabilities.KindsByTable` | internal/module/infra/template/xr.go:70-110 | the name and kind of every capability |
| `Text.SpaceByCode` | internal/transport/http/job_handler.go:131-133 | what counts as white space when tenant, path and schedule are trimmed |

## Left out

- Scheduler order and `SKIP LOCKED`: a claim may take any at most ten eligible jobs, so fairness and priority are not modelled.
- `internal/scheduler/lease_manager.go`: the scheduler never calls it.
- Outbox rows, metrics, audit, logging, HTTP routing, authentication, secrets and the connectors themselves.
- Database isolation below one statement, connection failures other than a process that stops between statements.
- Cron parsing, SHA-256, JSON and YAML encoding, UUID generation: a fixed function, injective, or fresh, as said above.
- Floating-point rounding in the token bucket and in the 0.8 escalation point (four fifths, rounded down to a nanosecond); NaN costs.
- RateLimiter.TokenBucket.RetryAfter: with less than a token and a refill rate that is not positive the code converts an infinite or negative quotient to an integer; that result is not modelled.
- ApprovalPolicy.EqualFold: folds ASCII letters only.
- ApprovalParking.DecisionWasAuthorised: the caller's identity, role and tenant come with the call; where the code takes them from is not modelled.
- ApprovalService.Approvals.SeedStep: steps are seeded waiting and without decisions, and a run seeds a key once; seeding a preset status, overwriting a step and `EnsureTerminal` are not part of the run relation.
- `GetApprovalContext`, `ListPendingJobs`, listing and cancelling jobs: read-only or stubs.
- `RunJob` panics and contexts that are cancelled: a runner that stops covers both.
- YamlInPlace.SortYamlNode: nodes shared between subtrees, which parsing does not produce, are not modelled; the library sort is an insertion sort, and for distinct keys any sort gives the same result.
- The text of the status file: parsing it is any function to a status and a commit; the two parsers are not modelled.
- Workflow.Execute: step records (`BeginStep`, `EndStepOK`, `EndStepErr`) and the content of commits and policy requests are not part of the trace.
- The individual parameter builders, capability fragments and resolve tables: large and finite, with only per-branch facts.
- Render.Render: whether a time to live parses as a date comes with the request; filling in template defaults changes only what fragments and builders see, and `default_provider` among them is never read by the code.
- Render.BuildXRs: the fixed API version, the labels and the annotations of a resource are not modelled.
- `ValidateCatalogs` and loading the definitions: checked once over embedded files.
- The DORA metrics, registries, configuration and the `external_effects` SQL functions.
