/** Rows of `jobs` and `jobs_read`, and the row rewrites of the scheduler's claim and of the
    runner's three finalising statements. */
module JobTable {
  import opened Options
  import opened Text
  import opened Intake
  import Backoff

  /** A UUID stamped on a claim. */
  type RunId = nat

  const SECOND: Time := 1_000_000
  const LEASE: Time := 60 * SECOND
  const SCHEDULER := "scheduler-1"

  datatype JobState = Queued | Running | Succeeded | Exhausted
  {
    predicate Terminal() { Succeeded? || Exhausted? }
  }

  /** The columns no statement ever updates. */
  datatype JobSpec = JobSpec(
    tenant: string, pathKey: string, key: string, schedule: Option<string>,
    maxAttempts: int, backoff: Backoff.Policy, acceptedAt: Time, createdAt: Time)

  datatype JobError = JobError(code: string, message: string)

  datatype JobRow = JobRow(
    spec: JobSpec, state: JobState, attempt: int, owner: Option<string>, runId: RunId,
    lease: Option<Time>, nextRunAt: Option<Time>, error: Option<JobError>,
    startedAt: Option<Time>, finishedAt: Option<Time>, updatedAt: Time)

  /** A job the runner requeues after success: its schedule is present and not blank. */
  predicate Scheduled(spec: JobSpec)
  {
    spec.schedule.Some? && !Blank(spec.schedule.value)
  }

  /** The row inserted by intake; `run_id` gets a fresh default. */
  function InitialRow(r: Request, env: Envelope, run: RunId): JobRow
  {
    JobRow(JobSpec(r.tenant, r.pathKey, r.key, if r.schedule == "" then None else Some(r.schedule),
                   r.maxAttempts, Backoff.Policy(None, None), env.acceptedAt, env.acceptedAt),
           Queued, 0, None, run, None, Some(env.nextRunAt), None, None, None, env.acceptedAt)
  }

  predicate Due(row: JobRow, now: Time)
  {
    || (row.state.Queued? && row.nextRunAt.Some? && row.nextRunAt.value <= now)
    || (row.state.Running? && row.lease.Some? && row.lease.value <= now)
  }

  function ClaimRow(row: JobRow, run: RunId, now: Time): JobRow
  {
    row.(state := Running, owner := Some(SCHEDULER), runId := run, lease := Some(now + LEASE),
         attempt := if row.state.Queued? then row.attempt + 1 else row.attempt,
         startedAt := if row.startedAt.Some? then row.startedAt else Some(now), updatedAt := now)
  }

  function RequeueRow(row: JobRow, next: Time, now: Time): JobRow
  {
    row.(state := Queued, owner := None, lease := None, nextRunAt := Some(next),
         error := None, finishedAt := None, updatedAt := now)
  }

  function SucceedRow(row: JobRow, now: Time): JobRow
  {
    row.(state := Succeeded, owner := None, lease := None, nextRunAt := None,
         error := None, finishedAt := Some(now), updatedAt := now)
  }

  function FailRow(row: JobRow, code: string, msg: string, now: Time): JobRow
  {
    var spent := row.attempt >= row.spec.maxAttempts;
    row.(state := if spent then Exhausted else Queued, owner := None, lease := None,
         nextRunAt := if spent then None else Some(now + Backoff.Interval(row.attempt, row.spec.backoff) * SECOND),
         error := Some(JobError(code, msg)), updatedAt := now,
         finishedAt := if spent then Some(now) else None)
  }

  function TerminateRow(row: JobRow, code: string, msg: string, now: Time): JobRow
  {
    row.(state := Exhausted, owner := None, lease := None, nextRunAt := None,
         error := Some(JobError(code, msg)), updatedAt := now, finishedAt := Some(now))
  }

  /** What every stored row looks like: owner and lease belong to running jobs only, a queued
      job has a due time, a finished one has an end time and no due time. */
  predicate Shape(row: JobRow)
  {
    && row.attempt >= 0 && row.spec.maxAttempts >= 1
    && (row.owner.Some? <==> row.state.Running?)
    && (row.lease.Some? <==> row.state.Running?)
    && (row.state.Queued? ==> row.nextRunAt.Some?)
    && (row.state.Running? ==> row.attempt >= 1 && row.startedAt.Some?)
    && (row.finishedAt.Some? <==> row.state.Terminal())
    && (row.state.Terminal() ==> row.nextRunAt.None?)
  }

  /** A row of the read projection: every column but the key, the parameters and the backoff. */
  datatype ReadRow = ReadRow(
    tenant: string, pathKey: string, schedule: Option<string>, maxAttempts: int, acceptedAt: Time,
    createdAt: Time, state: JobState, attempt: int, owner: Option<string>, runId: RunId,
    lease: Option<Time>, nextRunAt: Option<Time>, error: Option<JobError>,
    startedAt: Option<Time>, finishedAt: Option<Time>, updatedAt: Time)

  function Project(row: JobRow): ReadRow
  {
    ReadRow(row.spec.tenant, row.spec.pathKey, row.spec.schedule, row.spec.maxAttempts,
            row.spec.acceptedAt, row.spec.createdAt, row.state, row.attempt, row.owner, row.runId,
            row.lease, row.nextRunAt, row.error, row.startedAt, row.finishedAt, row.updatedAt)
  }

  /** The finalisers' upsert leaves tenant and path of an existing read row alone. */
  function Upsert(existing: Option<ReadRow>, row: JobRow): ReadRow
  {
    if existing.None? then Project(row)
    else Project(row).(tenant := existing.value.tenant, pathKey := existing.value.pathKey)
  }
}
