/** Attempts of scheduled jobs. A success requeue keeps `attempt`, so whether a job stays within its attempts
    depends on when its schedule runs out. */
module Schedules {
  import opened Options
  import opened Text
  import opened Intake
  import opened JobTable
  import opened JobProtocol
  import opened ProtocolInvariants
  import opened Scenarios
  import opened IntakeHistory
  import Backoff

  // ---------------------------------------------------------------------------------------
  // Cron expressions
  // ---------------------------------------------------------------------------------------

  /** When a schedule is due to run. A text that is not a cron expression never is. */
  type Occurrences = (string, Time) -> bool

  ghost predicate OccursAfter(occurs: Occurrences, schedule: string, t: Time)
  {
    exists x :: x > t && occurs(schedule, x)
  }

  /** The library reports the first occurrence after the given time, and fails when there is none. */
  ghost predicate ReportsAt(cron: CronTable, occurs: Occurrences, schedule: string, t: Time)
  {
    match cron(schedule, t)
    case CronError => !OccursAfter(occurs, schedule, t)
    case NextAt(x) => x > t && occurs(schedule, x) && forall y :: t < y < x ==> !occurs(schedule, y)
  }

  ghost predicate Reports(cron: CronTable, occurs: Occurrences)
  {
    forall schedule, t :: ReportsAt(cron, occurs, schedule, t)
  }

  lemma NextIff(cron: CronTable, occurs: Occurrences, schedule: string, t: Time)
    requires Reports(cron, occurs)
    ensures cron(schedule, t).NextAt? <==> OccursAfter(occurs, schedule, t)
  {
    assert ReportsAt(cron, occurs, schedule, t);
  }

  /** Asking later never yields an earlier run. */
  lemma NextGrows(cron: CronTable, occurs: Occurrences, schedule: string, t: Time, u: Time)
    requires Reports(cron, occurs) && t <= u && cron(schedule, u).NextAt?
    ensures cron(schedule, t).NextAt? && t < cron(schedule, t).time <= cron(schedule, u).time
  {
    assert ReportsAt(cron, occurs, schedule, t) && ReportsAt(cron, occurs, schedule, u);
    assert occurs(schedule, cron(schedule, u).time);
  }

  // ---------------------------------------------------------------------------------------
  // The earliest time of each attempt
  // ---------------------------------------------------------------------------------------

  const DEFAULT_POLICY := Backoff.Policy(None, None)

  function First(r: Request, start: Time): Time
  {
    if r.firstRunAt.Some? && r.firstRunAt.value > start then r.firstRunAt.value else start
  }

  function Retry(t: Time, attempt: int): Time
  {
    t + Backoff.Interval(attempt, DEFAULT_POLICY) * SECOND
  }

  /** The earliest time at which the job of a request made at `start` can be at an attempt: the first run is
      awaited, and between attempts either the retry delay or the next occurrence, whichever is shorter. */
  function Earliest(cron: CronTable, r: Request, start: Time, attempt: int): Time
    decreases attempt
  {
    if attempt <= 1 then First(r, start)
    else
      var t := Earliest(cron, r, start, attempt - 1);
      match cron(r.schedule, t)
      case CronError => Retry(t, attempt - 1)
      case NextAt(x) => if x < Retry(t, attempt - 1) then x else Retry(t, attempt - 1)
  }

  lemma RequeuesLater(cron: CronTable, occurs: Occurrences, r: Request, start: Time, attempt: int, now: Time)
    requires Reports(cron, occurs) && attempt >= 1 && Earliest(cron, r, start, attempt) <= now
    ensures Earliest(cron, r, start, attempt + 1) <= Retry(now, attempt)
    ensures cron(r.schedule, now).NextAt? ==> Earliest(cron, r, start, attempt + 1) <= cron(r.schedule, now).time
  {
    if cron(r.schedule, now).NextAt? {
      NextGrows(cron, occurs, r.schedule, Earliest(cron, r, start, attempt), now);
    }
  }

  // ---------------------------------------------------------------------------------------
  // No attempt comes before its earliest time
  // ---------------------------------------------------------------------------------------

  /** The schedule has run out by the time the job can first be at its last attempt. */
  ghost predicate RunsOut(cron: CronTable, r: Request, start: Time)
  {
    cron(r.schedule, Earliest(cron, r, start, r.maxAttempts)).CronError?
  }

  predicate Columns(spec: JobSpec, r: Request)
  {
    spec.schedule == Some(r.schedule) && spec.maxAttempts == r.maxAttempts && spec.backoff == DEFAULT_POLICY
  }

  predicate QueuedInTime(b: Board, row: JobRow, r: Request, start: Time)
  {
    row.state.Queued? ==>
      && row.attempt < r.maxAttempts && row.nextRunAt.Some?
      && (Earliest(b.cron, r, start, row.attempt + 1) <= row.nextRunAt.value || Earliest(b.cron, r, start, row.attempt + 1) <= start)
  }

  predicate RunningInTime(b: Board, row: JobRow, r: Request, start: Time)
  {
    row.state.Running? ==> row.attempt >= 1 && Earliest(b.cron, r, start, row.attempt) <= b.now
  }

  /** A runner about to requeue the job has an attempt left, and the time it read is not too early. */
  predicate FinishesInTime(b: Board, row: JobRow, r: Request, start: Time)
  {
    row.state.Running? && row.runId in b.runners && b.runners[row.runId].at.Finishing? && b.runners[row.runId].at.next.Some? ==>
      row.attempt < r.maxAttempts && Earliest(b.cron, r, start, row.attempt + 1) <= b.runners[row.runId].at.next.value
  }

  predicate InTime(b: Board, j: JobId, r: Request, start: Time)
  {
    && j in b.jobs && start <= b.now && Columns(b.jobs[j].spec, r) && 0 <= b.jobs[j].attempt <= r.maxAttempts
    && QueuedInTime(b, b.jobs[j], r, start) && RunningInTime(b, b.jobs[j], r, start)
    && FinishesInTime(b, b.jobs[j], r, start)
  }

  lemma GrantInTime(b: Board, g: Grant, j: JobId, r: Request, start: Time)
    requires Core(b) && GrantOk(b, g) && InTime(b, j, r, start)
    ensures InTime(GrantOne(b, g), j, r, start)
  {
    assert Stamped(b, b.jobs[j].runId, j);
  }

  lemma {:induction false} GrantsInTime(b: Board, grants: seq<Grant>, j: JobId, r: Request, start: Time)
    requires Core(b) && GrantsOk(b, grants) && InTime(b, j, r, start)
    ensures InTime(GrantAll(b, grants), j, r, start)
    decreases |grants|
  {
    if grants != [] {
      GrantInTime(b, grants[0], j, r, start);
      GrantOneKeeps(b, grants[0]);
      GrantsInTime(GrantOne(b, grants[0]), grants[1..], j, r, start);
    }
  }

  /** A runner of another job, or a stale one of this job, leaves the job and its holder alone. */
  lemma OtherRunInTime(b: Board, o: RunId, act: RunnerAct, j: JobId, r: Request, start: Time)
    requires Core(b) && o in b.runners && RunnerReady(b.runners[o].at, act) && InTime(b, j, r, start)
    requires o != b.jobs[j].runId
    ensures InTime(RunBoard(b, o, act), j, r, start)
  {
    assert RunBoard(b, o, act).jobs[j] == b.jobs[j];
    assert RunBoard(b, o, act).cron == b.cron && RunBoard(b, o, act).now == b.now;
  }

  /** Reading the schedule at the last attempt finds nothing; before that, nothing too early. */
  lemma ReadInTime(b: Board, o: RunId, j: JobId, occurs: Occurrences, r: Request, start: Time)
    requires o in b.runners && b.runners[o].at.Executing? && InTime(b, j, r, start)
    requires o == b.jobs[j].runId && b.runners[o].job == j
    requires Reports(b.cron, occurs) && RunsOut(b.cron, r, start)
    ensures InTime(RunBoard(b, o, ReadSchedule), j, r, start)
  {
    var row := b.jobs[j];
    if row.state.Running? && b.cron(r.schedule, b.now).NextAt? {
      RequeuesLater(b.cron, occurs, r, start, row.attempt, b.now);
      if row.attempt == r.maxAttempts {
        NextGrows(b.cron, occurs, r.schedule, Earliest(b.cron, r, start, r.maxAttempts), b.now);
      }
    }
  }

  /** A finished job is back in the queue with an attempt left and not too early, or done. */
  lemma FinishInTime(b: Board, o: RunId, act: RunnerAct, j: JobId, occurs: Occurrences, r: Request, start: Time)
    requires Core(b) && o in b.runners && RunnerReady(b.runners[o].at, act) && act.Finalises() && InTime(b, j, r, start)
    requires o == b.jobs[j].runId && b.runners[o].job == j && b.jobs[j].state.Running?
    requires Reports(b.cron, occurs)
    ensures InTime(RunBoard(b, o, act), j, r, start)
  {
    RequeuesLater(b.cron, occurs, r, start, b.jobs[j].attempt, b.now);
    FinalRowFits(b, o, act);
  }

  lemma OwnRunInTime(b: Board, o: RunId, act: RunnerAct, j: JobId, occurs: Occurrences, r: Request, start: Time)
    requires Core(b) && o in b.runners && RunnerReady(b.runners[o].at, act) && InTime(b, j, r, start)
    requires o == b.jobs[j].runId && b.runners[o].job == j
    requires Reports(b.cron, occurs) && RunsOut(b.cron, r, start)
    ensures InTime(RunBoard(b, o, act), j, r, start)
  {
    if act.ReadSchedule? {
      ReadInTime(b, o, j, occurs, r, start);
    } else if act.Finalises() && b.jobs[j].state.Running? {
      FinishInTime(b, o, act, j, occurs, r, start);
    }
  }

  lemma RunInTime(b: Board, o: RunId, act: RunnerAct, j: JobId, occurs: Occurrences, r: Request, start: Time)
    requires Core(b) && o in b.runners && RunnerReady(b.runners[o].at, act) && InTime(b, j, r, start)
    requires Reports(b.cron, occurs) && RunsOut(b.cron, r, start)
    ensures InTime(RunBoard(b, o, act), j, r, start)
  {
    if o == b.jobs[j].runId {
      assert Stamped(b, o, j) && Stamped(b, o, b.runners[o].job);
      OwnRunInTime(b, o, act, j, occurs, r, start);
    } else {
      OtherRunInTime(b, o, act, j, r, start);
    }
  }

  lemma StepInTime(s: System, a: Action, j: JobId, occurs: Occurrences, r: Request, start: Time)
    requires Core(s.board) && Enabled(s, a) && InTime(s.board, j, r, start)
    requires Reports(s.board.cron, occurs) && RunsOut(s.board.cron, r, start)
    ensures InTime(BoardAfter(s, a), j, r, start)
  {
    match a
    case Claim(grants) => GrantsInTime(s.board, grants, j, r, start);
    case Run(o, act) => RunInTime(s.board, o, act, j, occurs, r, start);
    case Intake(c, InsertJob(run)) => InsertOther(s, c, run, j, r, start);
    case _ =>
  }

  lemma InsertOther(s: System, c: nat, run: RunId, j: JobId, r: Request, start: Time)
    requires Core(s.board) && Enabled(s, Intake(c, InsertJob(run))) && InTime(s.board, j, r, start)
    ensures InTime(BoardAfter(s, Intake(c, InsertJob(run))), j, r, start)
  {
  }

  /** The job was made for a call with this request. */
  predicate MadeFor(s: System, j: JobId, r: Request)
  {
    && j in s.board.jobs && j in s.front.jobIds && IssuedTo(s.front, j, s.front.jobIds[j])
    && s.front.creates[s.front.jobIds[j]].request == r
  }

  lemma InsertedInTime(s: System, c: nat, run: RunId, j: JobId, r: Request, start: Time)
    requires IntakeInv(s.board, s.front) && Enabled(s, Intake(c, InsertJob(run)))
    requires s.front.creates[c].request == r && s.front.creates[c].envelope.jobId == j
    requires !InsertFails(s.board, s.front.creates[c]) && r.schedule != "" && start <= s.board.now
    ensures InTime(BoardAfter(s, Intake(c, InsertJob(run))), j, r, start)
  {
    assert CreateOk(s.board, s.front, c);
  }

  /** A job of this request was there before the step, or the step has just inserted it. */
  lemma MadeBefore(s: System, a: Action, j: JobId, r: Request)
    requires IntakeInv(s.board, s.front) && Enabled(s, a) && MadeFor(Apply(s, a), j, r)
    ensures j in s.board.jobs ==> MadeFor(s, j, r)
    ensures j !in s.board.jobs ==>
              && a.Intake? && a.intake.InsertJob? && s.front.creates[a.c].request == r
              && s.front.creates[a.c].envelope.jobId == j && !InsertFails(s.board, s.front.creates[a.c])
  {
    NewRowIsInserted(s, a, j);
    if j in s.board.jobs {
      assert JobOk(s.board, s.front, j);
    } else {
      assert CreateOk(s.board, s.front, a.c);
    }
  }

  lemma NextInTime(s: System, a: Action, t: System, j: JobId, occurs: Occurrences, r: Request, start: Time)
    requires Reachable(s) && Next(s, a, t) && MadeFor(t, j, r) && (MadeFor(s, j, r) ==> InTime(s.board, j, r, start))
    requires Reports(s.board.cron, occurs) && RunsOut(s.board.cron, r, start) && r.schedule != "" && start <= s.board.now
    ensures InTime(t.board, j, r, start)
  {
    ReachableInv(s);
    MadeBefore(s, a, j, r);
    if j in s.board.jobs {
      StepInTime(s, a, j, occurs, r, start);
    } else {
      InsertedInTime(s, a.c, a.intake.run, j, r, start);
    }
  }

  lemma {:induction false} InTimeAlways(states: seq<System>, acts: seq<Action>, i: nat, j: JobId, occurs: Occurrences, r: Request, start: Time)
    requires IsRun(states, acts) && i < |states| && start <= states[0].board.now && r.schedule != ""
    requires Reports(states[0].board.cron, occurs) && RunsOut(states[0].board.cron, r, start)
    ensures MadeFor(states[i], j, r) ==> InTime(states[i].board, j, r, start)
  {
    if i > 0 && MadeFor(states[i], j, r) {
      InTimeAlways(states, acts, i - 1, j, occurs, r, start);
      ClockForEver(states, acts, i - 1);
      LaterReachable(states, acts, 0, i - 1) by {
        ReachSelf(states[0]);
      }
      NextInTime(states[i - 1], acts[i - 1], states[i], j, occurs, r, start);
    }
  }

  // ---------------------------------------------------------------------------------------
  // Each attempt can be reached at its earliest time
  // ---------------------------------------------------------------------------------------

  /** The job is held by a run that executes its module, and no step of it waits. */
  predicate Held(s: System, j: JobId, run: RunId)
  {
    && j in s.board.jobs && s.board.jobs[j].state.Running? && s.board.jobs[j].runId == run
    && run in s.board.runners && s.board.runners[run] == Runner(j, Executing(s.board.jobs[j].attempt))
    && s.approvals.steps == map[]
  }

  /** The job is back in the queue; everything but its row and its runner is as before. */
  ghost predicate Requeued(s: System, z: System, j: JobId, next: Time)
  {
    && j in s.board.jobs && j in z.board.jobs && z.board.jobs[j].state.Queued? && z.board.jobs[j].nextRunAt == Some(next)
    && z.board.jobs[j].attempt == s.board.jobs[j].attempt && z.board.jobs[j].spec == s.board.jobs[j].spec
    && z.board.now == s.board.now && z.board.cron == s.board.cron && z.board.issued == s.board.issued
    && z.front == s.front && z.approvals == s.approvals
  }

  /** The module fails with an attempt left. */
  lemma FailOnce(s: System, j: JobId, run: RunId) returns (z: System)
    requires Held(s, j, run) && s.board.jobs[j].attempt < s.board.jobs[j].spec.maxAttempts
    requires s.board.jobs[j].spec.backoff == DEFAULT_POLICY
    ensures Reach(s, z) && Requeued(s, z, j, Retry(s.board.now, s.board.jobs[j].attempt))
  {
    var a := Run(run, Fail("", ""));
    z := Apply(s, a);
    ReachStep(s, a);
  }

  /** The module succeeds and the schedule has a next run. */
  lemma SucceedOnce(s: System, j: JobId, run: RunId) returns (z: System)
    requires Held(s, j, run) && Scheduled(s.board.jobs[j].spec)
    requires s.board.cron(s.board.jobs[j].spec.schedule.value, s.board.now).NextAt?
    ensures Reach(s, z)
    ensures Requeued(s, z, j, s.board.cron(s.board.jobs[j].spec.schedule.value, s.board.now).time)
  {
    var y := Apply(s, Run(run, ReadSchedule));
    z := Apply(y, Run(run, Succeed));
    ReachStep(s, Run(run, ReadSchedule));
    ReachMore(s, y, Run(run, Succeed));
  }

  /** A queued job is claimed again as soon as it is due. */
  lemma RunAgain(s: System, j: JobId, next: Time) returns (z: System, run: RunId)
    requires j in s.board.jobs && s.board.jobs[j].state.Queued? && s.board.jobs[j].nextRunAt == Some(next)
    requires s.approvals.steps == map[]
    ensures Reach(s, z) && Held(z, j, run)
    ensures z.board.jobs[j].attempt == s.board.jobs[j].attempt + 1 && z.board.jobs[j].spec == s.board.jobs[j].spec
    ensures z.board.now == (if next > s.board.now then next else s.board.now)
    ensures z.board.cron == s.board.cron && z.front == s.front
  {
    run := AboveAll(s.board.issued.Keys);
    z := StartJob(s, j, run);
  }

  /** Job 0 was made for this request and is being executed at the given attempt, at its earliest time. */
  ghost predicate AtEarliest(s: System, cron: CronTable, r: Request, start: Time, attempt: int, run: RunId)
  {
    && Held(s, 0, run) && s.board.cron == cron && MadeFor(s, 0, r) && s.board.jobs[0].attempt == attempt
    && Columns(s.board.jobs[0].spec, r) && s.board.now == Earliest(cron, r, start, attempt)
  }

  lemma FirstAttempt(cron: CronTable, r: Request, start: Time) returns (z: System, run: RunId)
    requires Admissible(r) && r.schedule != ""
    ensures Reach(Start(start, cron), z) && AtEarliest(z, cron, r, start, 1, run)
  {
    var s := Start(start, cron);
    var y := NewJob(s, 0, r, 0, 0);
    z, run := RunAgain(y, 0, y.board.jobs[0].nextRunAt.value);
    ReachTrans(s, y, z);
  }

  /** One more attempt, by whichever way is faster. */
  lemma OneMore(s: System, cron: CronTable, occurs: Occurrences, r: Request, start: Time, attempt: int, run: RunId)
    returns (z: System, again: RunId)
    requires Reports(cron, occurs) && Trimmed(r.schedule) && r.schedule != ""
    requires 1 <= attempt < r.maxAttempts && AtEarliest(s, cron, r, start, attempt, run)
    ensures Reach(s, z) && AtEarliest(z, cron, r, start, attempt + 1, again)
  {
    var t := s.board.now;
    var y: System, next: Time;
    if cron(r.schedule, t).NextAt? && cron(r.schedule, t).time < Retry(t, attempt) {
      NextGrows(cron, occurs, r.schedule, t, t);
      NotBlank(r.schedule);
      next := cron(r.schedule, t).time;
      y := SucceedOnce(s, 0, run);
    } else {
      Backoff.DefaultDelay(attempt);
      next := Retry(t, attempt);
      y := FailOnce(s, 0, run);
    }
    z, again := RunAgain(y, 0, next);
    ReachTrans(s, y, z);
  }

  lemma NotBlank(schedule: string)
    requires Trimmed(schedule) && schedule != ""
    ensures !Blank(schedule)
  {
    assert !IsSpace(schedule[0]);
  }

  lemma {:induction false} EarliestIsReached(cron: CronTable, occurs: Occurrences, r: Request, start: Time, attempt: int)
    returns (z: System, run: RunId)
    requires Reports(cron, occurs) && Admissible(r) && r.schedule != "" && 1 <= attempt <= r.maxAttempts
    ensures Reach(Start(start, cron), z) && AtEarliest(z, cron, r, start, attempt, run)
    decreases attempt
  {
    if attempt == 1 {
      z, run := FirstAttempt(cron, r, start);
    } else {
      var y, before := EarliestIsReached(cron, occurs, r, start, attempt - 1);
      z, run := OneMore(y, cron, occurs, r, start, attempt - 1, before);
      ReachTrans(Start(start, cron), y, z);
    }
  }

  // ---------------------------------------------------------------------------------------
  // Which requests stay within their attempts
  // ---------------------------------------------------------------------------------------

  /** In no run from an empty database, started at the given time or later, does a job of the request use more
      attempts than the request asks for. */
  ghost predicate StaysWithin(cron: CronTable, r: Request, start: Time)
  {
    forall now, s, j :: start <= now && Reach(Start(now, cron), s) && MadeFor(s, j, r) ==>
      s.board.jobs[j].attempt <= r.maxAttempts
  }

  /** The job of a request stays within its attempts, in every run, if and only if the request has no schedule or
      its schedule has no occurrence after the earliest time the job can be at its last attempt. */
  lemma WithinAttemptsIff(cron: CronTable, occurs: Occurrences, r: Request, start: Time)
    requires Reports(cron, occurs) && Admissible(r)
    ensures StaysWithin(cron, r, start) <==>
              r.schedule == "" || !OccursAfter(occurs, r.schedule, Earliest(cron, r, start, r.maxAttempts))
  {
    NextIff(cron, occurs, r.schedule, Earliest(cron, r, start, r.maxAttempts));
    if r.schedule == "" || RunsOut(cron, r, start) {
      forall now, s, j | start <= now && Reach(Start(now, cron), s) && MadeFor(s, j, r)
        ensures s.board.jobs[j].attempt <= r.maxAttempts
      {
        StaysWithinHere(cron, occurs, r, start, now, s, j);
      }
    } else {
      var z := Overruns(cron, occurs, r, start);
    }
  }

  lemma StaysWithinHere(cron: CronTable, occurs: Occurrences, r: Request, start: Time, now: Time, s: System, j: JobId)
    requires Reports(cron, occurs) && (r.schedule == "" || RunsOut(cron, r, start))
    requires start <= now && Reach(Start(now, cron), s) && MadeFor(s, j, r)
    ensures s.board.jobs[j].attempt <= r.maxAttempts
  {
    var states, acts :| Leads(Start(now, cron), states, acts, s);
    if r.schedule == "" {
      InvAlways(states, acts, |acts|);
      assert JobOk(s.board, s.front, j) && WithinBudget(s.board.jobs[j]);
    } else {
      InTimeAlways(states, acts, |acts|, j, occurs, r, start);
    }
  }

  /** With an occurrence left at its last attempt, the job goes past its attempts. */
  lemma Overruns(cron: CronTable, occurs: Occurrences, r: Request, start: Time) returns (z: System)
    requires Reports(cron, occurs) && Admissible(r) && r.schedule != "" && !RunsOut(cron, r, start)
    ensures Reach(Start(start, cron), z) && MadeFor(z, 0, r) && z.board.jobs[0].attempt > r.maxAttempts
  {
    var x, run := EarliestIsReached(cron, occurs, r, start, r.maxAttempts);
    NotBlank(r.schedule);
    var y := SucceedOnce(x, 0, run);
    var again;
    z, again := RunAgain(y, 0, y.board.jobs[0].nextRunAt.value);
    ReachTrans(x, y, z);
    ReachTrans(Start(start, cron), x, z);
  }

  // ---------------------------------------------------------------------------------------
  // Endless and exhausted schedules
  // ---------------------------------------------------------------------------------------

  /** A scheduled job that is held can be brought past any number of attempts if its schedule never ends. */
  lemma {:induction false} EndlessJobOverruns(s: System, j: JobId, run: RunId, goal: int) returns (z: System, last: RunId)
    requires Held(s, j, run) && Scheduled(s.board.jobs[j].spec)
    requires forall t :: s.board.cron(s.board.jobs[j].spec.schedule.value, t).NextAt?
    ensures Reach(s, z) && Held(z, j, last) && z.front == s.front && z.board.jobs[j].attempt > goal
    decreases goal - s.board.jobs[j].attempt
  {
    if s.board.jobs[j].attempt > goal {
      z, last := s, run;
      ReachSelf(s);
    } else {
      var x := SucceedOnce(s, j, run);
      var y, again := RunAgain(x, j, x.board.jobs[j].nextRunAt.value);
      ReachTrans(s, x, y);
      z, last := EndlessJobOverruns(y, j, again, goal);
      ReachTrans(s, y, z);
    }
  }

  /** From an empty database, the job of a request whose schedule never ends can be brought past any number of
      attempts. */
  lemma EndlessRequestOverruns(cron: CronTable, r: Request, start: Time, goal: int) returns (z: System)
    requires Admissible(r) && r.schedule != "" && forall t :: cron(r.schedule, t).NextAt?
    ensures Reach(Start(start, cron), z) && MadeFor(z, 0, r) && z.board.jobs[0].attempt > goal
  {
    var y, run := FirstAttempt(cron, r, start);
    NotBlank(r.schedule);
    var last;
    z, last := EndlessJobOverruns(y, 0, run, goal);
    ReachTrans(Start(start, cron), y, z);
  }

  /** A schedule that never occurs keeps every job within its attempts. */
  lemma NeverOccurringStaysWithin(cron: CronTable, occurs: Occurrences, r: Request, start: Time)
    requires Reports(cron, occurs) && Admissible(r) && forall x :: !occurs(r.schedule, x)
    ensures StaysWithin(cron, r, start)
  {
    WithinAttemptsIff(cron, occurs, r, start);
  }

  /** A scheduled job never succeeds: it is requeued, exhausted, or, when its schedule has run out, reclaimed again
      and again without ever being finished. */
  lemma {:induction false} ScheduledNeverSucceeds(states: seq<System>, acts: seq<Action>, i: nat, j: JobId)
    requires IsRun(states, acts) && i < |states|
    ensures !ScheduledDone(states[i].board, j)
  {
    if i > 0 {
      ScheduledNeverSucceeds(states, acts, i - 1, j);
      LaterReachable(states, acts, 0, i - 1) by {
        ReachSelf(states[0]);
      }
      NextNeverSucceeds(states[i - 1], acts[i - 1], states[i], j);
    }
  }

  predicate ScheduledDone(b: Board, j: JobId)
  {
    j in b.jobs && Scheduled(b.jobs[j].spec) && b.jobs[j].state.Succeeded?
  }

  lemma NextNeverSucceeds(s: System, a: Action, t: System, j: JobId)
    requires Reachable(s) && Next(s, a, t) && !ScheduledDone(s.board, j)
    ensures !ScheduledDone(t.board, j)
  {
    ReachableInv(s);
    StepNeverSucceeds(s, a, j);
  }

  lemma {:induction false} GrantNeverSucceeds(b: Board, grants: seq<Grant>, j: JobId)
    requires GrantsOk(b, grants) && !ScheduledDone(b, j)
    ensures !ScheduledDone(GrantAll(b, grants), j)
    decreases |grants|
  {
    if grants != [] {
      GrantNeverSucceeds(GrantOne(b, grants[0]), grants[1..], j);
    }
  }

  lemma StepNeverSucceeds(s: System, a: Action, j: JobId)
    requires Core(s.board) && Enabled(s, a) && !ScheduledDone(s.board, j)
    ensures !ScheduledDone(BoardAfter(s, a), j)
  {
    match a
    case Claim(grants) => GrantNeverSucceeds(s.board, grants, j);
    case Run(r, act) => RunNeverSucceeds(s.board, r, act, j);
    case _ =>
  }

  lemma RunNeverSucceeds(b: Board, r: RunId, act: RunnerAct, j: JobId)
    requires ScheduleKnown(b) && r in b.runners && RunnerReady(b.runners[r].at, act) && !ScheduledDone(b, j)
    ensures !ScheduledDone(RunBoard(b, r, act), j)
  {
  }
}
