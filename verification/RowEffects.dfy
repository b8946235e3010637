/** What each statement of the job protocol leaves in the row it writes, column by column. */
module RowEffects {
  import opened Options
  import opened Intake
  import opened Text
  import opened JobTable
  import opened JobProtocol
  import opened ProtocolInvariants
  import opened Scenarios
  import opened Attempts
  import ApprovalPolicy
  import Backoff

  /** The runner holds the job: its statements on the row take effect. */
  predicate Holds(b: Board, r: RunId, j: JobId)
  {
    && r in b.runners && b.runners[r].job == j && j in b.jobs
    && b.jobs[j].runId == r && b.jobs[j].state == Running
  }

  // ---------------------------------------------------------------------------------------
  // Finalising
  // ---------------------------------------------------------------------------------------

  /** The job is no longer owned, and what a finalise does not concern is as before. */
  predicate Released(row: JobRow, row': JobRow, now: Time)
  {
    && row'.owner == None && row'.lease == None && row'.updatedAt == now
    && row'.spec == row.spec && row'.attempt == row.attempt && row'.runId == row.runId && row'.startedAt == row.startedAt
  }

  predicate QueuedAt(row: JobRow, next: Time)
  {
    row.state == Queued && row.nextRunAt == Some(next) && row.finishedAt == None
  }

  predicate EndedAt(row: JobRow, state: JobState, now: Time)
  {
    row.state == state && row.nextRunAt == None && row.finishedAt == Some(now)
  }

  /** The step wrote one job row and no other. */
  predicate OnlyRow(b: Board, b': Board, j: JobId)
  {
    b'.jobs.Keys == b.jobs.Keys && forall k :: k in b.jobs && k != j ==> b'.jobs[k] == b.jobs[k]
  }

  /** A terminal error exhausts the job at any attempt. */
  lemma TerminateEffect(s: System, r: RunId, j: JobId, code: string, message: string)
    requires Enabled(s, Run(r, Terminate(code, message))) && Holds(s.board, r, j)
    ensures var b' := BoardAfter(s, Run(r, Terminate(code, message)));
            && OnlyRow(s.board, b', j) && Released(s.board.jobs[j], b'.jobs[j], s.board.now)
            && EndedAt(b'.jobs[j], Exhausted, s.board.now) && b'.jobs[j].error == Some(JobError(code, message))
  {
  }

  /** An ordinary failure exhausts the job exactly when no attempt is left. */
  lemma FailEffect(s: System, r: RunId, j: JobId, code: string, message: string)
    requires Enabled(s, Run(r, Fail(code, message))) && Holds(s.board, r, j)
    ensures var b', row := BoardAfter(s, Run(r, Fail(code, message))), s.board.jobs[j];
            && OnlyRow(s.board, b', j) && Released(row, b'.jobs[j], s.board.now)
            && b'.jobs[j].error == Some(JobError(code, message))
            && (row.attempt >= row.spec.maxAttempts ==> EndedAt(b'.jobs[j], Exhausted, s.board.now))
            && (row.attempt < row.spec.maxAttempts ==>
                  QueuedAt(b'.jobs[j], s.board.now + Backoff.Interval(row.attempt, row.spec.backoff) * 1_000_000))
  {
  }

  /** A success ends an unscheduled job, and puts a scheduled one back for the time its runner holds. */
  lemma SucceedEffect(s: System, r: RunId, j: JobId)
    requires Enabled(s, Run(r, Succeed)) && Holds(s.board, r, j)
    ensures s.board.runners[r].at.Finishing?
    ensures var b', next := BoardAfter(s, Run(r, Succeed)), s.board.runners[r].at.next;
            && OnlyRow(s.board, b', j) && Released(s.board.jobs[j], b'.jobs[j], s.board.now) && b'.jobs[j].error == None
            && (next == None ==> EndedAt(b'.jobs[j], Succeeded, s.board.now))
            && (next.Some? ==> QueuedAt(b'.jobs[j], next.value))
  {
  }

  /** What the runner of a job made of its schedule when it read it. */
  predicate ReadThen(s: System, r: RunId, next: Option<Time>)
  {
    && r in s.board.runners && s.board.runners[r].job in s.board.jobs
    && var schedule := s.board.jobs[s.board.runners[r].job].spec.schedule;
       if schedule == None || Blank(schedule.value) then next == None
       else next.Some? && s.board.cron(schedule.value, s.board.now) == NextAt(next.value)
  }

  lemma StepFinishing(s: System, a: Action, r: RunId)
    requires Enabled(s, a) && r in BoardAfter(s, a).runners && BoardAfter(s, a).runners[r].at.Finishing?
    ensures r in s.board.runners && s.board.runners[r].job == BoardAfter(s, a).runners[r].job
    ensures || (a == Run(r, ReadSchedule) && ReadThen(s, r, BoardAfter(s, a).runners[r].at.next))
            || s.board.runners[r] == BoardAfter(s, a).runners[r]
  {
    match a
    case Claim(grants) => GrantsDispatch(s.board, grants, r);
    case _ =>
  }

  lemma NextFinishing(s: System, a: Action, t: System, r: RunId)
    requires Next(s, a, t) && r in t.board.runners && t.board.runners[r].at.Finishing?
    ensures r in s.board.runners && s.board.runners[r].job == t.board.runners[r].job
    ensures (a == Run(r, ReadSchedule) && ReadThen(s, r, t.board.runners[r].at.next)) || s.board.runners[r] == t.board.runners[r]
  {
    StepFinishing(s, a, r);
  }

  lemma {:induction false} GrantsDispatch(b: Board, grants: seq<Grant>, r: RunId)
    requires GrantsOk(b, grants) && r in GrantAll(b, grants).runners && !GrantAll(b, grants).runners[r].at.Dispatched?
    ensures r in b.runners && GrantAll(b, grants).runners[r] == b.runners[r]
    decreases |grants|
  {
    if grants != [] {
      GrantsDispatch(GrantOne(b, grants[0]), grants[1..], r);
    }
  }

  /** A runner about to finish has read the schedule of its job earlier in the run, and holds what it read. */
  lemma {:induction false} FinishingWasRead(states: seq<System>, acts: seq<Action>, i: nat, r: RunId) returns (h: nat)
    requires IsRun(states, acts) && i < |states|
    requires r in states[i].board.runners && states[i].board.runners[r].at.Finishing?
    ensures h < i && acts[h] == Run(r, ReadSchedule) && ReadThen(states[h], r, states[i].board.runners[r].at.next)
    ensures states[h].board.runners[r].job == states[i].board.runners[r].job
    decreases i
  {
    if i == 0 {
      assert false;
    } else {
      NextFinishing(states[i - 1], acts[i - 1], states[i], r);
      if acts[i - 1] == Run(r, ReadSchedule) && ReadThen(states[i - 1], r, states[i].board.runners[r].at.next) {
        h := i - 1;
      } else {
        h := FinishingWasRead(states, acts, i - 1, r);
      }
    }
  }

  /** In every run, what an effective finalise leaves in the job row follows from the statement: a terminal error
      exhausts the job at any attempt; a failure exhausts it exactly when no attempt is left and otherwise
      queues it after its delay; a success ends it, or queues it for the run that was read earlier. */
  lemma FinaliseEffect(states: seq<System>, acts: seq<Action>, i: nat, r: RunId, act: RunnerAct, j: JobId)
    requires IsRun(states, acts) && i < |acts| && acts[i] == Run(r, act) && Holds(states[i].board, r, j)
    ensures act.Terminate? || act.Fail? || act.Succeed? ==>
              j in states[i + 1].board.jobs && OnlyRow(states[i].board, states[i + 1].board, j)
              && Released(states[i].board.jobs[j], states[i + 1].board.jobs[j], states[i].board.now)
    ensures act.Terminate? ==> EndedAt(states[i + 1].board.jobs[j], Exhausted, states[i].board.now)
    ensures act.Terminate? || act.Fail? ==> states[i + 1].board.jobs[j].error == Some(JobError(act.code, act.message))
    ensures act.Fail? ==>
              var row, row' := states[i].board.jobs[j], states[i + 1].board.jobs[j];
              && (row.attempt >= row.spec.maxAttempts ==> EndedAt(row', Exhausted, states[i].board.now))
              && (row.attempt < row.spec.maxAttempts ==>
                    QueuedAt(row', states[i].board.now + Backoff.Interval(row.attempt, row.spec.backoff) * 1_000_000))
    ensures act.Succeed? ==> states[i + 1].board.jobs[j].error == None
    ensures act.Succeed? ==> exists h :: 0 <= h < i && FinishedAsRead(states, acts, h, i, r, j)
  {
    assert Next(states[i], acts[i], states[i + 1]);
    match act
    case Terminate(code, message) => TerminateEffect(states[i], r, j, code, message);
    case Fail(code, message) => FailEffect(states[i], r, j, code, message);
    case Succeed =>
      SucceedEffect(states[i], r, j);
      var h := FinishingWasRead(states, acts, i, r);
      assert FinishedAsRead(states, acts, h, i, r, j);
    case _ =>
  }

  /** The runner read the schedule at step `h`; without one the job has succeeded, with one it is queued for the run
      the cron library reported then. */
  ghost predicate FinishedAsRead(states: seq<System>, acts: seq<Action>, h: nat, i: nat, r: RunId, j: JobId)
    requires h < i < |acts| && |states| == |acts| + 1
  {
    && acts[h] == Run(r, ReadSchedule) && j in states[h].board.jobs && j in states[i + 1].board.jobs
    && var schedule, row := states[h].board.jobs[j].spec.schedule, states[i + 1].board.jobs[j];
       if schedule == None || Blank(schedule.value) then EndedAt(row, Succeeded, states[i].board.now)
       else exists next :: states[h].board.cron(schedule.value, states[h].board.now) == NextAt(next) && QueuedAt(row, next)
  }

  // ---------------------------------------------------------------------------------------
  // Where a runner goes
  // ---------------------------------------------------------------------------------------

  /** Where a statement takes its runner: a runner that no longer holds its job stops as soon as it fetches the job, reads
      its schedule or finalises; one that holds it goes on. No other runner is moved. */
  lemma PositionEffect(s: System, r: RunId, act: RunnerAct)
    requires Enabled(s, Run(r, act))
    ensures var b, b' := s.board, BoardAfter(s, Run(r, act));
            var at, at', j := b.runners[r].at, b'.runners[r].at, b.runners[r].job;
            && b'.runners.Keys == b.runners.Keys && (forall o :: o in b.runners && o != r ==> b'.runners[o] == b.runners[o])
            && b'.runners[r].job == j
            && (act == FetchJob ==> at' == if Holds(b, r, j) then Executing(b.jobs[j].attempt) else Stopped)
            && (act == ReadSchedule && !Holds(b, r, j) ==> at' == Stopped)
            && (act == ReadSchedule && Holds(b, r, j) ==>
                  if b.jobs[j].spec.schedule == None || Blank(b.jobs[j].spec.schedule.value) then at' == Finishing(None)
                  else match b.cron(b.jobs[j].spec.schedule.value, b.now)
                    case CronError => at' == Stopped
                    case NextAt(t) => at' == Finishing(Some(t)))
            && (act.Fail? || act.Terminate? || act.Succeed? ==> at' == if Holds(b, r, j) then Copying else Stopped)
            && (act.Park? ==> at' == Awaiting(at.attempt, act.name)) && (act.Poll? ==> at' == Executing(at.attempt))
            && (act.EndStep? ==> at' == at) && (act == CopyRow || act == Abandon ==> at' == Stopped)
  {
  }

  // ---------------------------------------------------------------------------------------
  // Claiming
  // ---------------------------------------------------------------------------------------

  /** What a claim leaves in a row: the scheduler's name, the new run id, a lease of sixty seconds, one attempt more if
      the job came from the queue, the start of the first run; and the rest as it was. */
  predicate ClaimedAs(row: JobRow, row': JobRow, run: RunId, now: Time)
  {
    && row'.state == Running && row'.owner == Some("scheduler-1") && row'.runId == run && row'.lease == Some(now + 60_000_000)
    && row'.attempt == row.attempt + (if row.state == Queued then 1 else 0)
    && row'.startedAt == (if row.startedAt == None then Some(now) else row.startedAt) && row'.updatedAt == now
    && row'.spec == row.spec && row'.nextRunAt == row.nextRunAt && row'.error == row.error && row'.finishedAt == row.finishedAt
  }

  /** Every job a claim takes is written once, from its row before the claim; a job it does not take is left alone. */
  lemma {:induction false} ClaimEffect(b: Board, grants: seq<Grant>, j: JobId)
    requires GrantsOk(b, grants) && j in b.jobs
    ensures j in GrantAll(b, grants).jobs
    ensures (forall g :: g in grants ==> g.job != j) ==> GrantAll(b, grants).jobs[j] == b.jobs[j]
    ensures forall g :: g in grants && g.job == j ==>
              ClaimedAs(b.jobs[j], GrantAll(b, grants).jobs[j], g.run, b.now)
              && g.run in GrantAll(b, grants).runners && GrantAll(b, grants).runners[g.run] == Runner(j, Dispatched)
    decreases |grants|
  {
    if grants != [] {
      var b' := GrantOne(b, grants[0]);
      ClaimEffect(b', grants[1..], j);
      if grants[0].job == j {
        NotTakenAgain(b', grants[1..], j);
        GrantSparesRunner(b', grants[1..], grants[0].run);
      }
    }
  }

  lemma {:induction false} NotTakenAgain(b: Board, grants: seq<Grant>, j: JobId)
    requires GrantsOk(b, grants) && j in b.jobs && !Due(b.jobs[j], b.now)
    ensures forall g :: g in grants ==> g.job != j
    decreases |grants|
  {
    if grants != [] {
      NotTakenAgain(GrantOne(b, grants[0]), grants[1..], j);
    }
  }

  // ---------------------------------------------------------------------------------------
  // Creating
  // ---------------------------------------------------------------------------------------

  /** A new job waits for its first run at attempt 0, with the columns of its request and the default policy. */
  lemma InsertEffect(s: System, c: nat, run: RunId)
    requires Enabled(s, Intake(c, InsertJob(run))) && !InsertFails(s.board, s.front.creates[c])
    requires IntakeInv(s.board, s.front)
    ensures var b', cr := BoardAfter(s, Intake(c, InsertJob(run))), s.front.creates[c];
            var q, j := cr.request, cr.envelope.jobId;
            && b'.jobs.Keys == s.board.jobs.Keys + {j} && (forall k :: k in s.board.jobs ==> b'.jobs[k] == s.board.jobs[k])
            && QueuedAt(b'.jobs[j], if q.firstRunAt == None then cr.envelope.acceptedAt else q.firstRunAt.value)
            && b'.jobs[j].attempt == 0 && b'.jobs[j].runId == run && b'.jobs[j].owner == None && b'.jobs[j].lease == None
            && b'.jobs[j].error == None && b'.jobs[j].startedAt == None && b'.jobs[j].updatedAt == cr.envelope.acceptedAt
            && b'.jobs[j].spec == JobSpec(q.tenant, q.pathKey, q.key, if q.schedule == "" then None else Some(q.schedule),
                                          q.maxAttempts, Backoff.Policy(None, None), cr.envelope.acceptedAt, cr.envelope.acceptedAt)
  {
    assert CreateOk(s.board, s.front, c);
  }

  // ---------------------------------------------------------------------------------------
  // Steps and decisions
  // ---------------------------------------------------------------------------------------

  /** Ending a step records how it ended, parking it that it waits; the row keeps the run that first wrote it. */
  lemma StepEffect(s: System, r: RunId, act: RunnerAct)
    requires Enabled(s, Run(r, act)) && (act.EndStep? || act.Park?)
    ensures var k := StepKey(s.board.runners[r].job, s.board.runners[r].at.attempt, act.name);
            var steps, steps' := s.approvals.steps, ApprovalsAfter(s, Run(r, act)).steps;
            && steps'.Keys == steps.Keys + {k} && (forall o :: o in steps && o != k ==> steps'[o] == steps[o])
            && steps'[k].run == (if k in steps then steps[k].run else r)
            && steps'[k].status == (if act.Park? then StepStatus.WaitingApproval else if act.ok then StepOk else StepError)
            && ApprovalsAfter(s, Run(r, act)).decisions == s.approvals.decisions
  {
  }

  /** A decision call stores, under a new key and for an approver who has not decided on the step, the decision it was
      asked to store, dated now; and nothing else. */
  lemma DecisionEffect(s: System, d: nat)
    requires Enabled(s, StoreDecision(d))
    ensures var c, ap' := s.approvals.deciders[d], ApprovalsAfter(s, StoreDecision(d));
            && ap'.steps == s.approvals.steps
            && (c.key !in s.approvals.decisions && !AlreadyDecided(s.approvals, c.step, c.approver) ==>
                  ap'.decisions == s.approvals.decisions[c.key :=
                    DecisionRow(c.step.job, c.step, c.run, c.verdict, c.approver, c.justification, s.board.now)])
            && (c.key !in s.approvals.decisions && AlreadyDecided(s.approvals, c.step, c.approver) ==>
                  ap'.decisions == s.approvals.decisions)
  {
  }

  /** Who may decide on a step of a job: somebody with a name, of the job's tenant, in one of the two approving roles. */
  lemma MayDecideIff(spec: JobSpec, approver: string, role: string, tenant: string)
    ensures MayDecide(spec, approver, role, tenant) <==>
              && approver != "" && (spec.tenant == "" || tenant == spec.tenant)
              && (ApprovalPolicy.EqualFold("release-manager", role) || ApprovalPolicy.EqualFold("team-lead", role))
  {
    var roles := PolicyInfo(spec).policy.allowedRoles;
    assert roles[0] == "release-manager" && roles[1] == "team-lead";
  }

  // ---------------------------------------------------------------------------------------
  // The attempt a runner works on
  // ---------------------------------------------------------------------------------------

  /** A runner that holds its job works on the attempt the job is at. */
  ghost predicate AttemptsKnown(b: Board)
  {
    forall r :: r in b.runners && b.runners[r].job in b.jobs && b.jobs[b.runners[r].job].runId == r ==>
      WorksOn(b.runners[r].at, b.jobs[b.runners[r].job].attempt)
  }

  predicate WorksOn(pc: RunnerPc, attempt: int)
  {
    (pc.Executing? || pc.Awaiting?) ==> pc.attempt == attempt
  }

  lemma GrantKnown(b: Board, g: Grant)
    requires Core(b) && AttemptsKnown(b) && GrantOk(b, g)
    ensures AttemptsKnown(GrantOne(b, g))
  {
  }

  lemma {:induction false} GrantsKnown(b: Board, grants: seq<Grant>)
    requires Core(b) && AttemptsKnown(b) && GrantsOk(b, grants)
    ensures AttemptsKnown(GrantAll(b, grants))
    decreases |grants|
  {
    if grants != [] {
      GrantKnown(b, grants[0]);
      GrantOneKeeps(b, grants[0]);
      GrantsKnown(GrantOne(b, grants[0]), grants[1..]);
    }
  }

  lemma RunKnown(b: Board, r: RunId, act: RunnerAct)
    requires Core(b) && AttemptsKnown(b) && r in b.runners && RunnerReady(b.runners[r].at, act)
    ensures AttemptsKnown(RunBoard(b, r, act))
  {
    if act.Finalises() && Fenced(b, r) {
      FinalRowFits(b, r, act);
    }
  }

  lemma InsertKnown(s: System, c: nat, run: RunId)
    requires Core(s.board) && AttemptsKnown(s.board) && Enabled(s, Intake(c, InsertJob(run)))
    ensures AttemptsKnown(BoardAfter(s, Intake(c, InsertJob(run))))
  {
  }

  lemma NextKnown(s: System, a: Action, t: System)
    requires Reachable(s) && Next(s, a, t) && AttemptsKnown(s.board)
    ensures AttemptsKnown(t.board)
  {
    ReachableInv(s);
    match a
    case Claim(grants) => GrantsKnown(s.board, grants);
    case Run(r, act) => RunKnown(s.board, r, act);
    case Intake(c, InsertJob(run)) => InsertKnown(s, c, run);
    case _ =>
  }

  /** In every run a runner that holds its job writes its steps, and waits for approval, under the attempt the job is
      at. */
  lemma {:induction false} HolderKnowsItsAttempt(states: seq<System>, acts: seq<Action>, i: nat)
    requires IsRun(states, acts) && i < |states|
    ensures AttemptsKnown(states[i].board)
  {
    if i > 0 {
      HolderKnowsItsAttempt(states, acts, i - 1);
      LaterReachable(states, acts, 0, i - 1) by {
        ReachSelf(states[0]);
      }
      NextKnown(states[i - 1], acts[i - 1], states[i]);
    }
  }
}
