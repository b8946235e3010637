/** The job protocol as a state machine. Each SQL statement is one atomic action; requests,
    schedulers, runners and approvers interleave freely, and any process may stop for ever
    between two statements. */
module JobProtocol {
  import opened Options
  import opened Intake
  import opened JobTable
  import ApprovalPolicy

  // ---------------------------------------------------------------------------------------
  // State
  // ---------------------------------------------------------------------------------------

  datatype RunnerPc =
    | Dispatched
    | Executing(attempt: int)
    | Awaiting(attempt: int, step: string)
    | Finishing(next: Option<Time>)   // schedule read; `next` is the requeue time, if any
    | Copying                         // fenced update took effect, projection copy is next
    | Stopped

  /** The runner of one claim; runners are keyed by the run id they were dispatched with. */
  datatype Runner = Runner(job: JobId, at: RunnerPc)

  /** Result of parsing a cron expression and asking for the first run after a given time. */
  datatype Cron = CronError | NextAt(time: Time)

  /** The job table with its clock, the run ids ever stamped (and on which job), and the runners. What the
      cron library makes of a schedule at a given time never changes. */
  datatype Board = Board(
    now: Time, cron: (string, Time) -> Cron, issued: map<RunId, JobId>, jobs: map<JobId, JobRow>,
    runners: map<RunId, Runner>)

  datatype CreatePc =
    | Received                 // validated, nothing written
    | Recorded                 // idempotency record inserted
    | Existing                 // insert hit an existing record
    | Inserted(row: JobRow)    // job row inserted, its columns still in memory
    | Responded(answer: Answer)
    | Broken                   // a statement failed or the process died

  datatype Create = Create(request: Request, envelope: Envelope, at: CreatePc)

  /** Idempotency records, the job ids handed out (and to which call), and the create calls. */
  datatype Front = Front(jobIds: map<JobId, nat>, keys: map<Triple, Record>, creates: map<nat, Create>)

  datatype StepStatus = StepOk | StepError | WaitingApproval

  /** The unique key of `steps`; rows are never deleted, so it stands for the row's id too. */
  datatype StepKey = StepKey(job: JobId, attempt: int, name: string)

  datatype StepRow = StepRow(run: RunId, status: StepStatus)

  datatype Verdict = Approved | Rejected

  /** A row of `approval_decisions`; the table is keyed here by its unique idempotency key. */
  datatype DecisionRow = DecisionRow(
    job: JobId, step: StepKey, run: RunId, verdict: Verdict, approver: string,
    justification: string, createdAt: Time)

  /** An approver's call between reading the step row and inserting the decision. */
  datatype Decider = Decider(
    step: StepKey, run: RunId, verdict: Verdict, approver: string, justification: string, key: string)

  datatype Approvals = Approvals(
    steps: map<StepKey, StepRow>, decisions: map<string, DecisionRow>, deciders: map<nat, Decider>)

  datatype System = System(board: Board, front: Front, projection: map<JobId, ReadRow>, approvals: Approvals)

  predicate Init(s: System)
  {
    && s.board.issued == map[] && s.board.jobs == map[] && s.board.runners == map[]
    && s.front == Front(map[], map[], map[])
    && s.projection == map[]
    && s.approvals == Approvals(map[], map[], map[])
  }

  // ---------------------------------------------------------------------------------------
  // Actions
  // ---------------------------------------------------------------------------------------

  /** One row of a claim: the job and the run id stamped on it. */
  datatype Grant = Grant(job: JobId, run: RunId)

  datatype IntakeAct =
    | Receive(request: Request, job: JobId)
    | RecordKey
    | FetchKey
    | InsertJob(run: RunId)
    | InsertRead
    | Drop

  datatype RunnerAct =
    | FetchJob
    | Fail(code: string, message: string)
    | Terminate(code: string, message: string)
    | ReadSchedule
    | Succeed
    | CopyRow
    | Abandon
    | EndStep(name: string, ok: bool)
    | Park(name: string)
    | Poll(key: string)
  {
    predicate Finalises() { Fail? || Terminate? || Succeed? }
  }

  datatype Action =
    | Advance(to: Time)
    | Intake(c: nat, intake: IntakeAct)
    | Claim(grants: seq<Grant>)
    | Run(r: RunId, act: RunnerAct)
    | Consult(d: nat, decider: Decider, role: string, tenant: string)
    | StoreDecision(d: nat)

  // ---------------------------------------------------------------------------------------
  // Guards
  // ---------------------------------------------------------------------------------------

  predicate Parked(ap: Approvals, j: JobId)
  {
    exists k :: k in ap.steps && k.job == j && ap.steps[k].status.WaitingApproval?
  }

  predicate GrantOk(b: Board, g: Grant)
  {
    g.job in b.jobs && Due(b.jobs[g.job], b.now) && g.run !in b.issued
  }

  /** The claim stamps each picked row with a run id never used before. Rows are taken one after
      the other at one instant; a stamped row is no longer due, so none is taken twice. */
  predicate GrantsOk(b: Board, grants: seq<Grant>)
    decreases |grants|
  {
    grants == [] || (GrantOk(b, grants[0]) && GrantsOk(GrantOne(b, grants[0]), grants[1..]))
  }

  /** The `WHERE id AND run_id AND state = 'running'` guard of every runner statement on `jobs`. */
  predicate Fenced(b: Board, r: RunId)
  {
    && r in b.runners && b.runners[r].job in b.jobs
    && b.jobs[b.runners[r].job].runId == r && b.jobs[b.runners[r].job].state.Running?
  }

  /** The decisions `WaitForApproval` selects from. */
  predicate Matches(s: System, r: RunId, key: string)
    requires r in s.board.runners && s.board.runners[r].at.Awaiting?
  {
    var j, pc := s.board.runners[r].job, s.board.runners[r].at;
    var k := StepKey(j, pc.attempt, pc.step);
    && k in s.approvals.steps && s.approvals.steps[k].run == r
    && key in s.approvals.decisions
    && s.approvals.decisions[key].job == j && s.approvals.decisions[key].run == r
    && s.approvals.decisions[key].step == k
  }

  /** The newest matching decision is returned. */
  predicate Answers(s: System, r: RunId, key: string)
    requires r in s.board.runners && s.board.runners[r].at.Awaiting?
  {
    && Matches(s, r, key)
    && forall q :: q in s.approvals.decisions && Matches(s, r, q) ==> s.approvals.decisions[q].createdAt <= s.approvals.decisions[key].createdAt
  }

  predicate RunnerReady(pc: RunnerPc, act: RunnerAct)
  {
    match act
    case FetchJob => pc.Dispatched?
    case Succeed => pc.Finishing?
    case CopyRow => pc.Copying?
    case Abandon => true
    case Poll(_) => pc.Awaiting?
    case _ => pc.Executing?
  }

  predicate IntakeReady(s: System, c: nat, act: IntakeAct)
  {
    match act
    case Receive(request, job) => c !in s.front.creates && Admissible(request) && job !in s.front.jobIds
    case RecordKey => c in s.front.creates && s.front.creates[c].at.Received?
    case FetchKey =>
      && c in s.front.creates && s.front.creates[c].at.Existing?
      && TripleOf(s.front.creates[c].request) in s.front.keys
    case InsertJob(run) => c in s.front.creates && s.front.creates[c].at.Recorded? && run !in s.board.issued
    case InsertRead => c in s.front.creates && s.front.creates[c].at.Inserted?
    case Drop => c in s.front.creates && !s.front.creates[c].at.Responded?
  }

  predicate Enabled(s: System, a: Action)
  {
    match a
    case Advance(to) => s.board.now <= to
    case Intake(c, act) => IntakeReady(s, c, act)
    case Claim(grants) =>
      && |grants| <= 10 && GrantsOk(s.board, grants)
      && forall g :: g in grants ==> !Parked(s.approvals, g.job)
    case Run(r, act) =>
      && r in s.board.runners && RunnerReady(s.board.runners[r].at, act)
      && (act.Poll? ==> Answers(s, r, act.key))
    case Consult(d, _, _, _) => d !in s.approvals.deciders
    case StoreDecision(d) => d in s.approvals.deciders
  }

  // ---------------------------------------------------------------------------------------
  // Effects on the job table
  // ---------------------------------------------------------------------------------------

  function GrantOne(b: Board, g: Grant): Board
    requires g.job in b.jobs
  {
    b.(jobs := b.jobs[g.job := ClaimRow(b.jobs[g.job], g.run, b.now)],
       issued := b.issued[g.run := g.job],
       runners := b.runners[g.run := Runner(g.job, Dispatched)])
  }

  function GrantAll(b: Board, grants: seq<Grant>): Board
    requires GrantsOk(b, grants)
    decreases |grants|
  {
    if grants == [] then b else GrantAll(GrantOne(b, grants[0]), grants[1..])
  }

  function Move(b: Board, r: RunId, pc: RunnerPc): Board
    requires r in b.runners
  {
    b.(runners := b.runners[r := b.runners[r].(at := pc)])
  }

  function InsertRow(b: Board, j: JobId, row: JobRow): Board
  {
    b.(jobs := b.jobs[j := row], issued := b.issued[row.runId := j])
  }

  /** The row a finalising statement writes. */
  function FinalRow(row: JobRow, pc: RunnerPc, act: RunnerAct, now: Time): JobRow
    requires act.Finalises() && RunnerReady(pc, act)
  {
    match act
    case Fail(code, message) => FailRow(row, code, message, now)
    case Terminate(code, message) => TerminateRow(row, code, message, now)
    case Succeed => if pc.next.Some? then RequeueRow(row, pc.next.value, now) else SucceedRow(row, now)
  }

  function Rewrite(b: Board, r: RunId, row: JobRow): Board
    requires r in b.runners
  {
    Move(b, r, Copying).(jobs := b.jobs[b.runners[r].job := row])
  }

  /** What a runner does next when its module has succeeded: it gives up if the schedule has no next run. */
  function AfterSuccess(b: Board, spec: JobSpec): RunnerPc
  {
    if !Scheduled(spec) then Finishing(None)
    else match b.cron(spec.schedule.value, b.now)
      case CronError => Stopped
      case NextAt(next) => Finishing(Some(next))
  }

  /** Where a runner stands after a statement that does not rewrite its job. */
  function NextPc(b: Board, r: RunId, act: RunnerAct): RunnerPc
    requires r in b.runners && RunnerReady(b.runners[r].at, act)
  {
    var pc := b.runners[r].at;
    match act
    case FetchJob => if Fenced(b, r) then Executing(b.jobs[b.runners[r].job].attempt) else Stopped
    case ReadSchedule => if Fenced(b, r) then AfterSuccess(b, b.jobs[b.runners[r].job].spec) else Stopped
    case EndStep(_, _) => pc
    case Park(name) => Awaiting(pc.attempt, name)
    case Poll(_) => Executing(pc.attempt)
    case _ => Stopped
  }

  /** A fenced update rewrites the row; without the fence it only ends its runner. */
  function RunBoard(b: Board, r: RunId, act: RunnerAct): Board
    requires r in b.runners && RunnerReady(b.runners[r].at, act)
  {
    if act.Finalises() && Fenced(b, r)
    then Rewrite(b, r, FinalRow(b.jobs[b.runners[r].job], b.runners[r].at, act, b.now))
    else Move(b, r, NextPc(b, r, act))
  }

  /** The unique index on jobs spans tenant and idempotency key, not the path. */
  predicate KeyTaken(b: Board, request: Request)
  {
    exists j :: j in b.jobs && b.jobs[j].spec.tenant == request.tenant && b.jobs[j].spec.key == request.key
  }

  predicate InsertFails(b: Board, cr: Create)
  {
    KeyTaken(b, cr.request) || cr.envelope.jobId in b.jobs
  }

  function BoardAfter(s: System, a: Action): Board
    requires Enabled(s, a)
  {
    match a
    case Advance(to) => s.board.(now := to)
    case Intake(c, InsertJob(run)) =>
      var cr := s.front.creates[c];
      if InsertFails(s.board, cr) then s.board
      else InsertRow(s.board, cr.envelope.jobId, InitialRow(cr.request, cr.envelope, run))
    case Claim(grants) => GrantAll(s.board, grants)
    case Run(r, act) => RunBoard(s.board, r, act)
    case _ => s.board
  }

  // ---------------------------------------------------------------------------------------
  // Effects on intake, projection and approvals
  // ---------------------------------------------------------------------------------------

  function RecordFor(cr: Create): Record
  {
    Record(FingerprintOf(cr.request), ACCEPTED, cr.envelope)
  }

  function CreateAfter(s: System, cr: Create, act: IntakeAct): CreatePc
    requires act.InsertRead? ==> cr.at.Inserted?
  {
    match act
    case Receive(_, _) => cr.at
    case RecordKey => if TripleOf(cr.request) in s.front.keys then Existing else Recorded
    case FetchKey => Responded(Respond(s.front.keys, TripleOf(cr.request), RecordFor(cr)))
    case InsertJob(run) =>
      if InsertFails(s.board, cr) then Broken else Inserted(InitialRow(cr.request, cr.envelope, run))
    case InsertRead =>
      if cr.envelope.jobId in s.projection then Broken else Responded(Answer(RecordFor(cr), false, false))
    case Drop => Broken
  }

  function FrontAfter(s: System, a: Action): Front
    requires Enabled(s, a)
  {
    match a
    case Intake(c, Receive(request, job)) =>
      s.front.(creates := s.front.creates[c := Create(request, EnvelopeFor(request, job, s.board.now), Received)],
               jobIds := s.front.jobIds[job := c])
    case Intake(c, act) =>
      var cr := s.front.creates[c];
      s.front.(creates := s.front.creates[c := cr.(at := CreateAfter(s, cr, act))],
               keys := if act.RecordKey? then Remember(s.front.keys, TripleOf(cr.request), RecordFor(cr)) else s.front.keys)
    case _ => s.front
  }

  function ProjectionAfter(s: System, a: Action): map<JobId, ReadRow>
    requires Enabled(s, a)
  {
    match a
    case Intake(c, InsertRead) =>
      var cr := s.front.creates[c];
      if cr.envelope.jobId in s.projection then s.projection
      else s.projection[cr.envelope.jobId := Project(cr.at.row)]
    case Run(r, CopyRow) =>
      var j := s.board.runners[r].job;
      if j !in s.board.jobs then s.projection
      else s.projection[j := Upsert(if j in s.projection then Some(s.projection[j]) else None, s.board.jobs[j])]
    case _ => s.projection
  }

  /** Step upserts never touch the `run_id` of an existing row. */
  function WriteStep(ap: Approvals, k: StepKey, r: RunId, status: StepStatus): Approvals
  {
    ap.(steps := ap.steps[k := StepRow(if k in ap.steps then ap.steps[k].run else r, status)])
  }

  predicate AlreadyDecided(ap: Approvals, step: StepKey, approver: string)
  {
    exists q :: q in ap.decisions && ap.decisions[q].step == step && ap.decisions[q].approver == approver
  }

  /** What the decision call tells the policy about a job: two roles may approve, and no job has an owner on
      record, for intake leaves that column empty. */
  function PolicyInfo(spec: JobSpec): ApprovalPolicy.Info
  {
    ApprovalPolicy.Info("", "", spec.tenant, spec.pathKey, "",
                        ApprovalPolicy.Policy(1, ["release-manager", "team-lead"], false), None, None)
  }

  predicate MayDecide(spec: JobSpec, approver: string, role: string, tenant: string)
  {
    ApprovalPolicy.Evaluate(PolicyInfo(spec), approver, role, tenant).Allowed?
  }

  /** The first SELECT of a decision call: the step is waiting and the policy lets the approver
      through; the run id is the one stored on the step row. */
  predicate Consultable(s: System, c: Decider, role: string, tenant: string)
  {
    && c.step in s.approvals.steps && s.approvals.steps[c.step].status.WaitingApproval?
    && c.run == s.approvals.steps[c.step].run && c.step.job in s.board.jobs
    && MayDecide(s.board.jobs[c.step.job].spec, c.approver, role, tenant)
  }

  /** On a known idempotency key the INSERT only overwrites the job column. */
  function Decide(ap: Approvals, c: Decider, now: Time): Approvals
  {
    if c.key in ap.decisions then
      ap.(decisions := ap.decisions[c.key := ap.decisions[c.key].(job := c.step.job)])
    else if AlreadyDecided(ap, c.step, c.approver) then ap
    else
      ap.(decisions := ap.decisions[c.key :=
        DecisionRow(c.step.job, c.step, c.run, c.verdict, c.approver, c.justification, now)])
  }

  function RunApprovals(s: System, r: RunId, act: RunnerAct): Approvals
    requires r in s.board.runners && RunnerReady(s.board.runners[r].at, act)
  {
    var runner := s.board.runners[r];
    match act
    case EndStep(name, ok) =>
      WriteStep(s.approvals, StepKey(runner.job, runner.at.attempt, name), r, if ok then StepOk else StepError)
    case Park(name) => WriteStep(s.approvals, StepKey(runner.job, runner.at.attempt, name), r, WaitingApproval)
    case _ => s.approvals
  }

  function ApprovalsAfter(s: System, a: Action): Approvals
    requires Enabled(s, a)
  {
    match a
    case Run(r, act) => RunApprovals(s, r, act)
    case Consult(d, decider, role, tenant) =>
      if Consultable(s, decider, role, tenant)
      then s.approvals.(deciders := s.approvals.deciders[d := decider])
      else s.approvals
    case StoreDecision(d) => Decide(s.approvals, s.approvals.deciders[d], s.board.now)
    case _ => s.approvals
  }

  function Apply(s: System, a: Action): System
    requires Enabled(s, a)
  {
    System(BoardAfter(s, a), FrontAfter(s, a), ProjectionAfter(s, a), ApprovalsAfter(s, a))
  }

  // ---------------------------------------------------------------------------------------
  // Runs
  // ---------------------------------------------------------------------------------------

  ghost predicate Next(s: System, a: Action, s': System)
  {
    Enabled(s, a) && s' == Apply(s, a)
  }

  ghost predicate Steps(states: seq<System>, acts: seq<Action>)
  {
    |states| == |acts| + 1 && forall i :: 0 <= i < |acts| ==> Next(states[i], acts[i], states[i + 1])
  }

  /** A run: states joined by enabled actions, from an empty database. */
  ghost predicate IsRun(states: seq<System>, acts: seq<Action>)
  {
    Steps(states, acts) && Init(states[0])
  }
}
