/** The in-memory approval service as a state machine over values. */
module ApprovalModel {
  import opened Options
  import opened Text
  import opened ApprovalPolicy

  /** Clock readings in nanoseconds. */
  type Time = int

  const DEFAULT_TTL: Time := 48 * 3600 * 1_000_000_000

  datatype Status = WaitingApproval | Running | Error

  datatype Vote = Vote(decision: string, approver: string, justification: string, at: Time)

  datatype Step = Step(
    info: Info, status: Status, requestedAt: Time, expiresAt: Option<Time>, escalated: bool,
    decisions: map<string, Vote>)

  datatype Kind = Requested | Decided(decision: string, approver: string, justification: string) | Escalated | Expired

  datatype Event = Event(kind: Kind, job: string, step: string, at: Time)

  datatype Input = Input(
    job: string, step: string, decision: string, justification: string, key: string,
    approver: string, role: string, tenant: string)

  datatype Output = Output(
    job: string, step: string, decision: string, state: Status, key: string, replay: bool,
    remaining: int, at: Time)

  datatype Failure =
    StepNotFound | NotWaiting | IdempotencyConflict | DecisionConflict | Forbidden | PolicyViolation

  datatype Reply = Ok(output: Output) | Err(failure: Failure)

  datatype IdemRecord = IdemRecord(payload: string, output: Output)

  /** `drained` and `ballots` are histories: all events handed out by earlier drains, and all
      decisions accepted so far. */
  datatype Service = Service(
    steps: map<string, Step>, idem: map<string, IdemRecord>, events: seq<Event>,
    drained: seq<Event>, ballots: seq<Input>)

  function History(s: Service): seq<Event>
  {
    s.drained + s.events
  }

  const EMPTY := Service(map[], map[], [], [], [])

  function KeyOf(job: string, step: string): string
  {
    job + ":" + step
  }

  // ---------------------------------------------------------------------------------------
  // Seeding and draining
  // ---------------------------------------------------------------------------------------

  /** A new approval request; unset times get the service's defaults. */
  datatype Seed = Seed(info: Info, requestedAt: Option<Time>, expiresAt: Option<Time>)

  function Fresh(seed: Seed, now: Time): Step
  {
    var requested := if seed.requestedAt.Some? then seed.requestedAt.value else now;
    Step(seed.info, WaitingApproval, requested,
         if seed.expiresAt.Some? then seed.expiresAt else Some(requested + DEFAULT_TTL), false, map[])
  }

  function SeedStep(s: Service, seed: Seed, now: Time): Service
  {
    var k := KeyOf(seed.info.job, seed.info.step);
    s.(steps := s.steps[k := Fresh(seed, now)],
       events := s.events + [Event(Requested, seed.info.job, seed.info.step, now)])
  }

  function Drain(s: Service): Service
  {
    s.(events := [], drained := s.drained + s.events)
  }

  // ---------------------------------------------------------------------------------------
  // Decisions
  // ---------------------------------------------------------------------------------------

  function Payload(i: Input): string
  {
    Join([i.job, i.step, i.decision, i.justification, i.approver], '|')
  }

  function Approvers(decisions: map<string, Vote>): set<string>
  {
    set a | a in decisions && decisions[a].decision == "approved"
  }

  function Required(p: Policy): int
  {
    if p.minApprovers < 1 then 1 else p.minApprovers
  }

  function Remaining(p: Policy, approved: int): int
  {
    if Required(p) - approved < 0 then 0 else Required(p) - approved
  }

  /** The step after an accepted decision. */
  function Voted(step: Step, i: Input, now: Time): Step
  {
    var decisions := step.decisions[i.approver := Vote(i.decision, i.approver, i.justification, now)];
    var remaining := Remaining(step.info.policy, |Approvers(decisions)|);
    step.(decisions := decisions,
          status := if i.decision == "rejected" then Error else if remaining == 0 then Running else step.status)
  }

  function OutputFor(step: Step, i: Input, now: Time): Output
  {
    Output(i.job, i.step, i.decision, step.status, i.key, false,
           Remaining(step.info.policy, |Approvers(step.decisions)|), now)
  }

  /** Why a decision is not recorded anew, if it is not. */
  function Screen(s: Service, i: Input): (r: Option<Reply>)
    ensures r.None? ==> KeyOf(i.job, i.step) in s.steps
  {
    var k := KeyOf(i.job, i.step);
    if k !in s.steps then Some(Err(StepNotFound))
    else if i.key in s.idem then
      (if s.idem[i.key].payload != Payload(i) then Some(Err(IdempotencyConflict))
       else Some(Ok(s.idem[i.key].output.(replay := true))))
    else if !s.steps[k].status.WaitingApproval? then Some(Err(NotWaiting))
    else if i.approver in s.steps[k].decisions then Some(Err(DecisionConflict))
    else match Evaluate(s.steps[k].info, i.approver, i.role, i.tenant)
         case Allowed => None
         case Denied(v) => Some(Err(if v.SelfApprovalBlocked? || v.BudgetExceeded? then PolicyViolation else Forbidden))
  }

  function Submit(s: Service, i: Input, now: Time): Service
  {
    if Screen(s, i).Some? then s
    else
      var k := KeyOf(i.job, i.step);
      var step := Voted(s.steps[k], i, now);
      s.(steps := s.steps[k := step],
         idem := s.idem[i.key := IdemRecord(Payload(i), OutputFor(step, i, now))],
         events := s.events + [Event(Decided(i.decision, i.approver, i.justification), i.job, i.step, now)],
         ballots := s.ballots + [i])
  }

  function SubmitReply(s: Service, i: Input, now: Time): Reply
  {
    if Screen(s, i).Some? then Screen(s, i).value
    else Ok(OutputFor(Voted(s.steps[KeyOf(i.job, i.step)], i, now), i, now))
  }

  // ---------------------------------------------------------------------------------------
  // Ticks
  // ---------------------------------------------------------------------------------------

  function Expiry(step: Step, now: Time): Time
  {
    if step.expiresAt.Some? then step.expiresAt.value else now + DEFAULT_TTL
  }

  /** Four fifths of the time to live after the request; a time to live that is not positive is
      replaced by the default for this purpose. */
  function EscalationPoint(step: Step, now: Time): Time
  {
    var total := Expiry(step, now) - step.requestedAt;
    step.requestedAt + (if total <= 0 then DEFAULT_TTL else total) * 4 / 5
  }

  predicate Escalates(step: Step, now: Time)
  {
    step.status.WaitingApproval? && !step.escalated && EscalationPoint(step, now) <= now < Expiry(step, now)
  }

  predicate Expires(step: Step, now: Time)
  {
    step.status.WaitingApproval? && Expiry(step, now) <= now
  }

  function Ticked(step: Step, now: Time): Step
  {
    if !step.status.WaitingApproval? then step
    else
      step.(expiresAt := Some(Expiry(step, now)),
            escalated := step.escalated || Escalates(step, now),
            status := if Expires(step, now) then Error else WaitingApproval,
            decisions := if Expires(step, now) && "system" !in step.decisions
                         then step.decisions["system" := Vote("expired", "system", "approval_timeout", now)]
                         else step.decisions)
  }

  function TickEvents(step: Step, now: Time): (es: seq<Event>)
    ensures |es| <= 1
  {
    if Escalates(step, now) then [Event(Escalated, step.info.job, step.info.step, now)]
    else if Expires(step, now) then [Event(Expired, step.info.job, step.info.step, now)]
    else []
  }

  function TickOne(s: Service, now: Time, k: string): Service
  {
    if k !in s.steps then s
    else s.(steps := s.steps[k := Ticked(s.steps[k], now)], events := s.events + TickEvents(s.steps[k], now))
  }

  /** A tick visits the steps in some order. */
  function Tick(s: Service, now: Time, order: seq<string>): Service
  {
    if order == [] then s else TickOne(Tick(s, now, order[..|order| - 1]), now, order[|order| - 1])
  }

  predicate IsOrder(order: seq<string>, keys: set<string>)
  {
    && (forall i, j :: 0 <= i < j < |order| ==> order[i] != order[j])
    && (forall i :: 0 <= i < |order| ==> order[i] in keys)
    && (forall k :: k in keys ==> k in order)
  }

  // ---------------------------------------------------------------------------------------
  // Runs
  // ---------------------------------------------------------------------------------------

  datatype Op = DoSeed(seed: Seed, now: Time) | DoSubmit(input: Input, now: Time)
              | DoTick(now: Time, order: seq<string>) | DoDrain

  /** Steps are seeded once; a tick visits every step once. */
  predicate Allows(s: Service, op: Op)
  {
    match op
    case DoSeed(seed, _) => KeyOf(seed.info.job, seed.info.step) !in s.steps
    case DoTick(_, order) => IsOrder(order, s.steps.Keys)
    case _ => true
  }

  function Do(s: Service, op: Op): Service
  {
    match op
    case DoSeed(seed, now) => SeedStep(s, seed, now)
    case DoSubmit(i, now) => Submit(s, i, now)
    case DoTick(now, order) => Tick(s, now, order)
    case DoDrain => Drain(s)
  }

  /** The services reached along a run of operations. */
  predicate IsRun(states: seq<Service>, ops: seq<Op>)
  {
    && |states| == |ops| + 1
    && forall i :: 0 <= i < |ops| ==> Allows(states[i], ops[i]) && states[i + 1] == Do(states[i], ops[i])
  }
}
