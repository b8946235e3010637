/** The approval service as a mutable object; every method is proved to perform the corresponding
    step of the value model. */
module ApprovalService {
  import opened Options
  import opened ApprovalPolicy
  import opened ApprovalModel

  /** Removing one candidate from those still to be counted. */
  lemma CountOne(all: set<string>, todo: set<string>, a: string)
    requires a in todo
    ensures |all - (todo - {a})| == |all - todo| + if a in all then 1 else 0
  {
    if a in all {
      assert all - (todo - {a}) == (all - todo) + {a};
    } else {
      assert all - (todo - {a}) == all - todo;
    }
  }

  class Approvals {
    var steps: map<string, Step>
    var idem: map<string, IdemRecord>
    var events: seq<Event>
    ghost var drained: seq<Event>
    ghost var ballots: seq<Input>

    ghost function Model(): Service
      reads this
    {
      Service(steps, idem, events, drained, ballots)
    }

    constructor ()
      ensures Model() == EMPTY
    {
      steps, idem, events, drained, ballots := map[], map[], [], [], [];
    }

    method SeedStep(seed: Seed, now: Time)
      modifies this
      ensures Model() == ApprovalModel.SeedStep(old(Model()), seed, now)
    {
      var requested := now;
      if seed.requestedAt.Some? {
        requested := seed.requestedAt.value;
      }
      var expires := seed.expiresAt;
      if expires.None? {
        expires := Some(requested + DEFAULT_TTL);
      }
      steps := steps[KeyOf(seed.info.job, seed.info.step) :=
        Step(seed.info, WaitingApproval, requested, expires, false, map[])];
      events := events + [Event(Requested, seed.info.job, seed.info.step, now)];
    }

    method DrainEvents() returns (batch: seq<Event>)
      modifies this
      ensures batch == old(events) && Model() == Drain(old(Model()))
    {
      batch := events;
      drained := drained + events;
      events := [];
    }

    /** Counting approvals by a scan of the decisions, in any order. */
    method CountApproved(decisions: map<string, Vote>) returns (approved: nat)
      ensures approved == |Approvers(decisions)|
    {
      approved := 0;
      var todo := decisions.Keys;
      while todo != {}
        invariant todo <= decisions.Keys
        invariant approved == |Approvers(decisions) - todo|
        decreases |todo|
      {
        var a :| a in todo;
        CountOne(Approvers(decisions), todo, a);
        if decisions[a].decision == "approved" {
          approved := approved + 1;
        }
        todo := todo - {a};
      }
      assert Approvers(decisions) - {} == Approvers(decisions);
    }

    method SubmitDecision(i: Input, now: Time) returns (reply: Reply)
      modifies this
      ensures Model() == Submit(old(Model()), i, now)
      ensures reply == SubmitReply(old(Model()), i, now)
    {
      var k := KeyOf(i.job, i.step);
      if k !in steps {
        return Err(StepNotFound);
      }
      var payload := Payload(i);
      if i.key in idem {
        if idem[i.key].payload != payload {
          return Err(IdempotencyConflict);
        }
        return Ok(idem[i.key].output.(replay := true));
      }
      var step := steps[k];
      if step.status != WaitingApproval {
        return Err(NotWaiting);
      }
      if i.approver in step.decisions {
        return Err(DecisionConflict);
      }
      var verdict := EvaluateApproval(step.info, i.approver, i.role, i.tenant);
      if verdict.Denied? {
        if verdict.violation.SelfApprovalBlocked? || verdict.violation.BudgetExceeded? {
          return Err(PolicyViolation);
        }
        return Err(Forbidden);
      }
      step := step.(decisions := step.decisions[i.approver := Vote(i.decision, i.approver, i.justification, now)]);
      var approved := CountApproved(step.decisions);
      var required := step.info.policy.minApprovers;
      if required < 1 {
        required := 1;
      }
      var remaining := required - approved;
      if remaining < 0 {
        remaining := 0;
      }
      if i.decision == "rejected" {
        step := step.(status := Error);
      } else if remaining == 0 {
        step := step.(status := Running);
      }
      assert step == Voted(steps[k], i, now);
      steps := steps[k := step];
      var output := Output(i.job, i.step, i.decision, step.status, i.key, false, remaining, now);
      events := events + [Event(Decided(i.decision, i.approver, i.justification), i.job, i.step, now)];
      idem := idem[i.key := IdemRecord(payload, output)];
      ballots := ballots + [i];
      return Ok(output);
    }

    /** One step's share of a tick. */
    method TickStep(k: string, now: Time)
      requires k in steps
      modifies this
      ensures Model() == TickOne(old(Model()), now, k)
    {
      var step := steps[k];
      if step.status != WaitingApproval {
        assert steps[k := Ticked(step, now)] == steps;
        return;
      }
      if step.expiresAt.None? {
        step := step.(expiresAt := Some(now + DEFAULT_TTL));
      }
      var expires := step.expiresAt.value;
      var total := expires - step.requestedAt;
      if total <= 0 {
        total := DEFAULT_TTL;
      }
      var escalationPoint := step.requestedAt + total * 4 / 5;
      if !step.escalated && escalationPoint <= now && now < expires {
        step := step.(escalated := true);
        events := events + [Event(Escalated, step.info.job, step.info.step, now)];
      }
      if expires <= now {
        step := step.(status := Error);
        if "system" !in step.decisions {
          step := step.(decisions := step.decisions["system" := Vote("expired", "system", "approval_timeout", now)]);
        }
        events := events + [Event(Expired, step.info.job, step.info.step, now)];
      }
      steps := steps[k := step];
    }

    /** A tick visits every step once, in an order the caller does not choose. */
    method TickApprovals(now: Time) returns (ghost order: seq<string>)
      modifies this
      ensures IsOrder(order, old(steps).Keys)
      ensures Model() == Tick(old(Model()), now, order)
    {
      order := [];
      var todo := steps.Keys;
      while todo != {}
        invariant steps.Keys == old(steps).Keys && todo <= steps.Keys
        invariant IsOrder(order, old(steps).Keys - todo)
        invariant Model() == Tick(old(Model()), now, order)
        decreases |todo|
      {
        var k :| k in todo;
        TickStep(k, now);
        assert (order + [k])[..|order|] == order;
        order := order + [k];
        todo := todo - {k};
      }
    }
  }
}
