/** What each operation of the approval service leaves and answers, column by column, and when ticks escalate and
    expire steps over whole runs. */
module ApprovalEffects {
  import opened Options
  import opened ApprovalPolicy
  import opened ApprovalModel
  import opened ApprovalRuns

  // ---------------------------------------------------------------------------------------
  // Seeding
  // ---------------------------------------------------------------------------------------

  /** A seeded step waits, without decisions, from the given time or now, for the given time or forty-eight hours. */
  lemma SeedEffect(s: Service, seed: Seed, now: Time)
    ensures var k, s' := seed.info.job + ":" + seed.info.step, SeedStep(s, seed, now);
            && s'.steps.Keys == s.steps.Keys + {k} && (forall o :: o in s.steps && o != k ==> s'.steps[o] == s.steps[o])
            && s'.steps[k].info == seed.info && s'.steps[k].status == WaitingApproval && s'.steps[k].decisions == map[]
            && s'.steps[k].escalated == false
            && s'.steps[k].requestedAt == (if seed.requestedAt == None then now else seed.requestedAt.value)
            && s'.steps[k].expiresAt == (if seed.expiresAt != None then seed.expiresAt
                                         else Some(s'.steps[k].requestedAt + 172_800_000_000_000))
            && s'.events == s.events + [Event(Requested, seed.info.job, seed.info.step, now)] && s'.idem == s.idem
  {
  }

  // ---------------------------------------------------------------------------------------
  // Deciding
  // ---------------------------------------------------------------------------------------

  /** A decision is recorded anew when its step waits, its key is new, its approver has not decided yet and the
      policy lets the approver through. */
  predicate Recordable(s: Service, i: Input)
  {
    var k := i.job + ":" + i.step;
    && k in s.steps && i.key !in s.idem && s.steps[k].status == WaitingApproval && i.approver !in s.steps[k].decisions
    && Authorised(s.steps[k].info, i.approver, i.role, i.tenant)
  }

  /** The approvals a step needs: at least one. */
  function Needed(step: Step): int
  {
    if step.info.policy.minApprovers > 1 then step.info.policy.minApprovers else 1
  }

  /** The approvals of a step once this decision is counted. */
  function Given(step: Step, i: Input): int
  {
    |Approvers(step.decisions)| + if i.decision == "approved" then 1 else 0
  }

  /** A recorded decision: the vote is kept, a rejection ends the step, the approval that completes the quorum lets it
      run; the reply says so and how many approvals are still missing. */
  lemma RecordEffect(s: Service, i: Input, now: Time)
    requires Recordable(s, i)
    ensures var k, s' := i.job + ":" + i.step, Submit(s, i, now);
            var step, step' := s.steps[k], s'.steps[k];
            && s'.steps.Keys == s.steps.Keys && (forall o :: o in s.steps && o != k ==> s'.steps[o] == s.steps[o])
            && step'.decisions == step.decisions[i.approver := Vote(i.decision, i.approver, i.justification, now)]
            && step'.status == (if i.decision == "rejected" then Error
                                else if Given(step, i) >= Needed(step) then Running else WaitingApproval)
            && step'.info == step.info && step'.requestedAt == step.requestedAt && step'.expiresAt == step.expiresAt
            && step'.escalated == step.escalated
            && s'.events == s.events + [Event(Decided(i.decision, i.approver, i.justification), i.job, i.step, now)]
    ensures var k := i.job + ":" + i.step;
            var missing := Needed(s.steps[k]) - Given(s.steps[k], i);
            SubmitReply(s, i, now) == Ok(Output(i.job, i.step, i.decision, Submit(s, i, now).steps[k].status, i.key, false,
                                                if missing > 0 then missing else 0, now))
    ensures Submit(s, i, now).idem == s.idem[i.key := IdemRecord(Payload(i), SubmitReply(s, i, now).output)]
  {
    var step := s.steps[KeyOf(i.job, i.step)];
    ApproversGrow(step.decisions, i.approver, Vote(i.decision, i.approver, i.justification, now));
  }

  /** The approver is kept out by the rule on own requests, or by the budget alone. */
  predicate Violates(info: Info, i: Input)
  {
    var own := !info.policy.selfApproval && info.owner != "" && i.approver == info.owner;
    var stranger := info.tenant != "" && i.tenant != info.tenant;
    var role := info.policy.allowedRoles == [] || RoleListed(info.policy.allowedRoles, i.role);
    i.approver != "" && (own || (!stranger && role))
  }

  /** A decision that is not recorded changes nothing, and the caller is told why, by the first of these that holds. */
  lemma RefusalEffect(s: Service, i: Input, now: Time)
    requires !Recordable(s, i)
    ensures Submit(s, i, now) == s
    ensures var k, reply := i.job + ":" + i.step, SubmitReply(s, i, now);
            if k !in s.steps then reply == Err(StepNotFound)
            else if i.key in s.idem then
              (if s.idem[i.key].payload == Payload(i) then reply == Ok(s.idem[i.key].output.(replay := true))
               else reply == Err(IdempotencyConflict))
            else if s.steps[k].status != WaitingApproval then reply == Err(NotWaiting)
            else if i.approver in s.steps[k].decisions then reply == Err(DecisionConflict)
            else reply == Err(if Violates(s.steps[k].info, i) then PolicyViolation else Forbidden)
  {
  }

  /** In every run a key is on record exactly if an earlier call with that key recorded its decision; the record holds
      that call's payload and answer. */
  lemma {:induction false} KeyOnRecord(states: seq<Service>, ops: seq<Op>, n: nat, q: string)
    requires IsRun(states, ops) && states[0] == EMPTY && n < |states|
    ensures q in states[n].idem <==> exists h :: 0 <= h < n && RecordsKey(states, ops, h, q)
    ensures forall h :: 0 <= h < n && RecordsKey(states, ops, h, q) ==>
              q in states[n].idem && states[n].idem[q] == IdemRecord(Payload(ops[h].input), SubmitReply(states[h], ops[h].input, ops[h].now).output)
  {
    if n > 0 {
      var s, op := states[n - 1], ops[n - 1];
      KeyOnRecord(states, ops, n - 1, q);
      StepKeepsRecords(s, op);
      OpRecords(s, op, q);
      assert states[n] == Do(s, op);
      if q in states[n].idem && q !in s.idem {
        assert RecordsKey(states, ops, n - 1, q);
      }
    }
  }

  ghost predicate RecordsKey(states: seq<Service>, ops: seq<Op>, h: nat, q: string)
    requires |states| == |ops| + 1 && h < |ops|
  {
    ops[h].DoSubmit? && ops[h].input.key == q && Recordable(states[h], ops[h].input)
  }

  lemma OpRecords(s: Service, op: Op, q: string)
    requires Allows(s, op)
    ensures q in Do(s, op).idem && q !in s.idem <==> op.DoSubmit? && op.input.key == q && Recordable(s, op.input)
    ensures op.DoSubmit? && op.input.key == q && Recordable(s, op.input) ==>
              Do(s, op).idem[q] == IdemRecord(Payload(op.input), SubmitReply(s, op.input, op.now).output)
  {
    if op.DoTick? {
      TickIsBatch(s, op.now, op.order);
    } else if op.DoSubmit? {
      if Recordable(s, op.input) {
        RecordEffect(s, op.input, op.now);
      } else {
        RefusalEffect(s, op.input, op.now);
      }
    }
  }

  // ---------------------------------------------------------------------------------------
  // Ticking
  // ---------------------------------------------------------------------------------------

  /** When a step expires: a step without a time gets forty-eight hours from the tick. */
  function Deadline(step: Step, now: Time): Time
  {
    if step.expiresAt == None then now + 172_800_000_000_000 else step.expiresAt.value
  }

  /** Four fifths of the time to live have passed, to the nanosecond, and the step has not expired. */
  predicate InWindow(step: Step, now: Time)
  {
    var e := Deadline(step, now);
    step.requestedAt < e && now < e && 4 * (e - step.requestedAt) < 5 * (now - step.requestedAt + 1)
  }

  lemma EscalatesIff(step: Step, now: Time)
    requires step.status == WaitingApproval
    ensures Escalates(step, now) <==> !step.escalated && InWindow(step, now)
  {
    var e := Deadline(step, now);
    var total := e - step.requestedAt;
    if total > 0 {
      FourFifths(total, now - step.requestedAt);
    }
  }

  lemma FourFifths(total: int, elapsed: int)
    requires total > 0
    ensures total * 4 / 5 <= elapsed <==> 4 * total < 5 * (elapsed + 1)
  {
  }

  /** A tick expires a waiting step exactly from its deadline on; before that it escalates the step exactly if it has not
      been escalated and four fifths of its time have passed. It touches no other column and no other step's. */
  lemma TickEffect(step: Step, now: Time)
    ensures step.status != WaitingApproval ==> Ticked(step, now) == step && TickEvents(step, now) == []
    ensures step.status == WaitingApproval ==>
              var step', e := Ticked(step, now), Deadline(step, now);
              && step'.info == step.info && step'.requestedAt == step.requestedAt && step'.expiresAt == Some(e)
              && step'.status == (if e <= now then Error else WaitingApproval)
              && step'.decisions == (if e <= now && "system" !in step.decisions
                                     then step.decisions["system" := Vote("expired", "system", "approval_timeout", now)]
                                     else step.decisions)
              && step'.escalated == (step.escalated || InWindow(step, now))
              && TickEvents(step, now) == (if e <= now then [Event(Expired, step.info.job, step.info.step, now)]
                                           else if !step.escalated && InWindow(step, now)
                                           then [Event(Escalated, step.info.job, step.info.step, now)] else [])
  {
    if step.status == WaitingApproval {
      EscalatesIff(step, now);
    }
  }

  /** In every run, a tick that finds a waiting step in the window leaves it escalated, and its event in the history. */
  lemma WindowEscalates(states: seq<Service>, ops: seq<Op>, h: nat, k: string)
    requires IsRun(states, ops) && states[0] == EMPTY && h < |ops| && ops[h].DoTick?
    requires k in states[h].steps && states[h].steps[k].status == WaitingApproval && InWindow(states[h].steps[k], ops[h].now)
    ensures k in states[h + 1].steps && states[h + 1].steps[k].escalated && states[h + 1].steps[k].status == WaitingApproval
    ensures Escalated in Kinds(History(states[h + 1]), k)
  {
    var s, op := states[h], ops[h];
    assert states[h + 1] == Do(s, op);
    TickExact(s, op.now, op.order);
    TickEffect(s.steps[k], op.now);
    EventTrace(states, ops, h + 1, k);
    EscalatedHasEvent(Kinds(History(states[h + 1]), k), Required(states[h + 1].steps[k].info.policy));
  }

  lemma {:induction false} EscalatedHasEvent(es: seq<Kind>, required: int)
    ensures PhaseOf(es, required).Open? && PhaseOf(es, required).escalated ==> Escalated in es
  {
    if es != [] {
      EscalatedHasEvent(es[..|es| - 1], required);
      assert es == es[..|es| - 1] + [es[|es| - 1]];
    }
  }

  /** The kinds of events that only ticks emit. */
  predicate OfTick(kind: Kind)
  {
    kind == Escalated || kind == Expired
  }

  lemma {:induction false} BatchKinds(s: Service, now: Time, order: seq<string>, k: string, kind: Kind)
    requires Inv(s) && kind in Kinds(Batch(s.steps, now, order), k)
    ensures k in s.steps && exists e :: e in TickEvents(s.steps[k], now) && e.kind == kind
  {
    if order != [] {
      var n := |order| - 1;
      var at := EventsAt(s.steps, now, order[n]);
      KindsAppend(Batch(s.steps, now, order[..n]), at, k);
      if kind in Kinds(Batch(s.steps, now, order[..n]), k) {
        BatchKinds(s, now, order[..n], k, kind);
      } else {
        assert KeyOk(s, order[n]);
        assert at == [at[0]];
        KindsOfOne(at[0], k);
        assert at[0] in TickEvents(s.steps[k], now);
      }
    }
  }

  lemma OpKinds(s: Service, op: Op, k: string, kind: Kind)
    requires Inv(s) && Allows(s, op) && OfTick(kind)
    requires kind !in Kinds(History(s), k) && kind in Kinds(History(Do(s, op)), k)
    ensures op.DoTick? && k in s.steps && exists e :: e in TickEvents(s.steps[k], op.now) && e.kind == kind
  {
    HistoryGrows(s, op);
    KindsAppend(History(s), Emitted(s, op), k);
    if op.DoTick? {
      BatchKinds(s, op.now, op.order, k, kind);
    } else {
      NoTickKinds(s, op, k, kind);
    }
  }

  lemma HistoryGrows(s: Service, op: Op)
    requires Allows(s, op)
    ensures History(Do(s, op)) == History(s) + Emitted(s, op)
  {
    StepEmits(s, op);
  }

  lemma NoTickKinds(s: Service, op: Op, k: string, kind: Kind)
    requires OfTick(kind) && !op.DoTick?
    ensures kind !in Kinds(Emitted(s, op), k)
  {
    if Emitted(s, op) != [] {
      assert Emitted(s, op) == [Emitted(s, op)[0]];
      KindsOfOne(Emitted(s, op)[0], k);
    }
  }

  lemma {:induction false} TickKindHistory(states: seq<Service>, ops: seq<Op>, i: nat, k: string, kind: Kind) returns (h: nat)
    requires IsRun(states, ops) && states[0] == EMPTY && i < |states| && OfTick(kind)
    requires kind in Kinds(History(states[i]), k)
    ensures h < i && ops[h].DoTick? && k in states[h].steps
    ensures exists e :: e in TickEvents(states[h].steps[k], ops[h].now) && e.kind == kind
  {
    if i == 0 {
      assert false;
    } else if kind in Kinds(History(states[i - 1]), k) {
      h := TickKindHistory(states, ops, i - 1, k, kind);
    } else {
      InvAlways(states, ops, i - 1);
      assert states[i] == Do(states[i - 1], ops[i - 1]);
      OpKinds(states[i - 1], ops[i - 1], k, kind);
      h := i - 1;
    }
  }

  /** In every run, a step has its escalation event only if some tick found it waiting, not escalated, and in the
      window; and its expiry event only if some tick found it waiting at or past its deadline. */
  lemma EscalatedByTick(states: seq<Service>, ops: seq<Op>, i: nat, k: string) returns (h: nat)
    requires IsRun(states, ops) && states[0] == EMPTY && i < |states| && Escalated in Kinds(History(states[i]), k)
    ensures h < i && ops[h].DoTick? && k in states[h].steps && states[h].steps[k].status == WaitingApproval
    ensures !states[h].steps[k].escalated && InWindow(states[h].steps[k], ops[h].now)
  {
    h := TickKindHistory(states, ops, i, k, Escalated);
    TickEffect(states[h].steps[k], ops[h].now);
  }

  lemma ExpiredByTick(states: seq<Service>, ops: seq<Op>, i: nat, k: string) returns (h: nat)
    requires IsRun(states, ops) && states[0] == EMPTY && i < |states| && Expired in Kinds(History(states[i]), k)
    ensures h < i && ops[h].DoTick? && k in states[h].steps && states[h].steps[k].status == WaitingApproval
    ensures Deadline(states[h].steps[k], ops[h].now) <= ops[h].now
  {
    h := TickKindHistory(states, ops, i, k, Expired);
    TickEffect(states[h].steps[k], ops[h].now);
  }
}
