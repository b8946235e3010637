/** Approval gates of running jobs, on the database: parking, the decisions a waiting runner may
    receive, and the two ways a decision can fail to reach it. */
module ApprovalParking {
  import opened Intake
  import opened JobTable
  import opened JobProtocol
  import opened ProtocolInvariants
  import opened Scenarios
  import ApprovalPolicy

  // ---------------------------------------------------------------------------------------
  // Parking
  // ---------------------------------------------------------------------------------------

  lemma {:induction false} GrantSparesParked(b: Board, grants: seq<Grant>, j: JobId)
    requires GrantsOk(b, grants) && j in b.jobs && forall g :: g in grants ==> g.job != j
    ensures j in GrantAll(b, grants).jobs && GrantAll(b, grants).jobs[j] == b.jobs[j]
    decreases |grants|
  {
    if grants != [] {
      assert grants[0] in grants;
      assert forall g :: g in grants[1..] ==> g in grants;
      GrantSparesParked(GrantOne(b, grants[0]), grants[1..], j);
    }
  }

  lemma StepSparesParked(s: System, a: Action, j: JobId)
    requires Enabled(s, a) && j in s.board.jobs && Parked(s.approvals, j)
    ensures j in BoardAfter(s, a).jobs
    ensures BoardAfter(s, a).jobs[j].runId == s.board.jobs[j].runId
    ensures BoardAfter(s, a).jobs[j].attempt == s.board.jobs[j].attempt
  {
    match a
    case Claim(grants) => GrantSparesParked(s.board, grants, j);
    case _ =>
  }

  /** While a step of a job waits for approval, nothing changes the job's run id or attempt: no
      scheduler can take it from its runner, lease or no lease. */
  lemma {:induction false} ParkedJobIsNotReclaimed(states: seq<System>, acts: seq<Action>, i: nat, k: nat, j: JobId)
    requires Steps(states, acts) && i <= k < |states| && j in states[i].board.jobs
    requires forall m :: i <= m < k ==> Parked(states[m].approvals, j)
    ensures j in states[k].board.jobs
    ensures states[k].board.jobs[j].runId == states[i].board.jobs[j].runId
    ensures states[k].board.jobs[j].attempt == states[i].board.jobs[j].attempt
    decreases k
  {
    if i < k {
      ParkedJobIsNotReclaimed(states, acts, i, k - 1, j);
      assert Next(states[k - 1], acts[k - 1], states[k]);
      StepSparesParked(states[k - 1], acts[k - 1], j);
    }
  }

  // ---------------------------------------------------------------------------------------
  // Decisions
  // ---------------------------------------------------------------------------------------

  /** Everything about a decision except the job column. */
  predicate SameDecision(x: DecisionRow, y: DecisionRow)
  {
    x == y.(job := x.job)
  }

  /** A recorded decision keeps its verdict, approver, step and run for ever; replaying its key
      leaves it alone, except that the job column takes the job of the replaying call. */
  lemma StepKeepsDecision(s: System, a: Action, q: string)
    requires Enabled(s, a) && q in s.approvals.decisions
    ensures q in ApprovalsAfter(s, a).decisions
    ensures SameDecision(s.approvals.decisions[q], ApprovalsAfter(s, a).decisions[q])
    ensures ApprovalsAfter(s, a).decisions[q] == s.approvals.decisions[q]
            <==> !(a.StoreDecision? && s.approvals.deciders[a.d].key == q
                   && s.approvals.deciders[a.d].step.job != s.approvals.decisions[q].job)
  {
  }

  lemma {:induction false} DecisionForEver(states: seq<System>, acts: seq<Action>, i: nat, k: nat, q: string)
    requires Steps(states, acts) && i <= k < |states| && q in states[i].approvals.decisions
    ensures q in states[k].approvals.decisions
    ensures SameDecision(states[i].approvals.decisions[q], states[k].approvals.decisions[q])
    decreases k
  {
    if i < k {
      DecisionForEver(states, acts, i, k - 1, q);
      assert Next(states[k - 1], acts[k - 1], states[k]);
      StepKeepsDecision(states[k - 1], acts[k - 1], q);
    }
  }

  /** The call that put a decision row into the table. */
  ghost predicate RecordedBy(states: seq<System>, acts: seq<Action>, i: nat, q: string, row: DecisionRow)
    requires |states| == |acts| + 1
  {
    && i < |acts| && acts[i].StoreDecision? && acts[i].d in states[i].approvals.deciders
    && q !in states[i].approvals.decisions
    && var c := states[i].approvals.deciders[acts[i].d];
       && c.key == q && c.step == row.step && c.run == row.run && c.verdict == row.verdict
       && c.approver == row.approver && c.justification == row.justification
  }

  lemma {:induction false} DecisionWasRecorded(states: seq<System>, acts: seq<Action>, k: nat, q: string) returns (i: nat)
    requires IsRun(states, acts) && k < |states| && q in states[k].approvals.decisions
    ensures i < k && RecordedBy(states, acts, i, q, states[k].approvals.decisions[q])
    decreases k
  {
    if k == 0 {
      assert false;
    } else {
      assert Next(states[k - 1], acts[k - 1], states[k]);
      if q in states[k - 1].approvals.decisions {
        StepKeepsDecision(states[k - 1], acts[k - 1], q);
        i := DecisionWasRecorded(states, acts, k - 1, q);
      } else {
        i := k - 1;
      }
    }
  }

  lemma StepKeepsDecider(s: System, a: Action, d: nat)
    requires Enabled(s, a) && d in ApprovalsAfter(s, a).deciders
    ensures if d in s.approvals.deciders then ApprovalsAfter(s, a).deciders[d] == s.approvals.deciders[d]
            else a.Consult? && a.d == d && ApprovalsAfter(s, a).deciders[d] == a.decider
                 && Consultable(s, a.decider, a.role, a.tenant)
  {
  }

  /** Every decision call that is about to store its decision has, earlier in the run, found the step
      waiting and been let through by the policy. */
  lemma {:induction false} DeciderWasAuthorised(states: seq<System>, acts: seq<Action>, k: nat, d: nat) returns (h: nat)
    requires IsRun(states, acts) && k < |states| && d in states[k].approvals.deciders
    ensures h < k && acts[h].Consult? && acts[h].d == d && acts[h].decider == states[k].approvals.deciders[d]
    ensures Consultable(states[h], acts[h].decider, acts[h].role, acts[h].tenant)
    decreases k
  {
    if k == 0 {
      assert false;
    } else {
      assert Next(states[k - 1], acts[k - 1], states[k]);
      StepKeepsDecider(states[k - 1], acts[k - 1], d);
      if d in states[k - 1].approvals.deciders {
        h := DeciderWasAuthorised(states, acts, k - 1, d);
      } else {
        h := k - 1;
      }
    }
  }

  /** Every decision in the table was stored by a call that had found its step waiting and whose approver
      the policy lets through: of the job's tenant and in an approving role. */
  lemma DecisionWasAuthorised(states: seq<System>, acts: seq<Action>, k: nat, q: string) returns (h: nat, i: nat)
    requires IsRun(states, acts) && k < |states| && q in states[k].approvals.decisions
    ensures h < i < k && RecordedBy(states, acts, i, q, states[k].approvals.decisions[q])
    ensures acts[h].Consult? && acts[h].decider == states[i].approvals.deciders[acts[i].d]
    ensures Consultable(states[h], acts[h].decider, acts[h].role, acts[h].tenant)
  {
    i := DecisionWasRecorded(states, acts, k, q);
    h := DeciderWasAuthorised(states, acts, i, acts[i].d);
  }

  /** A decision `WaitForApproval` returns was recorded for the very job, run and step row the
      runner is waiting on, with the verdict it returns. */
  lemma ReturnedDecisionIsOurs(states: seq<System>, acts: seq<Action>, k: nat, r: RunId, q: string) returns (i: nat)
    requires IsRun(states, acts) && k < |acts| && acts[k] == Run(r, Poll(q))
    ensures r in states[k].board.runners && states[k].board.runners[r].at.Awaiting?
    ensures q in states[k].approvals.decisions
    ensures i < k && RecordedBy(states, acts, i, q, states[k].approvals.decisions[q])
    ensures var c, runner := states[i].approvals.deciders[acts[i].d], states[k].board.runners[r];
            && c.run == r && c.step == StepKey(runner.job, runner.at.attempt, runner.at.step)
            && c.verdict == states[k].approvals.decisions[q].verdict
    ensures var runner, decisions := states[k].board.runners[r], states[k].approvals.decisions;
            var k' := StepKey(runner.job, runner.at.attempt, runner.at.step);
            forall o :: o in decisions && decisions[o].job == runner.job && decisions[o].run == r && decisions[o].step == k' ==>
              decisions[o].createdAt <= decisions[q].createdAt
  {
    assert Next(states[k], acts[k], states[k + 1]);
    i := DecisionWasRecorded(states, acts, k, q);
  }

  /** A decision whose job column no longer names the job of its step is returned to nobody. */
  lemma MisfiledDecisionIsUnreadable(s: System, r: RunId, q: string)
    requires r in s.board.runners && s.board.runners[r].at.Awaiting?
    requires q in s.approvals.decisions && s.approvals.decisions[q].job != s.approvals.decisions[q].step.job
    ensures !Matches(s, r, q)
  {
  }

  /** The call is about to store a decision under this key for a step of another job. */
  predicate Misfiles(s: System, a: Action, r: RunId, q: string)
    requires Enabled(s, a) && r in s.board.runners
  {
    a.StoreDecision? && s.approvals.deciders[a.d].key == q && s.approvals.deciders[a.d].step.job != s.board.runners[r].job
  }

  /** A decision a waiting runner can read stays readable to it through every step of anybody else, except
      exactly one kind: a decision call of another job that uses the same key. */
  lemma ReadableUnlessMisfiled(s: System, a: Action, r: RunId, q: string)
    requires Enabled(s, a) && !(a.Run? && a.r == r)
    requires r in s.board.runners && r in s.board.issued && s.board.runners[r].at.Awaiting? && Matches(s, r, q)
    ensures r in BoardAfter(s, a).runners && BoardAfter(s, a).runners[r] == s.board.runners[r]
    ensures Matches(Apply(s, a), r, q) <==> !Misfiles(s, a, r, q)
  {
    StepKeepsRunner(s, a, r);
    StepKeepsDecision(s, a, q);
    match a
    case Run(o, act) => StepKeepsRun(s, a, StepKey(s.board.runners[r].job, s.board.runners[r].at.attempt, s.board.runners[r].at.step));
    case _ =>
  }

  /** Nobody moves another's runner. */
  lemma StepKeepsRunner(s: System, a: Action, r: RunId)
    requires Enabled(s, a) && r in s.board.runners && r in s.board.issued && !(a.Run? && a.r == r)
    ensures r in BoardAfter(s, a).runners && BoardAfter(s, a).runners[r] == s.board.runners[r]
  {
    match a
    case Claim(grants) => GrantSparesRunner(s.board, grants, r);
    case _ =>
  }

  // ---------------------------------------------------------------------------------------
  // The run recorded on a step row
  // ---------------------------------------------------------------------------------------

  lemma StepKeepsRun(s: System, a: Action, k: StepKey)
    requires Enabled(s, a) && k in s.approvals.steps
    ensures k in ApprovalsAfter(s, a).steps && ApprovalsAfter(s, a).steps[k].run == s.approvals.steps[k].run
  {
  }

  /** A step row names, for ever, the run that first wrote it. */
  lemma {:induction false} StepRunForEver(states: seq<System>, acts: seq<Action>, i: nat, m: nat, k: StepKey)
    requires Steps(states, acts) && i <= m < |states| && k in states[i].approvals.steps
    ensures k in states[m].approvals.steps && states[m].approvals.steps[k].run == states[i].approvals.steps[k].run
    decreases m
  {
    if i < m {
      StepRunForEver(states, acts, i, m - 1, k);
      assert Next(states[m - 1], acts[m - 1], states[m]);
      StepKeepsRun(states[m - 1], acts[m - 1], k);
    }
  }

  /** Awaiting this very step row. */
  predicate AwaitsStep(s: System, r: RunId, k: StepKey)
  {
    && r in s.board.runners && s.board.runners[r].at.Awaiting?
    && k == StepKey(s.board.runners[r].job, s.board.runners[r].at.attempt, s.board.runners[r].at.step)
  }

  // ---------------------------------------------------------------------------------------
  // Which waiting runs can be answered
  // ---------------------------------------------------------------------------------------

  ghost predicate AnsweredBy(s: System, r: RunId, states: seq<System>, acts: seq<Action>, q: string)
  {
    Steps(states, acts) && states[0] == s && acts != [] && acts[|acts| - 1] == Run(r, Poll(q))
  }

  /** In some continuation the run's wait for approval returns a decision. */
  ghost predicate CanBeAnswered(s: System, r: RunId)
  {
    exists states, acts, q :: AnsweredBy(s, r, states, acts, q)
  }

  /** The run waits, or has stopped waiting for good, on a row that names another run. */
  predicate WaitsInVain(s: System, r: RunId, k: StepKey)
  {
    && r in s.board.runners && k.job == s.board.runners[r].job && (AwaitsStep(s, r, k) || s.board.runners[r].at.Stopped?)
    && k in s.approvals.steps && s.approvals.steps[k].run != r
  }

  lemma StepKeepsVain(s: System, a: Action, r: RunId, k: StepKey)
    requires Core(s.board) && Enabled(s, a) && WaitsInVain(s, r, k)
    ensures WaitsInVain(Apply(s, a), r, k) && !(a.Run? && a.r == r && a.act.Poll?)
  {
    StepKeepsRun(s, a, k);
    if !(a.Run? && a.r == r) {
      StepKeepsRunner(s, a, r);
    }
  }

  lemma VainNext(s: System, a: Action, t: System, r: RunId, k: StepKey)
    requires Next(s, a, t) && Reachable(s) && WaitsInVain(s, r, k)
    ensures WaitsInVain(t, r, k) && forall q :: a != Run(r, Poll(q))
  {
    ReachableInv(s);
    StepKeepsVain(s, a, r, k);
  }

  lemma {:induction false} VainForEver(states: seq<System>, acts: seq<Action>, i: nat, m: nat, r: RunId, k: StepKey)
    requires Steps(states, acts) && i <= m < |states| && Reachable(states[i]) && WaitsInVain(states[i], r, k)
    ensures WaitsInVain(states[m], r, k)
    decreases m
  {
    if i < m {
      VainForEver(states, acts, i, m - 1, r, k);
      LaterReachable(states, acts, i, m - 1);
      VainNext(states[m - 1], acts[m - 1], states[m], r, k);
    }
  }

  /** A reclaim does not raise `attempt`, so a later run may wait on a step row an earlier run
      wrote. No decision ever reaches it, whatever anyone decides. */
  lemma SecondRunIsNeverAnswered(s: System, r: RunId, k: StepKey)
    requires Reachable(s) && WaitsInVain(s, r, k)
    ensures !CanBeAnswered(s, r)
  {
    forall states, acts, q ensures !AnsweredBy(s, r, states, acts, q) {
      if AnsweredBy(s, r, states, acts, q) {
        var n := |acts| - 1;
        VainForEver(states, acts, 0, n, r, k);
        LaterReachable(states, acts, 0, n);
        VainNext(states[n], acts[n], states[n + 1], r, k);
      }
    }
  }

  /** No decision is dated later than now. */
  ghost predicate DecisionsPast(s: System)
  {
    forall q :: q in s.approvals.decisions ==> s.approvals.decisions[q].createdAt <= s.board.now
  }

  lemma StepKeepsPast(s: System, a: Action)
    requires Enabled(s, a) && DecisionsPast(s)
    ensures DecisionsPast(Apply(s, a))
  {
    StepKeepsClock(s, a);
    forall q | q in ApprovalsAfter(s, a).decisions
      ensures ApprovalsAfter(s, a).decisions[q].createdAt <= BoardAfter(s, a).now
    {
      if q in s.approvals.decisions {
        StepKeepsDecision(s, a, q);
      }
    }
  }

  lemma {:induction false} DecisionsPastAlways(states: seq<System>, acts: seq<Action>, i: nat)
    requires IsRun(states, acts) && i < |states|
    ensures DecisionsPast(states[i])
  {
    if i > 0 {
      DecisionsPastAlways(states, acts, i - 1);
      assert Next(states[i - 1], acts[i - 1], states[i]);
      StepKeepsPast(states[i - 1], acts[i - 1]);
    }
  }

  /** A text that is not among given ones, and not empty. */
  lemma {:induction false} FreshText(xs: set<string>) returns (t: string)
    ensures t != "" && forall x :: x in xs ==> |x| < |t|
    decreases |xs|
  {
    t := "a";
    if xs != {} {
      var x :| x in xs;
      var u := FreshText(xs - {x});
      t := u + x;
      assert forall y :: y in xs ==> y == x || y in xs - {x};
    }
  }

  lemma TenantMayDecide(spec: JobSpec, approver: string)
    requires approver != ""
    ensures MayDecide(spec, approver, "team-lead", spec.tenant)
  {
    var roles := PolicyInfo(spec).policy.allowedRoles;
    assert roles[1] == "team-lead";
    assert ApprovalPolicy.EqualFold(roles[1], "team-lead");
  }

  /** A decision call by a team lead of the job's own tenant gets past the policy. */
  lemma ConsultStep(s: System, d: nat, c: Decider) returns (x: System)
    requires c.step in s.approvals.steps && s.approvals.steps[c.step] == StepRow(c.run, WaitingApproval)
    requires c.step.job in s.board.jobs && c.approver != "" && d !in s.approvals.deciders
    ensures Next(s, Consult(d, c, "team-lead", s.board.jobs[c.step.job].spec.tenant), x)
    ensures x == s.(approvals := s.approvals.(deciders := s.approvals.deciders[d := c]))
  {
    TenantMayDecide(s.board.jobs[c.step.job].spec, c.approver);
    x := Apply(s, Consult(d, c, "team-lead", s.board.jobs[c.step.job].spec.tenant));
  }

  function DecisionOf(c: Decider, now: Time): DecisionRow
  {
    DecisionRow(c.step.job, c.step, c.run, c.verdict, c.approver, c.justification, now)
  }

  lemma StoreStep(s: System, d: nat) returns (y: System)
    requires d in s.approvals.deciders
    requires var c := s.approvals.deciders[d];
             c.key !in s.approvals.decisions && !AlreadyDecided(s.approvals, c.step, c.approver)
    ensures Next(s, StoreDecision(d), y)
    ensures var c := s.approvals.deciders[d];
            y == s.(approvals := s.approvals.(decisions := s.approvals.decisions[c.key := DecisionOf(c, s.board.now)]))
  {
    y := Apply(s, StoreDecision(d));
  }

  /** A decision just stored for the row a run waits on is the one its next poll returns. */
  lemma PollStep(s: System, y: System, r: RunId, k: StepKey, q: string, row: DecisionRow)
    requires DecisionsPast(s) && AwaitsStep(s, r, k)
    requires k in s.approvals.steps && s.approvals.steps[k].run == r
    requires row.job == k.job && row.step == k && row.run == r && row.createdAt == s.board.now
    requires y.board == s.board && y.approvals.steps == s.approvals.steps
    requires y.approvals.decisions == s.approvals.decisions[q := row]
    ensures Answers(y, r, q) && Enabled(y, Run(r, Poll(q)))
  {
  }

  /** An approver who has not decided on the step, with a key nobody used, lets a waiting runner go on: the call
      consults the step, stores its decision, and the next poll returns it. */
  lemma DecideAndPoll(s: System, r: RunId, k: StepKey, verdict: Verdict, approver: string, q: string)
    requires k.job in s.board.jobs && DecisionsPast(s) && AwaitsStep(s, r, k)
    requires k in s.approvals.steps && s.approvals.steps[k] == StepRow(r, WaitingApproval)
    requires approver != "" && !AlreadyDecided(s.approvals, k, approver) && q !in s.approvals.decisions
    ensures CanBeAnswered(s, r)
  {
    var d := AboveAll(s.approvals.deciders.Keys);
    var c := Decider(k, r, verdict, approver, "", q);
    var x := ConsultStep(s, d, c);
    var y := StoreStep(x, d);
    PollStep(s, y, r, k, q, DecisionOf(c, s.board.now));
    var poll := Run(r, Poll(q));
    assert Next(y, poll, Apply(y, poll));
    assert AnsweredBy(s, r, [s, x, y, Apply(y, poll)],
                      [Consult(d, c, "team-lead", s.board.jobs[k.job].spec.tenant), StoreDecision(d), poll], q);
  }

  /** In every reachable state, a run that waits on a waiting row can still be answered if and only if the row
      names that run. */
  lemma AnswerableIff(s: System, r: RunId, k: StepKey)
    requires Reachable(s) && AwaitsStep(s, r, k)
    requires k in s.approvals.steps && s.approvals.steps[k].status.WaitingApproval?
    ensures CanBeAnswered(s, r) <==> s.approvals.steps[k].run == r
  {
    if s.approvals.steps[k].run == r {
      ReachableInv(s);
      var states, acts := RunTo(s);
      DecisionsPastAlways(states, acts, |acts|);
      var q := FreshText(s.approvals.decisions.Keys);
      var approver := FreshText(set x | x in s.approvals.decisions :: s.approvals.decisions[x].approver);
      DecideAndPoll(s, r, k, Approved, approver, q);
    } else {
      SecondRunIsNeverAnswered(s, r, k);
    }
  }

  // ---------------------------------------------------------------------------------------
  // A job that waits for ever
  // ---------------------------------------------------------------------------------------

  /** The run that holds the job waits in vain on a waiting row. */
  predicate Stuck(s: System, r: RunId, k: StepKey)
  {
    && WaitsInVain(s, r, k) && s.approvals.steps[k].status.WaitingApproval?
    && k.job in s.board.jobs && s.board.jobs[k.job].state.Running? && s.board.jobs[k.job].runId == r
  }

  /** A runner writes this step row. */
  predicate Writes(s: System, a: Action, k: StepKey)
    requires Enabled(s, a)
  {
    && a.Run? && (a.act.EndStep? || a.act.Park?)
    && k == StepKey(s.board.runners[a.r].job, s.board.runners[a.r].at.attempt, a.act.name)
  }

  /** A statement that rewrites a job row is made by the run the row names, past its waiting. */
  lemma OthersKeepRow(b: Board, o: RunId, act: RunnerAct, j: JobId)
    requires o in b.runners && RunnerReady(b.runners[o].at, act) && j in b.jobs
    requires b.jobs[j].runId == o ==> !act.Finalises()
    ensures RunBoard(b, o, act).jobs.Keys == b.jobs.Keys && RunBoard(b, o, act).jobs[j] == b.jobs[j]
  {
  }

  lemma StepKeepsStuckRow(s: System, a: Action, r: RunId, k: StepKey)
    requires Enabled(s, a) && Stuck(s, r, k)
    ensures k.job in BoardAfter(s, a).jobs && BoardAfter(s, a).jobs[k.job] == s.board.jobs[k.job]
  {
    assert Parked(s.approvals, k.job);
    match a
    case Claim(grants) => GrantSparesParked(s.board, grants, k.job);
    case Run(o, act) => OthersKeepRow(s.board, o, act, k.job);
    case _ =>
  }

  lemma StepKeepsWaiting(s: System, a: Action, k: StepKey)
    requires Enabled(s, a) && k in s.approvals.steps && !Writes(s, a, k)
    ensures k in ApprovalsAfter(s, a).steps && ApprovalsAfter(s, a).steps[k] == s.approvals.steps[k]
  {
  }

  lemma StuckNext(s: System, a: Action, t: System, r: RunId, k: StepKey)
    requires Next(s, a, t) && Reachable(s) && Stuck(s, r, k) && !Writes(s, a, k)
    ensures Stuck(t, r, k) && t.board.jobs[k.job] == s.board.jobs[k.job]
  {
    VainNext(s, a, t, r, k);
    StepKeepsStuckRow(s, a, r, k);
    StepKeepsWaiting(s, a, k);
  }

  /** Unless some runner writes the step row again, such a job is stuck for ever: its row stays as it is, running
      under an owner that never ends it, no scheduler may claim it and no decision reaches it. */
  lemma {:induction false} StuckForEver(states: seq<System>, acts: seq<Action>, i: nat, m: nat, r: RunId, k: StepKey)
    requires Steps(states, acts) && i <= m < |states| && Reachable(states[i]) && Stuck(states[i], r, k)
    requires forall n :: i <= n < m ==> Enabled(states[n], acts[n]) && !Writes(states[n], acts[n], k)
    ensures Stuck(states[m], r, k) && states[m].board.jobs[k.job] == states[i].board.jobs[k.job]
    ensures Parked(states[m].approvals, k.job) && !CanBeAnswered(states[m], r)
    decreases m
  {
    LaterReachable(states, acts, i, m);
    if i < m {
      StuckForEver(states, acts, i, m - 1, r, k);
      LaterReachable(states, acts, i, m - 1);
      StuckNext(states[m - 1], acts[m - 1], states[m], r, k);
    }
    SecondRunIsNeverAnswered(states[m], r, k);
  }

  /** Any job can get there, from an empty database: the first run finishes the step and falls silent, its lease
      runs out, and the second run waits for approval of the same step. */
  lemma StuckIsReachable(cron: CronTable, request: Request, name: string) returns (s: System)
    requires Admissible(request)
    ensures Reachable(s) && s.board.cron == cron && Stuck(s, 2, StepKey(0, 1, name))
  {
    var y := FirstRunEndsStep(cron, request, name);
    var lease := y.board.jobs[0].lease.value;
    var w := Later(y, lease);
    WaitUntil(y, lease);
    ReachableOn(y, w);
    NotParked(w.approvals, 0, StepKey(0, 1, name));
    var v := TakeJob(w, 0, 2);
    ReachableOn(w, v);
    s := Apply(v, Run(2, Park(name)));
    ReachStep(v, Run(2, Park(name)));
    ReachableOn(v, s);
  }

  lemma NotParked(ap: Approvals, j: JobId, k: StepKey)
    requires ap.steps.Keys == {k} && !ap.steps[k].status.WaitingApproval?
    ensures !Parked(ap, j)
  {
  }

  lemma FirstRunEndsStep(cron: CronTable, request: Request, name: string) returns (z: System)
    requires Admissible(request)
    ensures Reachable(z) && z.board.cron == cron && z.board.jobs.Keys == {0} && z.board.issued.Keys == {0, 1}
    ensures z.board.jobs[0].state.Running? && z.board.jobs[0].lease.Some? && z.board.jobs[0].attempt == 1
    ensures z.approvals.steps == map[StepKey(0, 1, name) := StepRow(1, StepOk)]
  {
    var s := Start(0, cron);
    StartReachable(0, cron);
    var x := NewJob(s, 0, request, 0, 0);
    ReachableOn(s, x);
    var y := StartJob(x, 0, 1);
    ReachableOn(x, y);
    z := Apply(y, Run(1, EndStep(name, true)));
    ReachStep(y, Run(1, EndStep(name, true)));
    ReachableOn(y, z);
  }

  // ---------------------------------------------------------------------------------------
  // A job nobody waits for any more
  // ---------------------------------------------------------------------------------------

  predicate AllStopped(b: Board, j: JobId)
  {
    forall r :: r in b.runners && b.runners[r].job == j ==> b.runners[r].at.Stopped?
  }

  /** A step of the job waits for approval and every runner of the job has stopped. */
  predicate Deserted(s: System, j: JobId)
  {
    j in s.board.jobs && s.board.jobs[j].state.Running? && Parked(s.approvals, j) && AllStopped(s.board, j)
  }

  lemma {:induction false} GrantsToOthers(b: Board, grants: seq<Grant>, j: JobId)
    requires GrantsOk(b, grants) && AllStopped(b, j) && forall g :: g in grants ==> g.job != j
    ensures AllStopped(GrantAll(b, grants), j)
    decreases |grants|
  {
    if grants != [] {
      assert grants[0] in grants;
      assert forall g :: g in grants[1..] ==> g in grants;
      GrantsToOthers(GrantOne(b, grants[0]), grants[1..], j);
    }
  }

  /** Only a runner of the job writes its steps, and none of them does anything any more. */
  lemma DesertedStaysParked(s: System, a: Action, j: JobId)
    requires Enabled(s, a) && Parked(s.approvals, j) && AllStopped(s.board, j)
    ensures Parked(ApprovalsAfter(s, a), j)
  {
    var k :| k in s.approvals.steps && k.job == j && s.approvals.steps[k].status.WaitingApproval?;
    StepKeepsWaiting(s, a, k);
  }

  lemma DesertedStaysStopped(s: System, a: Action, j: JobId)
    requires Enabled(s, a) && Parked(s.approvals, j) && AllStopped(s.board, j)
    ensures AllStopped(BoardAfter(s, a), j)
  {
    match a
    case Claim(grants) => GrantsToOthers(s.board, grants, j);
    case _ =>
  }

  lemma DesertedKeepsRow(s: System, a: Action, j: JobId)
    requires Core(s.board) && Enabled(s, a) && Deserted(s, j)
    ensures j in BoardAfter(s, a).jobs && BoardAfter(s, a).jobs[j] == s.board.jobs[j]
  {
    match a
    case Claim(grants) => GrantSparesParked(s.board, grants, j);
    case Run(o, act) =>
      assert o == s.board.jobs[j].runId ==> Stamped(s.board, o, j) && Stamped(s.board, o, s.board.runners[o].job);
      OthersKeepRow(s.board, o, act, j);
    case _ =>
  }

  lemma DesertedNext(s: System, a: Action, t: System, j: JobId)
    requires Next(s, a, t) && Reachable(s) && Deserted(s, j)
    ensures Deserted(t, j) && t.board.jobs[j] == s.board.jobs[j]
  {
    ReachableInv(s);
    DesertedKeepsRow(s, a, j);
    DesertedStaysParked(s, a, j);
    DesertedStaysStopped(s, a, j);
  }

  /** A job whose runners have all stopped while a step of it waits for approval is lost: it stays running for ever,
      in every continuation, whatever is decided. No lease expiry brings it back. */
  lemma {:induction false} DesertedForEver(states: seq<System>, acts: seq<Action>, i: nat, m: nat, j: JobId)
    requires Steps(states, acts) && i <= m < |states| && Reachable(states[i]) && Deserted(states[i], j)
    ensures Deserted(states[m], j) && states[m].board.jobs[j] == states[i].board.jobs[j]
    decreases m
  {
    if i < m {
      DesertedForEver(states, acts, i, m - 1, j);
      LaterReachable(states, acts, i, m - 1);
      DesertedNext(states[m - 1], acts[m - 1], states[m], j);
    }
  }

  /** Any job can get there: its runner stops, by a crash say, while it waits for approval. */
  lemma DesertedIsReachable(cron: CronTable, request: Request, name: string) returns (z: System)
    requires Admissible(request)
    ensures Reachable(z) && z.board.cron == cron && Deserted(z, 0)
  {
    var s := Start(0, cron);
    StartReachable(0, cron);
    var x := NewJob(s, 0, request, 0, 0);
    ReachableOn(s, x);
    var y := StartJob(x, 0, 1);
    ReachableOn(x, y);
    z := ParkAndStop(y, name);
  }

  lemma ParkAndStop(s: System, name: string) returns (z: System)
    requires Reachable(s) && 0 in s.board.jobs && s.board.jobs[0].state.Running?
    requires s.board.runners.Keys == {1} && s.board.runners[1].job == 0 && s.board.runners[1].at.Executing?
    ensures Reachable(z) && z.board.cron == s.board.cron && Deserted(z, 0)
  {
    var y := Apply(s, Run(1, Park(name)));
    z := Apply(y, Run(1, Abandon));
    ReachStep(s, Run(1, Park(name)));
    ReachMore(s, y, Run(1, Abandon));
    ReachableOn(s, z);
    assert StepKey(0, s.board.runners[1].at.attempt, name) in z.approvals.steps;
  }

  // ---------------------------------------------------------------------------------------
  // A decision hidden by another job's
  // ---------------------------------------------------------------------------------------

  lemma TwoQueued(cron: CronTable, a: Request, b: Request) returns (s: System)
    requires Admissible(a) && Admissible(b) && ScopeOf(TripleOf(a)) != ScopeOf(TripleOf(b))
    ensures Reachable(s) && s.board.cron == cron && s.board.jobs.Keys == {0, 1} && s.approvals == Approvals(map[], map[], map[])
    ensures s.board.runners == map[] && s.board.issued.Keys == {0, 1}
    ensures forall j :: j in s.board.jobs ==>
              s.board.jobs[j].state.Queued? && s.board.jobs[j].nextRunAt.Some? && s.board.jobs[j].attempt == 0
  {
    var start := Start(0, cron);
    StartReachable(0, cron);
    var x := NewJob(start, 0, a, 0, 0);
    ReachableOn(start, x);
    s := NewJob(x, 1, b, 1, 1);
    ReachableOn(x, s);
  }

  lemma OneStarted(cron: CronTable, a: Request, b: Request) returns (s: System)
    requires Admissible(a) && Admissible(b) && ScopeOf(TripleOf(a)) != ScopeOf(TripleOf(b))
    ensures Reachable(s) && s.board.cron == cron && s.board.jobs.Keys == {0, 1} && s.approvals == Approvals(map[], map[], map[])
    ensures s.board.runners == map[2 := Runner(0, Executing(1))] && s.board.issued.Keys == {0, 1, 2}
    ensures s.board.jobs[1].state.Queued? && s.board.jobs[1].nextRunAt.Some? && s.board.jobs[1].attempt == 0
  {
    var y := TwoQueued(cron, a, b);
    s := StartJob(y, 0, 2);
    ReachableOn(y, s);
  }

  /** Two jobs, started by runs 2 and 3. */
  lemma TwoStarted(cron: CronTable, a: Request, b: Request) returns (s: System)
    requires Admissible(a) && Admissible(b) && ScopeOf(TripleOf(a)) != ScopeOf(TripleOf(b))
    ensures Reachable(s) && s.board.cron == cron && s.board.jobs.Keys == {0, 1} && s.approvals == Approvals(map[], map[], map[])
    ensures s.board.runners == map[2 := Runner(0, Executing(1)), 3 := Runner(1, Executing(1))] && 2 in s.board.issued
  {
    var z := OneStarted(cron, a, b);
    s := StartJob(z, 1, 3);
    ReachableOn(z, s);
  }

  lemma TwoParked(cron: CronTable, a: Request, b: Request, name: string) returns (s: System)
    requires Admissible(a) && Admissible(b) && ScopeOf(TripleOf(a)) != ScopeOf(TripleOf(b))
    ensures Reachable(s) && s.board.cron == cron && s.board.jobs.Keys == {0, 1} && 2 in s.board.issued
    ensures AwaitsStep(s, 2, StepKey(0, 1, name)) && AwaitsStep(s, 3, StepKey(1, 1, name))
    ensures s.approvals.steps
         == map[StepKey(0, 1, name) := StepRow(2, WaitingApproval), StepKey(1, 1, name) := StepRow(3, WaitingApproval)]
    ensures s.approvals.decisions == map[] && s.approvals.deciders == map[]
  {
    var x := TwoStarted(cron, a, b);
    var y := Apply(x, Run(2, Park(name)));
    ReachStep(x, Run(2, Park(name)));
    ReachableOn(x, y);
    s := Apply(y, Run(3, Park(name)));
    ReachStep(y, Run(3, Park(name)));
    ReachableOn(y, s);
  }

  /** Any two jobs with different index keys can get there, from an empty database: a decision is recorded that the
      first job's runner would read at its next poll; a decision call for the second job under the same key
      overwrites the job column; the runner can no longer read the decision. */
  lemma CrossJobReplayHidesDecision(cron: CronTable, a: Request, b: Request, name: string, q: string, first: string,
                                    second: string)
    returns (s: System, z: System)
    requires Admissible(a) && Admissible(b) && ScopeOf(TripleOf(a)) != ScopeOf(TripleOf(b))
    requires first != "" && second != ""
    ensures Reachable(s) && s.board.cron == cron && AwaitsStep(s, 2, StepKey(0, 1, name)) && Enabled(s, Run(2, Poll(q)))
    ensures Next(s, StoreDecision(1), z) && Misfiles(s, StoreDecision(1), 2, q)
    ensures AwaitsStep(z, 2, StepKey(0, 1, name)) && !Matches(z, 2, q) && !Enabled(z, Run(2, Poll(q)))
  {
    var p := TwoParked(cron, a, b, name);
    var k, o := StepKey(0, 1, name), StepKey(1, 1, name);
    var c, e := Decider(k, 2, Approved, first, "", q), Decider(o, 3, Approved, second, "", q);
    var x := ConsultStep(p, 0, c);
    var y := StoreStep(x, 0);
    s := ConsultStep(y, 1, e);
    ThreeMore(p, Consult(0, c, "team-lead", p.board.jobs[0].spec.tenant), x, StoreDecision(0), y,
              Consult(1, e, "team-lead", y.board.jobs[1].spec.tenant), s);
    PollStep(p, s, 2, k, q, DecisionOf(c, p.board.now));
    z := Apply(s, StoreDecision(1));
    ReadableUnlessMisfiled(s, StoreDecision(1), 2, q);
  }

  lemma ThreeMore(s: System, a: Action, x: System, b: Action, y: System, c: Action, z: System)
    requires Reachable(s) && Next(s, a, x) && Next(x, b, y) && Next(y, c, z)
    ensures Reachable(z)
  {
    ReachStep(s, a);
    ReachMore(s, x, b);
    ReachMore(s, y, c);
    ReachableOn(s, z);
  }
}
