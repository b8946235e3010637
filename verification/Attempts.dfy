/** Attempt accounting, bounded completion, row shape and absorption: what the refinement and
    the invariants say about a job over a whole run. */
module Attempts {
  import opened Options
  import opened Intake
  import opened JobTable
  import opened JobProtocol
  import opened ProtocolInvariants
  import opened Fencing
  import Backoff

  /** In every run `attempt` is the number of claims taken from the queue. */
  lemma AttemptCountsTakes(states: seq<System>, acts: seq<Action>, j: JobId)
    requires IsRun(states, acts) && j in states[|acts|].board.jobs
    ensures states[|acts|].board.jobs[j].attempt == Takes(Log(states, acts, j))
  {
    RunsRefine(states, acts, j);
    AttemptOfRow(states[|acts|].board, j, Log(states, acts, j));
  }

  lemma AttemptOfRow(b: Board, j: JobId, log: seq<Event>)
    requires j in b.jobs && Replay(Absent, log) == Abs(b, j)
    ensures b.jobs[j].attempt == Takes(log)
  {
    AttemptsAreTakes(log);
  }

  /** An unscheduled job never exceeds its attempts and waits only while one is left. */
  lemma AttemptsBounded(states: seq<System>, acts: seq<Action>, i: nat, j: JobId)
    requires IsRun(states, acts) && i < |states| && j in states[i].board.jobs
    requires !Scheduled(states[i].board.jobs[j].spec)
    ensures var row := states[i].board.jobs[j];
            && row.attempt <= row.spec.maxAttempts
            && (row.state.Queued? ==> row.attempt < row.spec.maxAttempts)
  {
    InvAlways(states, acts, i);
    assert WithinBudget(states[i].board.jobs[j]);
  }

  /** In every reachable state every row has the shape of its state. */
  lemma RowsShaped(states: seq<System>, acts: seq<Action>, i: nat, j: JobId)
    requires IsRun(states, acts) && i < |states| && j in states[i].board.jobs
    ensures Shape(states[i].board.jobs[j])
  {
    InvAlways(states, acts, i);
  }

  // ---------------------------------------------------------------------------------------
  // Absorption
  // ---------------------------------------------------------------------------------------

  lemma {:induction false} GrantSparesTerminal(b: Board, grants: seq<Grant>, j: JobId)
    requires GrantsOk(b, grants) && j in b.jobs && b.jobs[j].state.Terminal()
    ensures j in GrantAll(b, grants).jobs && GrantAll(b, grants).jobs[j] == b.jobs[j]
    decreases |grants|
  {
    if grants != [] {
      GrantSparesTerminal(GrantOne(b, grants[0]), grants[1..], j);
    }
  }

  lemma StepSparesTerminal(s: System, a: Action, j: JobId)
    requires Enabled(s, a) && j in s.board.jobs && s.board.jobs[j].state.Terminal()
    ensures j in BoardAfter(s, a).jobs && BoardAfter(s, a).jobs[j] == s.board.jobs[j]
  {
    match a
    case Claim(grants) => GrantSparesTerminal(s.board, grants, j);
    case _ =>
  }

  /** A terminal row never changes again. */
  lemma {:induction false} TerminalForEver(states: seq<System>, acts: seq<Action>, i: nat, k: nat, j: JobId)
    requires Steps(states, acts) && i <= k < |states|
    requires j in states[i].board.jobs && states[i].board.jobs[j].state.Terminal()
    ensures j in states[k].board.jobs && states[k].board.jobs[j] == states[i].board.jobs[j]
    decreases k
  {
    if i < k {
      TerminalForEver(states, acts, i, k - 1, j);
      assert Next(states[k - 1], acts[k - 1], states[k]);
      StepSparesTerminal(states[k - 1], acts[k - 1], j);
    }
  }

  // ---------------------------------------------------------------------------------------
  // Bounded completion
  // ---------------------------------------------------------------------------------------

  /** Claims and finishes an unscheduled job still has before it. */
  function Measure(row: JobRow): int
  {
    2 * (row.spec.maxAttempts - row.attempt) + if row.state.Running? then 1 else 0
  }

  function Steals(log: seq<Event>): nat
  {
    if log == [] then 0 else Steals(log[..|log| - 1]) + if log[|log| - 1].Steal? then 1 else 0
  }

  function SpecMeasure(m: Spec, max: int): int
  {
    2 * (max - Fencing.Attempts(m)) + if m.Held? then 1 else 0
  }

  /** Along a legal log the measure falls by one at every claim from the queue and at every
      finish, and a reclaim leaves it alone. */
  lemma {:induction false} LogSpendsMeasure(log: seq<Event>, max: int)
    requires Replay(Absent, log) != Illegal && Replay(Absent, log) != Absent
    ensures |log| >= 1
    ensures SpecMeasure(Replay(Absent, log), max) + (|log| - 1 - Steals(log)) == 2 * max
    decreases |log|
  {
    var n := |log| - 1;
    if log != [] && Replay(Absent, log[..n]) != Absent {
      PrefixLegal(log, n);
      LogSpendsMeasure(log[..n], max);
    }
  }

  /** In every run an unscheduled job has spent, in claims from the queue and finishes, exactly
      what its measure has lost; so there are never more than two per allowed attempt. */
  lemma BoundedCompletion(states: seq<System>, acts: seq<Action>, j: JobId)
    requires IsRun(states, acts) && j in states[|acts|].board.jobs
    requires !Scheduled(states[|acts|].board.jobs[j].spec)
    ensures var row, log := states[|acts|].board.jobs[j], Log(states, acts, j);
            && |log| - 1 - Steals(log) == 2 * row.spec.maxAttempts - Measure(row)
            && 0 <= Measure(row)
            && |log| - 1 - Steals(log) <= 2 * row.spec.maxAttempts
  {
    RunsRefine(states, acts, j);
    AttemptsBounded(states, acts, |acts|, j);
    MeasureOfRow(states[|acts|].board, j, Log(states, acts, j));
  }

  lemma MeasureOfRow(b: Board, j: JobId, log: seq<Event>)
    requires j in b.jobs && Replay(Absent, log) == Abs(b, j)
    requires b.jobs[j].attempt <= b.jobs[j].spec.maxAttempts
    ensures var row := b.jobs[j];
            && |log| - 1 - Steals(log) == 2 * row.spec.maxAttempts - Measure(row)
            && 0 <= Measure(row)
            && |log| - 1 - Steals(log) <= 2 * row.spec.maxAttempts
  {
    LogSpendsMeasure(log, b.jobs[j].spec.maxAttempts);
  }

  // ---------------------------------------------------------------------------------------
  // Retry delay
  // ---------------------------------------------------------------------------------------

  lemma {:induction false} GrantEventless(b: Board, grants: seq<Grant>, j: JobId)
    requires GrantsOk(b, grants) && j in b.jobs
    ensures GrantEvents(b, grants, j) == [] ==> j in GrantAll(b, grants).jobs && GrantAll(b, grants).jobs[j] == b.jobs[j]
    ensures GrantEvents(b, grants, j) != [] ==> Due(b.jobs[j], b.now)
    decreases |grants|
  {
    if grants != [] && grants[0].job != j {
      GrantEventless(GrantOne(b, grants[0]), grants[1..], j);
    }
  }

  /** The log is complete: a row changes only in a step that adds to the job's log, and a step
      that takes a queued job finds it due. */
  lemma EventlessStepKeepsRow(s: System, a: Action, j: JobId)
    requires Enabled(s, a) && j in s.board.jobs
    ensures EventsOf(s, a, j) == [] ==> j in BoardAfter(s, a).jobs && BoardAfter(s, a).jobs[j] == s.board.jobs[j]
    ensures EventsOf(s, a, j) != [] && s.board.jobs[j].state.Queued? ==> Due(s.board.jobs[j], s.board.now)
  {
    match a
    case Claim(grants) => GrantEventless(s.board, grants, j);
    case _ =>
  }

  lemma {:induction false} QuietRow(states: seq<System>, acts: seq<Action>, i: nat, k: nat, j: JobId)
    requires Steps(states, acts) && i <= k < |states| && j in states[i].board.jobs
    requires forall m :: i <= m < k ==> Enabled(states[m], acts[m]) && EventsOf(states[m], acts[m], j) == []
    ensures j in states[k].board.jobs && states[k].board.jobs[j] == states[i].board.jobs[j]
    decreases k
  {
    if i < k {
      QuietRow(states, acts, i, k - 1, j);
      assert Next(states[k - 1], acts[k - 1], states[k]);
      EventlessStepKeepsRow(states[k - 1], acts[k - 1], j);
    }
  }

  /** After a retryable failure at attempt n nothing happens to the job before the failure time
      plus the capped exponential delay of attempt n. No statement sets a backoff policy, so
      the delay is that of the default one: 2 to the power n, but at most 300 seconds. */
  lemma RetryWaitsItsDelay(states: seq<System>, acts: seq<Action>, i: nat, k: nat, r: RunId, act: RunnerAct, j: JobId)
    requires IsRun(states, acts) && i < k < |acts| && acts[i] == Run(r, act) && act.Fail?
    requires TakesEffect(states[i].board, r, act, j)
    requires states[i].board.jobs[j].attempt < states[i].board.jobs[j].spec.maxAttempts
    requires forall m :: i < m < k ==> Enabled(states[m], acts[m]) && EventsOf(states[m], acts[m], j) == []
    requires Enabled(states[k], acts[k]) && EventsOf(states[k], acts[k], j) != []
    ensures var row := states[i].board.jobs[j];
            && row.spec.backoff == Backoff.Policy(None, None)
            && states[k].board.now >= states[i].board.now + Backoff.Interval(row.attempt, row.spec.backoff) * SECOND
  {
    var row := states[i].board.jobs[j];
    assert Next(states[i], acts[i], states[i + 1]);
    assert states[i + 1].board.jobs[j] == FailRow(row, act.code, act.message, states[i].board.now);
    QuietRow(states, acts, i + 1, k, j);
    EventlessStepKeepsRow(states[k], acts[k], j);
    DefaultPolicyAlways(states, acts, i, j);
  }

  lemma DefaultPolicyAlways(states: seq<System>, acts: seq<Action>, i: nat, j: JobId)
    requires IsRun(states, acts) && i < |states| && j in states[i].board.jobs
    ensures states[i].board.jobs[j].spec.backoff == Backoff.Policy(None, None)
  {
    InvAlways(states, acts, i);
    assert JobOk(states[i].board, states[i].front, j);
  }

  // ---------------------------------------------------------------------------------------
  // Leases
  // ---------------------------------------------------------------------------------------

  /** Every job a claim takes is running under a fresh lease when the claim is done. */
  lemma {:induction false} GrantedLease(b: Board, grants: seq<Grant>, g: Grant)
    requires GrantsOk(b, grants) && g in grants
    ensures g.job in GrantAll(b, grants).jobs
    ensures var row := GrantAll(b, grants).jobs[g.job]; row.state.Running? && row.lease == Some(b.now + LEASE)
    decreases |grants|
  {
    var b' := GrantOne(b, grants[0]);
    if g == grants[0] {
      GrantEventless(b', grants[1..], g.job);
    } else {
      GrantedLease(b', grants[1..], g);
    }
  }

  /** Between two claims of a job with nothing else in its log there is at least the length of a
      lease: no scheduler takes a job from a runner before that. */
  lemma LeaseProtects(states: seq<System>, acts: seq<Action>, i: nat, k: nat, g: Grant)
    requires IsRun(states, acts) && i < k < |acts| && acts[i].Claim? && g in acts[i].grants && acts[k].Claim?
    requires forall m :: i < m < k ==> Enabled(states[m], acts[m]) && EventsOf(states[m], acts[m], g.job) == []
    requires Enabled(states[k], acts[k]) && EventsOf(states[k], acts[k], g.job) != []
    ensures states[k].board.now >= states[i].board.now + LEASE
  {
    assert Next(states[i], acts[i], states[i + 1]);
    GrantedLease(states[i].board, acts[i].grants, g);
    QuietRow(states, acts, i + 1, k, g.job);
    GrantEventless(states[k].board, acts[k].grants, g.job);
  }
}
