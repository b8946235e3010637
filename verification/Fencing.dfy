/** Fencing: whatever the interleaving of schedulers and runners, each job behaves like a
    sequential machine in which only the holder of the latest claim can finish. */
module Fencing {
  import opened Intake
  import opened JobTable
  import opened JobProtocol
  import opened ProtocolInvariants

  // ---------------------------------------------------------------------------------------
  // The sequential machine
  // ---------------------------------------------------------------------------------------

  datatype Event =
    | Born
    | Take(run: RunId)       // claimed from the queue
    | Steal(run: RunId)      // reclaimed after the lease ran out
    | Requeue(run: RunId)    // finished by its holder, to run again
    | End(run: RunId, ok: bool)
  {
    predicate Claims() { Take? || Steal? }
    predicate Finishes() { Requeue? || End? }
  }

  datatype Spec =
    | Absent
    | Idle(attempts: int)
    | Held(holder: RunId, attempts: int)
    | Done(ok: bool, attempts: int)
    | Illegal

  function SpecStep(m: Spec, e: Event): Spec
  {
    match (m, e)
    case (Absent, Born) => Idle(0)
    case (Idle(n), Take(r)) => Held(r, n + 1)
    case (Held(q, n), Steal(r)) => if r == q then Illegal else Held(r, n)
    case (Held(q, n), Requeue(r)) => if r == q then Idle(n) else Illegal
    case (Held(q, n), End(r, ok)) => if r == q then Done(ok, n) else Illegal
    case _ => Illegal
  }

  function Replay(m: Spec, log: seq<Event>): Spec
  {
    if log == [] then m else SpecStep(Replay(m, log[..|log| - 1]), log[|log| - 1])
  }

  lemma {:induction false} ReplayAppend(m: Spec, x: seq<Event>, y: seq<Event>)
    ensures Replay(m, x + y) == Replay(Replay(m, x), y)
  {
    if y == [] {
      assert x + y == x;
    } else {
      ReplayAppend(m, x, y[..|y| - 1]);
      assert (x + y)[..|x + y| - 1] == x + y[..|y| - 1];
    }
  }

  /** In a legal log every finish directly follows the claim of the same run. */
  lemma {:induction false} FinishFollowsClaim(log: seq<Event>, i: nat)
    requires Replay(Absent, log) != Illegal && i < |log| && log[i].Finishes()
    ensures i > 0 && log[i - 1].Claims() && log[i - 1].run == log[i].run
  {
    PrefixLegal(log, i + 1);
    var p := log[..i + 1];
    assert p[..i] == log[..i];
    var m := Replay(Absent, log[..i]);
    assert m.Held?;
    HolderClaimedLast(log[..i]);
  }

  lemma {:induction false} PrefixLegal(log: seq<Event>, n: nat)
    requires Replay(Absent, log) != Illegal && n <= |log|
    ensures Replay(Absent, log[..n]) != Illegal
  {
    if n < |log| {
      PrefixLegal(log[..|log| - 1], n);
      assert log[..|log| - 1][..n] == log[..n];
    } else {
      assert log[..n] == log;
    }
  }

  lemma HolderClaimedLast(log: seq<Event>)
    requires Replay(Absent, log).Held?
    ensures |log| > 0 && log[|log| - 1].Claims() && log[|log| - 1].run == Replay(Absent, log).holder
  {
  }

  function Takes(log: seq<Event>): (n: nat)
  {
    if log == [] then 0 else Takes(log[..|log| - 1]) + if log[|log| - 1].Take? then 1 else 0
  }

  function Attempts(m: Spec): int
  {
    if m.Absent? || m.Illegal? then 0 else m.attempts
  }

  lemma {:induction false} AttemptsAreTakes(log: seq<Event>)
    requires Replay(Absent, log) != Illegal
    ensures Attempts(Replay(Absent, log)) == Takes(log)
  {
    if log != [] {
      PrefixLegal(log, |log| - 1);
      AttemptsAreTakes(log[..|log| - 1]);
    }
  }

  // ---------------------------------------------------------------------------------------
  // The log of one job in the concurrent system
  // ---------------------------------------------------------------------------------------

  function GrantEvents(b: Board, grants: seq<Grant>, j: JobId): seq<Event>
    requires GrantsOk(b, grants)
    decreases |grants|
  {
    if grants == [] then []
    else
      var g := grants[0];
      (if g.job == j then [if b.jobs[j].state.Queued? then Take(g.run) else Steal(g.run)] else [])
      + GrantEvents(GrantOne(b, g), grants[1..], j)
  }

  /** A finalising statement that affected its row. */
  predicate TakesEffect(b: Board, r: RunId, act: RunnerAct, j: JobId)
  {
    act.Finalises() && Fenced(b, r) && b.runners[r].job == j
  }

  function FinishEvent(r: RunId, row: JobRow): Event
  {
    if row.state.Queued? then Requeue(r) else End(r, row.state.Succeeded?)
  }

  function RunEvents(b: Board, r: RunId, act: RunnerAct, j: JobId): seq<Event>
    requires r in b.runners && RunnerReady(b.runners[r].at, act)
  {
    if TakesEffect(b, r, act, j) then [FinishEvent(r, RunBoard(b, r, act).jobs[j])] else []
  }

  function EventsOf(s: System, a: Action, j: JobId): seq<Event>
    requires Enabled(s, a)
  {
    match a
    case Intake(c, InsertJob(_)) =>
      if s.front.creates[c].envelope.jobId == j && !InsertFails(s.board, s.front.creates[c]) then [Born] else []
    case Claim(grants) => GrantEvents(s.board, grants, j)
    case Run(r, act) => RunEvents(s.board, r, act, j)
    case _ => []
  }

  function Log(states: seq<System>, acts: seq<Action>, j: JobId): seq<Event>
    requires Steps(states, acts)
    decreases |acts|
  {
    if acts == [] then []
    else
      var n := |acts| - 1;
      assert Next(states[n], acts[n], states[n + 1]);
      assert forall i :: 0 <= i < n ==> Next(states[i], acts[i], states[i + 1]);
      Log(states[..n + 1], acts[..n], j) + EventsOf(states[n], acts[n], j)
  }

  function Abs(b: Board, j: JobId): Spec
  {
    if j !in b.jobs then Absent
    else
      var row := b.jobs[j];
      match row.state
      case Queued => Idle(row.attempt)
      case Running => Held(row.runId, row.attempt)
      case Succeeded => Done(true, row.attempt)
      case Exhausted => Done(false, row.attempt)
  }

  // ---------------------------------------------------------------------------------------
  // Refinement
  // ---------------------------------------------------------------------------------------

  lemma {:induction false} GrantRefines(b: Board, grants: seq<Grant>, j: JobId)
    requires Core(b) && GrantsOk(b, grants)
    ensures Replay(Abs(b, j), GrantEvents(b, grants, j)) == Abs(GrantAll(b, grants), j)
    decreases |grants|
  {
    if grants != [] {
      var g := grants[0];
      var b' := GrantOne(b, g);
      GrantOneKeeps(b, g);
      GrantRefines(b', grants[1..], j);
      if g.job == j {
        var e := [if b.jobs[j].state.Queued? then Take(g.run) else Steal(g.run)];
        ClaimRefines(b, g);
        assert e[..0] == [];
        ReplayAppend(Abs(b, j), e, GrantEvents(b', grants[1..], j));
      } else {
        assert [] + GrantEvents(b', grants[1..], j) == GrantEvents(b', grants[1..], j);
      }
    }
  }

  lemma ClaimRefines(b: Board, g: Grant)
    requires Core(b) && GrantOk(b, g)
    ensures SpecStep(Abs(b, g.job), if b.jobs[g.job].state.Queued? then Take(g.run) else Steal(g.run))
            == Abs(GrantOne(b, g), g.job)
  {
    assert Stamped(b, b.jobs[g.job].runId, g.job);
  }

  lemma RunRefines(b: Board, r: RunId, act: RunnerAct, j: JobId)
    requires Core(b) && r in b.runners && RunnerReady(b.runners[r].at, act)
    ensures Replay(Abs(b, j), RunEvents(b, r, act, j)) == Abs(RunBoard(b, r, act), j)
  {
    if TakesEffect(b, r, act, j) {
      FinalRowFits(b, r, act);
      ReplayOne(Abs(b, j), FinishEvent(r, RunBoard(b, r, act).jobs[j]));
    } else {
      SilentRun(b, r, act, j);
    }
  }

  lemma ReplayOne(m: Spec, e: Event)
    ensures Replay(m, [e]) == SpecStep(m, e)
  {
    assert [e][..0] == [];
  }

  lemma SilentRun(b: Board, r: RunId, act: RunnerAct, j: JobId)
    requires r in b.runners && RunnerReady(b.runners[r].at, act) && !TakesEffect(b, r, act, j)
    ensures Abs(RunBoard(b, r, act), j) == Abs(b, j)
  {
  }

  lemma StepRefines(s: System, a: Action, j: JobId)
    requires Core(s.board) && Enabled(s, a)
    ensures Replay(Abs(s.board, j), EventsOf(s, a, j)) == Abs(BoardAfter(s, a), j)
  {
    match a
    case Intake(c, act) =>
      if act.InsertJob? {
        assert [Born][..0] == [];
      }
    case Claim(grants) => GrantRefines(s.board, grants, j);
    case Run(r, act) => RunRefines(s.board, r, act, j);
    case _ =>
  }

  lemma LogStep(states: seq<System>, acts: seq<Action>, j: JobId)
    requires IsRun(states, acts) && acts != []
    ensures var n := |acts| - 1;
            && IsRun(states[..n + 1], acts[..n])
            && Next(states[n], acts[n], states[n + 1])
            && Log(states, acts, j) == Log(states[..n + 1], acts[..n], j) + EventsOf(states[n], acts[n], j)
  {
    var n := |acts| - 1;
    assert forall i :: 0 <= i < n ==> Next(states[i], acts[i], states[i + 1]);
    assert Next(states[n], acts[n], states[n + 1]);
  }

  /** In every run, every job is in the state its own log leads the sequential machine to:
      the concurrent system refines the machine, and the log is legal. */
  lemma {:induction false} RunsRefine(states: seq<System>, acts: seq<Action>, j: JobId)
    requires IsRun(states, acts)
    ensures Replay(Absent, Log(states, acts, j)) == Abs(states[|acts|].board, j)
    decreases |acts|
  {
    if acts != [] {
      var n := |acts| - 1;
      LogStep(states, acts, j);
      RunsRefine(states[..n + 1], acts[..n], j);
      InvAlways(states, acts, n);
      StepRefines(states[n], acts[n], j);
      ReplayAppend(Absent, Log(states[..n + 1], acts[..n], j), EventsOf(states[n], acts[n], j));
    }
  }

  // ---------------------------------------------------------------------------------------
  // Each run id is claimed once and finishes at most once
  // ---------------------------------------------------------------------------------------

  ghost predicate FreshClaims(log: seq<Event>)
  {
    forall i, k :: 0 <= i < k < |log| && log[i].Claims() && log[k].Claims() ==> log[i].run != log[k].run
  }

  /** All claims of a job's log are on record, for that job, in the table of issued run ids. */
  ghost predicate OnRecord(b: Board, log: seq<Event>, j: JobId)
  {
    forall i :: 0 <= i < |log| && log[i].Claims() ==> Stamped(b, log[i].run, j)
  }

  ghost predicate IssuedGrows(b: Board, b': Board)
  {
    forall r :: r in b.issued ==> r in b'.issued && b'.issued[r] == b.issued[r]
  }

  lemma {:induction false} GrantEventsFresh(b: Board, grants: seq<Grant>, j: JobId)
    requires GrantsOk(b, grants)
    ensures FreshClaims(GrantEvents(b, grants, j)) && OnRecord(GrantAll(b, grants), GrantEvents(b, grants, j), j)
    ensures forall e :: e in GrantEvents(b, grants, j) ==> e.Claims() && e.run !in b.issued
    ensures IssuedGrows(b, GrantAll(b, grants))
    decreases |grants|
  {
    if grants != [] {
      var b' := GrantOne(b, grants[0]);
      var rest := GrantEvents(b', grants[1..], j);
      GrantEventsFresh(b', grants[1..], j);
      assert forall i :: 0 <= i < |rest| ==> rest[i] in rest;
      assert grants[0].run in b'.issued;
    }
  }

  /** Whatever job a step claims, it stamps a run id that was never issued to any job before. */
  lemma EventsFresh(s: System, a: Action, j: JobId)
    requires Enabled(s, a)
    ensures FreshClaims(EventsOf(s, a, j)) && OnRecord(BoardAfter(s, a), EventsOf(s, a, j), j)
    ensures forall e :: e in EventsOf(s, a, j) && e.Claims() ==> e.run !in s.board.issued
    ensures IssuedGrows(s.board, BoardAfter(s, a))
  {
    match a
    case Claim(grants) => GrantEventsFresh(s.board, grants, j);
    case _ =>
  }

  lemma AppendFresh(b: Board, b': Board, x: seq<Event>, y: seq<Event>, j: JobId)
    requires FreshClaims(x) && OnRecord(b, x, j) && FreshClaims(y) && OnRecord(b', y, j) && IssuedGrows(b, b')
    requires forall e :: e in y && e.Claims() ==> e.run !in b.issued
    ensures FreshClaims(x + y) && OnRecord(b', x + y, j)
  {
    assert forall i :: 0 <= i < |y| ==> y[i] in y;
  }

  lemma {:induction false} ClaimsAreFresh(states: seq<System>, acts: seq<Action>, j: JobId)
    requires IsRun(states, acts)
    ensures FreshClaims(Log(states, acts, j)) && OnRecord(states[|acts|].board, Log(states, acts, j), j)
    decreases |acts|
  {
    if acts != [] {
      var n := |acts| - 1;
      LogStep(states, acts, j);
      ClaimsAreFresh(states[..n + 1], acts[..n], j);
      EventsFresh(states[n], acts[n], j);
      AppendFresh(states[n].board, BoardAfter(states[n], acts[n]),
                  Log(states[..n + 1], acts[..n], j), EventsOf(states[n], acts[n], j), j);
    }
  }

  /** Each finish is made by the run of the claim right before it. */
  ghost predicate FinishedByHolder(log: seq<Event>)
  {
    forall i :: 0 <= i < |log| && log[i].Finishes() ==>
      i > 0 && log[i - 1].Claims() && log[i - 1].run == log[i].run
  }

  ghost predicate FinishedOnce(log: seq<Event>)
  {
    forall i, k :: 0 <= i < k < |log| && log[i].Finishes() && log[k].Finishes() ==> log[i].run != log[k].run
  }

  lemma LegalLogPairs(log: seq<Event>)
    requires Replay(Absent, log) != Illegal && FreshClaims(log)
    ensures FinishedByHolder(log) && FinishedOnce(log)
  {
    forall i | 0 <= i < |log| && log[i].Finishes()
      ensures i > 0 && log[i - 1].Claims() && log[i - 1].run == log[i].run
    {
      FinishFollowsClaim(log, i);
    }
    forall i, k | 0 <= i < k < |log| && log[i].Finishes() && log[k].Finishes() ensures log[i].run != log[k].run {
      assert log[i - 1].Claims() && log[k - 1].Claims();
    }
  }

  /** In every run: each finish of a job is made by the run that made the job's latest claim,
      no run id is claimed twice and none finishes twice. */
  lemma FinishPairsWithLatestClaim(states: seq<System>, acts: seq<Action>, j: JobId)
    requires IsRun(states, acts)
    ensures FinishedByHolder(Log(states, acts, j))
    ensures FreshClaims(Log(states, acts, j)) && FinishedOnce(Log(states, acts, j))
  {
    RunsRefine(states, acts, j);
    ClaimsAreFresh(states, acts, j);
    LegalLogPairs(Log(states, acts, j));
  }

  ghost predicate NoSharedRun(x: seq<Event>, y: seq<Event>)
  {
    forall i, k :: 0 <= i < |x| && 0 <= k < |y| && HasRun(x[i]) && HasRun(y[k]) ==> x[i].run != y[k].run
  }

  predicate HasRun(e: Event)
  {
    e.Claims() || e.Finishes()
  }

  /** In every run, the logs of two jobs have no run id in common: each run id claims and finishes one job. */
  lemma RunIdsServeOneJob(states: seq<System>, acts: seq<Action>, j: JobId, k: JobId)
    requires IsRun(states, acts) && j != k
    ensures NoSharedRun(Log(states, acts, j), Log(states, acts, k))
  {
    RunsOnRecord(states, acts, j);
    RunsOnRecord(states, acts, k);
  }

  lemma RunsOnRecord(states: seq<System>, acts: seq<Action>, j: JobId)
    requires IsRun(states, acts)
    ensures forall i :: 0 <= i < |Log(states, acts, j)| && HasRun(Log(states, acts, j)[i]) ==>
              Stamped(states[|acts|].board, Log(states, acts, j)[i].run, j)
  {
    ClaimsAreFresh(states, acts, j);
    FinishPairsWithLatestClaim(states, acts, j);
    AllOnRecord(states[|acts|].board, Log(states, acts, j), j);
  }

  lemma AllOnRecord(b: Board, log: seq<Event>, j: JobId)
    requires OnRecord(b, log, j) && FinishedByHolder(log)
    ensures forall i :: 0 <= i < |log| && HasRun(log[i]) ==> Stamped(b, log[i].run, j)
  {
    forall i | 0 <= i < |log| && HasRun(log[i]) ensures Stamped(b, log[i].run, j) {
      if log[i].Finishes() {
        assert log[i - 1].Claims() && Stamped(b, log[i - 1].run, j);
      }
    }
  }

  // ---------------------------------------------------------------------------------------
  // Stale runners
  // ---------------------------------------------------------------------------------------

  /** A run id that is not the job's current one never becomes it again. */
  ghost predicate Superseded(b: Board, r: RunId, j: JobId)
  {
    r in b.issued && j in b.jobs && b.jobs[j].runId != r
  }

  lemma {:induction false} GrantSupersedes(b: Board, grants: seq<Grant>, r: RunId, j: JobId)
    requires GrantsOk(b, grants) && Superseded(b, r, j)
    ensures Superseded(GrantAll(b, grants), r, j)
    decreases |grants|
  {
    if grants != [] {
      GrantSupersedes(GrantOne(b, grants[0]), grants[1..], r, j);
    }
  }

  lemma StepSupersedes(s: System, a: Action, r: RunId, j: JobId)
    requires Enabled(s, a) && Superseded(s.board, r, j)
    ensures Superseded(BoardAfter(s, a), r, j)
  {
    match a
    case Claim(grants) => GrantSupersedes(s.board, grants, r, j);
    case _ =>
  }

  lemma {:induction false} SupersededForEver(states: seq<System>, acts: seq<Action>, i: nat, k: nat, r: RunId, j: JobId)
    requires Steps(states, acts) && i <= k < |states| && Superseded(states[i].board, r, j)
    ensures Superseded(states[k].board, r, j)
    decreases k
  {
    if i < k {
      SupersededForEver(states, acts, i, k - 1, r, j);
      assert Next(states[k - 1], acts[k - 1], states[k]);
      StepSupersedes(states[k - 1], acts[k - 1], r, j);
    }
  }

  ghost predicate Reclaimed(b: Board, r: RunId)
  {
    r in b.runners && b.runners[r].job in b.jobs && b.jobs[b.runners[r].job].runId != r
  }

  /** A runner whose job has been reclaimed never again changes any job row. */
  lemma StaleRunnerIsHarmless(states: seq<System>, acts: seq<Action>, i: nat, k: nat, r: RunId, act: RunnerAct)
    requires IsRun(states, acts) && i <= k < |acts|
    requires Reclaimed(states[i].board, r)
    requires acts[k] == Run(r, act)
    ensures states[k + 1].board.jobs == states[k].board.jobs
  {
    var j := states[i].board.runners[r].job;
    InvAlways(states, acts, i);
    InvAlways(states, acts, k);
    assert Stamped(states[i].board, r, j);
    SupersededForEver(states, acts, i, k, r, j);
    StampForEver(states, acts, i, k, r);
    assert Next(states[k], acts[k], states[k + 1]);
    LateActKeepsJobs(states[k], r, act, j);
  }

  lemma LateActKeepsJobs(s: System, r: RunId, act: RunnerAct, j: JobId)
    requires Inv(s) && Enabled(s, Run(r, act)) && Superseded(s.board, r, j) && Stamped(s.board, r, j)
    ensures BoardAfter(s, Run(r, act)).jobs == s.board.jobs
  {
  }

  lemma {:induction false} StampForEver(states: seq<System>, acts: seq<Action>, i: nat, k: nat, r: RunId)
    requires Steps(states, acts) && i <= k < |states| && r in states[i].board.issued
    ensures r in states[k].board.issued && states[k].board.issued[r] == states[i].board.issued[r]
    decreases k
  {
    if i < k {
      StampForEver(states, acts, i, k - 1, r);
      assert Next(states[k - 1], acts[k - 1], states[k]);
      EventsFresh(states[k - 1], acts[k - 1], 0);
    }
  }
}
