/** Invariants of the job table: what every action keeps, hence what holds in every state of
    every run. */
module ProtocolInvariants {
  import opened Intake
  import opened JobTable
  import opened JobProtocol

  ghost predicate AllShaped(b: Board)
  {
    forall j :: j in b.jobs ==> Shape(b.jobs[j])
  }

  /** Run ids are never shared: each names at most one job, for ever. */
  ghost predicate RunsOwned(b: Board)
  {
    && (forall j :: j in b.jobs ==> Stamped(b, b.jobs[j].runId, j))
    && (forall r :: r in b.runners ==> Stamped(b, r, b.runners[r].job) && b.runners[r].job in b.jobs)
    && (forall j :: j in b.jobs && b.jobs[j].state.Running? ==> b.jobs[j].runId in b.runners)
  }

  predicate Stamped(b: Board, r: RunId, j: JobId)
  {
    r in b.issued && b.issued[r] == j
  }

  /** A runner about to finish knows whether its job is scheduled. */
  ghost predicate ScheduleKnown(b: Board)
  {
    forall r :: r in b.runners && b.runners[r].at.Finishing? && b.runners[r].job in b.jobs ==>
      (b.runners[r].at.next.Some? <==> Scheduled(b.jobs[b.runners[r].job].spec))
  }

  /** An unscheduled job never uses more attempts than it has, and waits only with one left. */
  predicate WithinBudget(row: JobRow)
  {
    Scheduled(row.spec) || (row.attempt <= row.spec.maxAttempts && (row.state.Queued? ==> row.attempt < row.spec.maxAttempts))
  }

  ghost predicate Budgeted(b: Board)
  {
    forall j :: j in b.jobs ==> WithinBudget(b.jobs[j])
  }

  ghost predicate Core(b: Board)
  {
    AllShaped(b) && RunsOwned(b) && ScheduleKnown(b) && Budgeted(b)
  }

  // ---------------------------------------------------------------------------------------
  // The five kinds of change
  // ---------------------------------------------------------------------------------------

  lemma GrantOneKeeps(b: Board, g: Grant)
    requires Core(b) && GrantOk(b, g)
    ensures Core(GrantOne(b, g))
  {
  }

  lemma {:induction false} GrantAllKeeps(b: Board, grants: seq<Grant>)
    requires Core(b) && GrantsOk(b, grants)
    ensures Core(GrantAll(b, grants))
    decreases |grants|
  {
    if grants != [] {
      GrantOneKeeps(b, grants[0]);
      GrantAllKeeps(GrantOne(b, grants[0]), grants[1..]);
    }
  }

  lemma MoveKeeps(b: Board, r: RunId, pc: RunnerPc)
    requires Core(b) && r in b.runners
    requires pc.Finishing? ==> (pc.next.Some? <==> Scheduled(b.jobs[b.runners[r].job].spec))
    ensures Core(Move(b, r, pc))
  {
  }

  lemma InsertKeeps(b: Board, j: JobId, row: JobRow)
    requires Core(b) && j !in b.jobs && row.runId !in b.issued
    requires Shape(row) && row.state.Queued? && WithinBudget(row)
    ensures Core(InsertRow(b, j, row))
  {
  }

  lemma FinalRowFits(b: Board, r: RunId, act: RunnerAct)
    requires Core(b) && Fenced(b, r) && act.Finalises() && RunnerReady(b.runners[r].at, act)
    ensures var row := b.jobs[b.runners[r].job];
            var row' := FinalRow(row, b.runners[r].at, act, b.now);
            && row'.spec == row.spec && row'.runId == r && row'.attempt == row.attempt
            && Shape(row') && !row'.state.Running? && WithinBudget(row')
  {
  }

  lemma RewriteKeeps(b: Board, r: RunId, row: JobRow)
    requires Core(b) && Fenced(b, r)
    requires row.spec == b.jobs[b.runners[r].job].spec && row.runId == r
    requires Shape(row) && !row.state.Running? && WithinBudget(row)
    ensures Core(Rewrite(b, r, row))
  {
  }

  lemma RunKeeps(b: Board, r: RunId, act: RunnerAct)
    requires Core(b) && r in b.runners && RunnerReady(b.runners[r].at, act)
    ensures Core(RunBoard(b, r, act))
  {
    if act.Finalises() && Fenced(b, r) {
      FinalRowFits(b, r, act);
      RewriteKeeps(b, r, FinalRow(b.jobs[b.runners[r].job], b.runners[r].at, act, b.now));
    } else {
      MoveKeeps(b, r, NextPc(b, r, act));
    }
  }

  // ---------------------------------------------------------------------------------------
  // Intake
  // ---------------------------------------------------------------------------------------

  /** The create call that was given a job id. */
  predicate IssuedTo(f: Front, j: JobId, c: nat)
  {
    j in f.jobIds && f.jobIds[j] == c && c in f.creates && f.creates[c].envelope.jobId == j
  }

  predicate HoldsOwn(f: Front, cr: Create)
  {
    TripleOf(cr.request) in f.keys && f.keys[TripleOf(cr.request)] == RecordFor(cr)
  }

  /** What a finished call was told: the record of its key, as a first acceptance of its own
      envelope, as a replay of an equal payload or as a conflict with a different one. */
  predicate Truthful(f: Front, cr: Create, a: Answer)
  {
    && TripleOf(cr.request) in f.keys && a.record == f.keys[TripleOf(cr.request)]
    && (a.conflict <==> a.record.fingerprint != FingerprintOf(cr.request))
    && (a.replayed <==> !a.conflict && a.record.envelope.jobId != cr.envelope.jobId)
    && (!a.replayed && !a.conflict ==> a.record == RecordFor(cr))
  }

  /** What is known of a create call at each point. */
  predicate PcOk(b: Board, f: Front, cr: Create, pc: CreatePc)
  {
    match pc
    case Received => cr.envelope.jobId !in b.jobs && !HoldsOwn(f, cr)
    case Existing => cr.envelope.jobId !in b.jobs && TripleOf(cr.request) in f.keys && !HoldsOwn(f, cr)
    case Recorded => cr.envelope.jobId !in b.jobs && HoldsOwn(f, cr)
    case Inserted(row) =>
      && cr.envelope.jobId in b.jobs && HoldsOwn(f, cr)
      && row == InitialRow(cr.request, cr.envelope, row.runId)
    case Responded(a) => Truthful(f, cr, a)
    case Broken => true
  }

  predicate CreateOk(b: Board, f: Front, c: nat)
    requires c in f.creates
  {
    var cr := f.creates[c];
    && cr.request.maxAttempts >= 1 && IssuedTo(f, cr.envelope.jobId, c)
    && cr.envelope == EnvelopeFor(cr.request, cr.envelope.jobId, cr.envelope.acceptedAt)
    && PcOk(b, f, cr, cr.at)
  }

  /** Every idempotency record is the one its own create call wrote. */
  predicate RecordOk(f: Front, t: Triple)
    requires t in f.keys
  {
    var j := f.keys[t].envelope.jobId;
    && j in f.jobIds && IssuedTo(f, j, f.jobIds[j])
    && TripleOf(f.creates[f.jobIds[j]].request) == t && f.keys[t] == RecordFor(f.creates[f.jobIds[j]])
  }

  /** Every job has its idempotency record and carries the columns of its request. */
  predicate JobOk(b: Board, f: Front, j: JobId)
    requires j in b.jobs
  {
    && j in f.jobIds && IssuedTo(f, j, f.jobIds[j])
    && var cr := f.creates[f.jobIds[j]];
       HoldsOwn(f, cr) && b.jobs[j].spec == InitialRow(cr.request, cr.envelope, 0).spec
  }

  ghost predicate IntakeInv(b: Board, f: Front)
  {
    && (forall c :: c in f.creates ==> CreateOk(b, f, c))
    && (forall t :: t in f.keys ==> RecordOk(f, t))
    && (forall j :: j in b.jobs ==> JobOk(b, f, j))
  }

  /** No row is lost and no immutable column changes. */
  ghost predicate SameSpecs(b: Board, b': Board)
  {
    b'.jobs.Keys == b.jobs.Keys && forall j :: j in b.jobs ==> b'.jobs[j].spec == b.jobs[j].spec
  }

  lemma {:induction false} GrantAllSpecs(b: Board, grants: seq<Grant>)
    requires GrantsOk(b, grants)
    ensures SameSpecs(b, GrantAll(b, grants))
    decreases |grants|
  {
    if grants != [] {
      GrantAllSpecs(GrantOne(b, grants[0]), grants[1..]);
    }
  }

  lemma RunSpecs(b: Board, r: RunId, act: RunnerAct)
    requires r in b.runners && RunnerReady(b.runners[r].at, act)
    ensures SameSpecs(b, RunBoard(b, r, act))
  {
  }

  lemma SpecsKeepIntake(b: Board, b': Board, f: Front)
    requires IntakeInv(b, f) && SameSpecs(b, b')
    ensures IntakeInv(b', f)
  {
    forall c | c in f.creates ensures CreateOk(b', f, c) {
      assert CreateOk(b, f, c);
    }
    forall j | j in b'.jobs ensures JobOk(b', f, j) {
      assert JobOk(b, f, j);
    }
  }

  function SetPc(f: Front, c: nat, pc: CreatePc): Front
    requires c in f.creates
  {
    f.(creates := f.creates[c := f.creates[c].(at := pc)])
  }

  /** Records and jobs look only at what a create call was asked, not at how far it got. */
  lemma SameAsked(b: Board, f: Front, f': Front)
    requires IntakeInv(b, f) && f'.keys == f.keys && f'.jobIds == f.jobIds && f'.creates.Keys == f.creates.Keys
    requires forall c :: c in f.creates ==>
               f'.creates[c].request == f.creates[c].request && f'.creates[c].envelope == f.creates[c].envelope
    ensures forall t :: t in f'.keys ==> RecordOk(f', t)
    ensures forall j :: j in b.jobs ==> JobOk(b, f', j)
  {
    forall t | t in f'.keys ensures RecordOk(f', t) {
      assert RecordOk(f, t);
    }
    forall j | j in b.jobs ensures JobOk(b, f', j) {
      assert JobOk(b, f, j);
    }
  }

  lemma PcOkAsked(b: Board, f: Front, f': Front, cr: Create, cr': Create, pc: CreatePc)
    requires f'.keys == f.keys && cr'.request == cr.request && cr'.envelope == cr.envelope
    ensures PcOk(b, f, cr, pc) ==> PcOk(b, f', cr', pc)
  {
  }

  lemma SetPcKeeps(b: Board, f: Front, c: nat, pc: CreatePc)
    requires IntakeInv(b, f) && c in f.creates && PcOk(b, f, f.creates[c], pc)
    ensures IntakeInv(b, SetPc(f, c, pc))
  {
    var f' := SetPc(f, c, pc);
    SameAsked(b, f, f');
    forall k | k in f'.creates ensures CreateOk(b, f', k) {
      assert CreateOk(b, f, k);
      PcOkAsked(b, f, f', f.creates[k], f'.creates[k], f'.creates[k].at);
    }
  }

  lemma ReceiveKeeps(b: Board, f: Front, c: nat, cr: Create)
    requires IntakeInv(b, f) && c !in f.creates && cr.envelope.jobId !in f.jobIds && cr.at.Received?
    requires cr.request.maxAttempts >= 1 && cr.envelope == EnvelopeFor(cr.request, cr.envelope.jobId, cr.envelope.acceptedAt)
    ensures IntakeInv(b, f.(creates := f.creates[c := cr], jobIds := f.jobIds[cr.envelope.jobId := c]))
  {
    var f' := f.(creates := f.creates[c := cr], jobIds := f.jobIds[cr.envelope.jobId := c]);
    forall k | k in f'.creates ensures CreateOk(b, f', k) {
      if k != c {
        assert CreateOk(b, f, k);
      } else if TripleOf(cr.request) in f.keys {
        assert RecordOk(f, TripleOf(cr.request));
      }
    }
    forall t | t in f'.keys ensures RecordOk(f', t) {
      assert RecordOk(f, t);
    }
    forall j | j in b.jobs ensures JobOk(b, f', j) {
      assert JobOk(b, f, j);
    }
  }

  /** A new record takes a free key. */
  lemma RecordKeeps(b: Board, f: Front, c: nat)
    requires IntakeInv(b, f) && c in f.creates && f.creates[c].at.Received?
    requires TripleOf(f.creates[c].request) !in f.keys
    ensures IntakeInv(b, SetPc(f, c, Recorded).(keys := f.keys[TripleOf(f.creates[c].request) := RecordFor(f.creates[c])]))
  {
    var f' := SetPc(f, c, Recorded).(keys := f.keys[TripleOf(f.creates[c].request) := RecordFor(f.creates[c])]);
    assert CreateOk(b, f, c);
    forall k | k in f'.creates ensures CreateOk(b, f', k) {
      assert CreateOk(b, f, k);
    }
    forall t | t in f'.keys ensures RecordOk(f', t) {
      if t in f.keys {
        assert RecordOk(f, t);
      }
    }
    forall j | j in b.jobs ensures JobOk(b, f', j) {
      assert JobOk(b, f, j);
    }
  }

  lemma InsertJobKeeps(b: Board, f: Front, c: nat, run: RunId)
    requires IntakeInv(b, f) && c in f.creates && f.creates[c].at.Recorded?
    ensures var cr := f.creates[c];
            var row := InitialRow(cr.request, cr.envelope, run);
            IntakeInv(InsertRow(b, cr.envelope.jobId, row), SetPc(f, c, Inserted(row)))
  {
    var cr := f.creates[c];
    var row := InitialRow(cr.request, cr.envelope, run);
    var b', f' := InsertRow(b, cr.envelope.jobId, row), SetPc(f, c, Inserted(row));
    assert CreateOk(b, f, c);
    forall k | k in f'.creates ensures CreateOk(b', f', k) {
      assert CreateOk(b, f, k);
    }
    forall t | t in f'.keys ensures RecordOk(f', t) {
      assert RecordOk(f, t);
    }
    forall j | j in b'.jobs ensures JobOk(b', f', j) {
      if j != cr.envelope.jobId {
        assert JobOk(b, f, j);
      }
    }
  }

  lemma InsertActKeeps(b: Board, f: Front, c: nat, run: RunId)
    requires IntakeInv(b, f) && Core(b) && c in f.creates && f.creates[c].at.Recorded? && run !in b.issued
    ensures IntakeInv(b, SetPc(f, c, Broken))
    ensures var cr := f.creates[c];
            var row := InitialRow(cr.request, cr.envelope, run);
            && IntakeInv(InsertRow(b, cr.envelope.jobId, row), SetPc(f, c, Inserted(row)))
            && Core(InsertRow(b, cr.envelope.jobId, row))
  {
    assert CreateOk(b, f, c);
    SetPcKeeps(b, f, c, Broken);
    InsertJobKeeps(b, f, c, run);
    InsertKeeps(b, f.creates[c].envelope.jobId, InitialRow(f.creates[c].request, f.creates[c].envelope, run));
  }

  lemma IntakeMoves(s: System, c: nat, act: IntakeAct)
    requires IntakeReady(s, c, act) && !act.Receive?
    ensures var cr := s.front.creates[c];
            && FrontAfter(s, Intake(c, act)) == (if act.RecordKey? && TripleOf(cr.request) !in s.front.keys
                 then SetPc(s.front, c, Recorded).(keys := s.front.keys[TripleOf(cr.request) := RecordFor(cr)])
                 else SetPc(s.front, c, CreateAfter(s, cr, act)))
  {
  }

  lemma IntakeActKeeps(s: System, c: nat, act: IntakeAct)
    requires IntakeInv(s.board, s.front) && Core(s.board) && IntakeReady(s, c, act)
    ensures IntakeInv(BoardAfter(s, Intake(c, act)), FrontAfter(s, Intake(c, act)))
    ensures Core(BoardAfter(s, Intake(c, act)))
  {
    var b, f := s.board, s.front;
    if act.Receive? {
      ReceiveKeeps(b, f, c, Create(act.request, EnvelopeFor(act.request, act.job, b.now), Received));
    } else {
      IntakeMoves(s, c, act);
      if act.InsertJob? {
        InsertActKeeps(b, f, c, act.run);
      } else if act.RecordKey? && TripleOf(f.creates[c].request) !in f.keys {
        RecordKeeps(b, f, c);
      } else {
        PcFollows(s, c, act);
        SetPcKeeps(b, f, c, CreateAfter(s, f.creates[c], act));
      }
    }
  }

  lemma PcFollows(s: System, c: nat, act: IntakeAct)
    requires IntakeInv(s.board, s.front) && IntakeReady(s, c, act) && !act.Receive? && !act.InsertJob?
    requires act.RecordKey? ==> TripleOf(s.front.creates[c].request) in s.front.keys
    ensures PcOk(s.board, s.front, s.front.creates[c], CreateAfter(s, s.front.creates[c], act))
  {
    assert CreateOk(s.board, s.front, c);
    if act.FetchKey? {
      FetchTruthful(s.board, s.front, c);
    }
  }

  /** A call that found its key taken is told of another call's record. */
  lemma FetchTruthful(b: Board, f: Front, c: nat)
    requires IntakeInv(b, f) && c in f.creates && f.creates[c].at.Existing?
    ensures TripleOf(f.creates[c].request) in f.keys
    ensures Truthful(f, f.creates[c], Respond(f.keys, TripleOf(f.creates[c].request), RecordFor(f.creates[c])))
  {
    assert CreateOk(b, f, c);
    assert RecordOk(f, TripleOf(f.creates[c].request));
  }

  // ---------------------------------------------------------------------------------------
  // Every state of every run
  // ---------------------------------------------------------------------------------------

  /** Read rows belong to jobs and agree with them on the columns an upsert leaves alone. */
  ghost predicate ProjectionInv(b: Board, p: map<JobId, ReadRow>)
  {
    forall j :: j in p ==>
      j in b.jobs && p[j].tenant == b.jobs[j].spec.tenant && p[j].pathKey == b.jobs[j].spec.pathKey
  }

  ghost predicate Inv(s: System)
  {
    Core(s.board) && IntakeInv(s.board, s.front) && ProjectionInv(s.board, s.projection)
  }

  lemma BoardKeeps(s: System, a: Action)
    requires Inv(s) && Enabled(s, a)
    ensures Core(BoardAfter(s, a)) && IntakeInv(BoardAfter(s, a), FrontAfter(s, a))
  {
    match a
    case Intake(c, act) =>
      IntakeActKeeps(s, c, act);
    case Claim(grants) =>
      GrantAllKeeps(s.board, grants);
      GrantAllSpecs(s.board, grants);
      SpecsKeepIntake(s.board, GrantAll(s.board, grants), s.front);
    case Run(r, act) =>
      RunKeeps(s.board, r, act);
      RunSpecs(s.board, r, act);
      SpecsKeepIntake(s.board, RunBoard(s.board, r, act), s.front);
    case Advance(to) =>
      SpecsKeepIntake(s.board, s.board.(now := to), s.front);
    case _ =>
  }

  /** Rows are never lost and keep their immutable columns, whatever the action. */
  lemma JobsGrow(s: System, a: Action)
    requires Enabled(s, a)
    ensures forall j :: j in s.board.jobs ==>
              j in BoardAfter(s, a).jobs && BoardAfter(s, a).jobs[j].spec == s.board.jobs[j].spec
  {
    match a
    case Claim(grants) => GrantAllSpecs(s.board, grants);
    case Run(r, act) => RunSpecs(s.board, r, act);
    case _ =>
  }

  lemma ProjectionKeeps(s: System, a: Action)
    requires IntakeInv(s.board, s.front) && ProjectionInv(s.board, s.projection) && Enabled(s, a)
    ensures ProjectionInv(s.board, ProjectionAfter(s, a))
  {
    if a.Intake? && a.intake.InsertRead? {
      InsertReadKeeps(s, a.c);
    } else if a.Run? && a.act.CopyRow? {
      CopyKeeps(s, a.r);
    }
  }

  lemma InsertReadKeeps(s: System, c: nat)
    requires IntakeInv(s.board, s.front) && ProjectionInv(s.board, s.projection) && Enabled(s, Intake(c, InsertRead))
    ensures ProjectionInv(s.board, ProjectionAfter(s, Intake(c, InsertRead)))
  {
    InsertedBelongs(s.board, s.front, c);
  }

  lemma CopyKeeps(s: System, r: RunId)
    requires ProjectionInv(s.board, s.projection) && Enabled(s, Run(r, CopyRow))
    ensures ProjectionInv(s.board, ProjectionAfter(s, Run(r, CopyRow)))
  {
  }

  lemma InsertedBelongs(b: Board, f: Front, c: nat)
    requires IntakeInv(b, f) && c in f.creates && f.creates[c].at.Inserted?
    ensures var cr := f.creates[c];
            && cr.envelope.jobId in b.jobs
            && cr.at.row == InitialRow(cr.request, cr.envelope, cr.at.row.runId)
            && cr.at.row.spec == b.jobs[cr.envelope.jobId].spec
  {
    assert CreateOk(b, f, c);
    assert JobOk(b, f, f.creates[c].envelope.jobId);
  }

  lemma InvKept(s: System, a: Action)
    requires Inv(s) && Enabled(s, a)
    ensures Inv(Apply(s, a))
  {
    BoardKeeps(s, a);
    ProjectionKeeps(s, a);
    JobsGrow(s, a);
  }

  lemma {:induction false} InvAlways(states: seq<System>, acts: seq<Action>, i: nat)
    requires IsRun(states, acts) && i < |states|
    ensures Inv(states[i])
  {
    if i > 0 {
      InvAlways(states, acts, i - 1);
      assert Next(states[i - 1], acts[i - 1], states[i]);
      InvKept(states[i - 1], acts[i - 1]);
    }
  }
}
