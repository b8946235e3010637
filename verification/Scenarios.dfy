/** Runs put together from the steps of one job: created, claimed, claimed again. The theorems that say
    something can happen use them to show that it does, from an empty database. */
module Scenarios {
  import opened Intake
  import opened JobTable
  import opened JobProtocol
  import opened ProtocolInvariants

  ghost predicate Leads(s: System, states: seq<System>, acts: seq<Action>, z: System)
  {
    Steps(states, acts) && states[0] == s && states[|acts|] == z
  }

  /** Some sequence of steps leads from one state to the other. */
  ghost predicate Reach(s: System, z: System)
  {
    exists states, acts :: Leads(s, states, acts, z)
  }

  /** Some run ends in this state. */
  ghost predicate Reachable(z: System)
  {
    exists s :: Init(s) && Reach(s, z)
  }

  lemma ReachSelf(s: System)
    ensures Reach(s, s)
  {
    assert Leads(s, [s], [], s);
  }

  lemma ReachStep(s: System, a: Action)
    requires Enabled(s, a)
    ensures Reach(s, Apply(s, a))
  {
    assert Next(s, a, Apply(s, a));
    assert Leads(s, [s, Apply(s, a)], [a], Apply(s, a));
  }

  lemma StepsJoin(xs: seq<System>, x: seq<Action>, ys: seq<System>, y: seq<Action>)
    requires Steps(xs, x) && Steps(ys, y) && xs[|x|] == ys[0]
    ensures Steps(xs + ys[1..], x + y)
    ensures (xs + ys[1..])[0] == xs[0] && (xs + ys[1..])[|x + y|] == ys[|y|]
  {
    var zs, z := xs + ys[1..], x + y;
    forall i | 0 <= i < |z| ensures Next(zs[i], z[i], zs[i + 1]) {
      if i < |x| {
        assert Next(xs[i], x[i], xs[i + 1]);
      } else {
        assert Next(ys[i - |x|], y[i - |x|], ys[i - |x| + 1]);
      }
    }
  }

  lemma ReachTrans(s: System, y: System, z: System)
    requires Reach(s, y) && Reach(y, z)
    ensures Reach(s, z)
  {
    var xs, x :| Leads(s, xs, x, y);
    var ys, w :| Leads(y, ys, w, z);
    StepsJoin(xs, x, ys, w);
    assert Leads(s, xs + ys[1..], x + w, z);
  }

  lemma ReachMore(s: System, y: System, a: Action)
    requires Reach(s, y) && Enabled(y, a)
    ensures Reach(s, Apply(y, a))
  {
    ReachStep(y, a);
    ReachTrans(s, y, Apply(y, a));
  }

  lemma ReachableOn(s: System, z: System)
    requires Reachable(s) && Reach(s, z)
    ensures Reachable(z)
  {
    var start :| Init(start) && Reach(start, s);
    ReachTrans(start, s, z);
  }

  /** A reachable state is the last of some run. */
  lemma RunTo(z: System) returns (states: seq<System>, acts: seq<Action>)
    requires Reachable(z)
    ensures IsRun(states, acts) && states[|acts|] == z
  {
    var s :| Init(s) && Reach(s, z);
    states, acts :| Leads(s, states, acts, z);
  }

  lemma {:induction false} RunsReach(states: seq<System>, acts: seq<Action>, i: nat, k: nat)
    requires Steps(states, acts) && i <= k < |states|
    ensures Reach(states[i], states[k])
    decreases k
  {
    if i == k {
      ReachSelf(states[i]);
    } else {
      RunsReach(states, acts, i, k - 1);
      assert Next(states[k - 1], acts[k - 1], states[k]);
      ReachMore(states[i], states[k - 1], acts[k - 1]);
    }
  }

  lemma LaterReachable(states: seq<System>, acts: seq<Action>, i: nat, m: nat)
    requires Steps(states, acts) && i <= m < |states| && Reachable(states[i])
    ensures Reachable(states[m])
  {
    RunsReach(states, acts, i, m);
    ReachableOn(states[i], states[m]);
  }

  lemma ReachableInv(z: System)
    requires Reachable(z)
    ensures Inv(z)
  {
    var states, acts := RunTo(z);
    InvAlways(states, acts, |acts|);
  }

  type CronTable = (string, Time) -> Cron

  lemma {:induction false} GrantKeepsClock(b: Board, grants: seq<Grant>)
    requires GrantsOk(b, grants)
    ensures GrantAll(b, grants).now == b.now && GrantAll(b, grants).cron == b.cron
    decreases |grants|
  {
    if grants != [] {
      GrantKeepsClock(GrantOne(b, grants[0]), grants[1..]);
    }
  }

  lemma {:induction false} GrantSparesRunner(b: Board, grants: seq<Grant>, r: RunId)
    requires GrantsOk(b, grants) && r in b.runners && r in b.issued
    ensures r in GrantAll(b, grants).runners && GrantAll(b, grants).runners[r] == b.runners[r]
    decreases |grants|
  {
    if grants != [] {
      GrantSparesRunner(GrantOne(b, grants[0]), grants[1..], r);
    }
  }

  /** Time never goes back and the cron library never changes its mind. */
  lemma StepKeepsClock(s: System, a: Action)
    requires Enabled(s, a)
    ensures s.board.now <= BoardAfter(s, a).now && BoardAfter(s, a).cron == s.board.cron
  {
    match a
    case Claim(grants) => GrantKeepsClock(s.board, grants);
    case _ =>
  }

  lemma {:induction false} ClockForEver(states: seq<System>, acts: seq<Action>, i: nat)
    requires Steps(states, acts) && i < |states|
    ensures states[0].board.now <= states[i].board.now && states[i].board.cron == states[0].board.cron
  {
    if i > 0 {
      ClockForEver(states, acts, i - 1);
      assert Next(states[i - 1], acts[i - 1], states[i]);
      StepKeepsClock(states[i - 1], acts[i - 1]);
    }
  }

  /** An empty database at a given time. */
  function Start(now: Time, cron: CronTable): (s: System)
    ensures Init(s)
  {
    System(Board(now, cron, map[], map[], map[]), Front(map[], map[], map[]), map[], Approvals(map[], map[], map[]))
  }

  lemma StartReachable(now: Time, cron: CronTable)
    ensures Reachable(Start(now, cron))
  {
    ReachSelf(Start(now, cron));
  }

  lemma {:induction false} AboveAll(xs: set<nat>) returns (n: nat)
    ensures forall x :: x in xs ==> x < n
    decreases |xs|
  {
    if xs == {} {
      n := 0;
    } else {
      var x :| x in xs;
      var m := AboveAll(xs - {x});
      n := if x < m then m else x + 1;
      assert forall y :: y in xs ==> y == x || y in xs - {x};
    }
  }

  // ---------------------------------------------------------------------------------------
  // Creating a job
  // ---------------------------------------------------------------------------------------

  function NewRow(s: System, r: Request, j: JobId, run: RunId): JobRow
  {
    InitialRow(r, EnvelopeFor(r, j, s.board.now), run)
  }

  /** A request whose key and job id are new gets its job. */
  lemma NewJob(s: System, c: nat, r: Request, j: JobId, run: RunId) returns (z: System)
    requires Admissible(r) && c !in s.front.creates && j !in s.front.jobIds && run !in s.board.issued
    requires TripleOf(r) !in s.front.keys && !KeyTaken(s.board, r) && j !in s.board.jobs
    ensures Reach(s, z)
    ensures z.board == InsertRow(s.board, j, NewRow(s, r, j, run))
    ensures z.projection == s.projection && z.approvals == s.approvals
    ensures z.front.jobIds == s.front.jobIds[j := c]
    ensures z.front.keys == s.front.keys[TripleOf(r) := FreshRecord(r, j, s.board.now)]
    ensures z.front.creates
         == s.front.creates[c := Create(r, EnvelopeFor(r, j, s.board.now), Inserted(NewRow(s, r, j, run)))]
  {
    var x := Apply(s, Intake(c, Receive(r, j)));
    var y := Apply(x, Intake(c, RecordKey));
    z := Apply(y, Intake(c, InsertJob(run)));
    ReachStep(s, Intake(c, Receive(r, j)));
    ReachMore(s, x, Intake(c, RecordKey));
    ReachMore(s, y, Intake(c, InsertJob(run)));
  }

  // ---------------------------------------------------------------------------------------
  // Claiming a job
  // ---------------------------------------------------------------------------------------

  lemma ClaimAlone(s: System, j: JobId, r: RunId)
    requires j in s.board.jobs && Due(s.board.jobs[j], s.board.now) && !Parked(s.approvals, j) && r !in s.board.issued
    ensures Enabled(s, Claim([Grant(j, r)]))
    ensures BoardAfter(s, Claim([Grant(j, r)])) == GrantOne(s.board, Grant(j, r))
  {
    var g := Grant(j, r);
    assert [g][1..] == [];
    assert GrantsOk(GrantOne(s.board, g), []);
    assert GrantsOk(s.board, [g]);
    assert GrantAll(GrantOne(s.board, g), [g][1..]) == GrantOne(s.board, g);
  }

  /** The job table once a run has claimed a job and its runner has fetched it. */
  function Taken(b: Board, j: JobId, r: RunId): Board
    requires j in b.jobs
  {
    var row := ClaimRow(b.jobs[j], r, b.now);
    b.(jobs := b.jobs[j := row], issued := b.issued[r := j], runners := b.runners[r := Runner(j, Executing(row.attempt))])
  }

  /** A due job that is not parked is claimed and fetched. */
  lemma TakeJob(s: System, j: JobId, r: RunId) returns (z: System)
    requires j in s.board.jobs && Due(s.board.jobs[j], s.board.now) && !Parked(s.approvals, j) && r !in s.board.issued
    ensures Reach(s, z) && z == s.(board := Taken(s.board, j, r))
  {
    ClaimAlone(s, j, r);
    var y := Apply(s, Claim([Grant(j, r)]));
    z := Apply(y, Run(r, FetchJob));
    ReachStep(s, Claim([Grant(j, r)]));
    ReachMore(s, y, Run(r, FetchJob));
  }

  /** Time passes until a given moment, if it has not come yet. */
  function Later(s: System, t: Time): System
  {
    if t <= s.board.now then s else s.(board := s.board.(now := t))
  }

  lemma WaitUntil(s: System, t: Time)
    ensures Reach(s, Later(s, t)) && Later(s, t).board.now >= t
  {
    if t <= s.board.now {
      ReachSelf(s);
    } else {
      ReachStep(s, Advance(t));
    }
  }

  /** A queued job is waited for, claimed and fetched. */
  lemma StartJob(s: System, j: JobId, r: RunId) returns (z: System)
    requires j in s.board.jobs && s.board.jobs[j].state.Queued? && s.board.jobs[j].nextRunAt.Some?
    requires !Parked(s.approvals, j) && r !in s.board.issued
    ensures Reach(s, z)
    ensures var y := Later(s, s.board.jobs[j].nextRunAt.value); z == y.(board := Taken(y.board, j, r))
  {
    var y := Later(s, s.board.jobs[j].nextRunAt.value);
    WaitUntil(s, s.board.jobs[j].nextRunAt.value);
    z := TakeJob(y, j, r);
    ReachTrans(s, y, z);
  }
}
