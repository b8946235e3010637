/** Idempotent intake on the database, over whole runs with any number of racing requests. */
module IntakeHistory {
  import opened Intake
  import opened JobTable
  import opened JobProtocol
  import opened ProtocolInvariants
  import opened Scenarios

  /** An idempotency record is never changed and never removed. */
  lemma {:induction false} RecordsForEver(states: seq<System>, acts: seq<Action>, i: nat, k: nat, t: Triple)
    requires Steps(states, acts) && i <= k < |states| && t in states[i].front.keys
    ensures t in states[k].front.keys && states[k].front.keys[t] == states[i].front.keys[t]
    decreases k
  {
    if i < k {
      RecordsForEver(states, acts, i, k - 1, t);
      assert Next(states[k - 1], acts[k - 1], states[k]);
    }
  }

  predicate AnsweredAt(s: System, c: nat)
  {
    c in s.front.creates && s.front.creates[c].at.Responded?
  }

  /** In every run, every answered call was given the one record its key will ever have: its own,
      as a first acceptance, or another call's, as a replay when the fingerprints match and as
      a conflict when they do not. */
  lemma AnswersAreTruthful(states: seq<System>, acts: seq<Action>, i: nat, k: nat, c: nat)
    requires IsRun(states, acts) && i <= k < |states| && AnsweredAt(states[i], c)
    ensures Truthful(states[k].front, states[i].front.creates[c], states[i].front.creates[c].at.answer)
  {
    InvAlways(states, acts, i);
    assert CreateOk(states[i].board, states[i].front, c);
    RecordsForEver(states, acts, i, k, TripleOf(states[i].front.creates[c].request));
  }

  /** Of all the calls for one key only one is ever accepted as new, and every other answer
      carries that call's envelope. */
  lemma OneAcceptancePerKey(states: seq<System>, acts: seq<Action>, i: nat, c: nat, d: nat)
    requires IsRun(states, acts) && i < |states| && AnsweredAt(states[i], c) && AnsweredAt(states[i], d)
    requires TripleOf(states[i].front.creates[c].request) == TripleOf(states[i].front.creates[d].request)
    ensures var x, y := states[i].front.creates[c], states[i].front.creates[d];
            && x.at.answer.record == y.at.answer.record
            && (!x.at.answer.replayed && !x.at.answer.conflict && !y.at.answer.replayed && !y.at.answer.conflict ==> c == d)
  {
    InvAlways(states, acts, i);
    assert CreateOk(states[i].board, states[i].front, c);
    assert CreateOk(states[i].board, states[i].front, d);
  }

  /** In every reachable state every job has its idempotency record, and the record names it. */
  lemma EveryJobHasItsRecord(states: seq<System>, acts: seq<Action>, i: nat, j: JobId)
    requires IsRun(states, acts) && i < |states| && j in states[i].board.jobs
    ensures var spec := states[i].board.jobs[j].spec;
            var t := Triple(spec.tenant, spec.pathKey, spec.key);
            t in states[i].front.keys && states[i].front.keys[t].envelope.jobId == j
  {
    InvAlways(states, acts, i);
    assert JobOk(states[i].board, states[i].front, j);
  }

  // ---------------------------------------------------------------------------------------
  // Records without a job
  // ---------------------------------------------------------------------------------------

  /** A recorded call whose tenant already used the key, under whatever path. */
  ghost predicate Orphan(b: Board, f: Front, c: nat)
  {
    c in f.creates && Stalled(f.creates[c]) && f.creates[c].envelope.jobId !in b.jobs && KeyTaken(b, f.creates[c].request)
  }

  predicate Stalled(cr: Create)
  {
    cr.at.Recorded? || cr.at.Broken?
  }

  lemma KeyStaysTaken(s: System, a: Action, request: Request)
    requires Enabled(s, a) && KeyTaken(s.board, request)
    ensures KeyTaken(BoardAfter(s, a), request)
  {
    JobsGrow(s, a);
    var j :| j in s.board.jobs && s.board.jobs[j].spec.tenant == request.tenant && s.board.jobs[j].spec.key == request.key;
    assert j in BoardAfter(s, a).jobs;
  }

  /** The only new job row of a step is the one its own create call inserts. */
  lemma NewRowIsInserted(s: System, a: Action, j: JobId)
    requires Enabled(s, a)
    ensures j !in s.board.jobs && j in BoardAfter(s, a).jobs ==>
              && a.Intake? && a.intake.InsertJob? && a.c in s.front.creates
              && s.front.creates[a.c].envelope.jobId == j && !InsertFails(s.board, s.front.creates[a.c])
  {
    match a
    case Claim(grants) => GrantAllSpecs(s.board, grants);
    case Run(r, act) => RunSpecs(s.board, r, act);
    case _ =>
  }

  lemma StepKeepsStalled(s: System, a: Action, c: nat)
    requires Enabled(s, a) && c in s.front.creates && Stalled(s.front.creates[c])
    requires InsertFails(s.board, s.front.creates[c])
    ensures c in FrontAfter(s, a).creates && Stalled(FrontAfter(s, a).creates[c])
    ensures FrontAfter(s, a).creates[c].envelope == s.front.creates[c].envelope
    ensures FrontAfter(s, a).creates[c].request == s.front.creates[c].request
  {
  }

  lemma StepInsertsNoOrphan(s: System, a: Action, c: nat)
    requires IntakeInv(s.board, s.front) && Enabled(s, a) && Orphan(s.board, s.front, c)
    ensures s.front.creates[c].envelope.jobId !in BoardAfter(s, a).jobs
  {
    NewRowIsInserted(s, a, s.front.creates[c].envelope.jobId);
    assert CreateOk(s.board, s.front, c);
    if a.Intake? && a.intake.InsertJob? {
      assert CreateOk(s.board, s.front, a.c);
    }
  }

  lemma StepKeepsOrphan(s: System, a: Action, c: nat)
    requires IntakeInv(s.board, s.front) && Enabled(s, a) && Orphan(s.board, s.front, c)
    ensures Orphan(BoardAfter(s, a), FrontAfter(s, a), c)
    ensures FrontAfter(s, a).creates[c].envelope == s.front.creates[c].envelope
  {
    StepInsertsNoOrphan(s, a, c);
    StepKeepsStalled(s, a, c);
    KeyStaysTaken(s, a, s.front.creates[c].request);
  }

  lemma OrphanNext(states: seq<System>, acts: seq<Action>, i: nat, c: nat)
    requires IsRun(states, acts) && i < |acts| && Orphan(states[i].board, states[i].front, c)
    ensures Orphan(states[i + 1].board, states[i + 1].front, c)
    ensures states[i + 1].front.creates[c].envelope == states[i].front.creates[c].envelope
  {
    InvAlways(states, acts, i);
    StepKeepsOrphan(states[i], acts[i], c) by {
      assert Next(states[i], acts[i], states[i + 1]);
    }
    assert Next(states[i], acts[i], states[i + 1]);
  }

  lemma {:induction false} OrphanForEver(states: seq<System>, acts: seq<Action>, i: nat, k: nat, c: nat)
    requires IsRun(states, acts) && i <= k < |states| && Orphan(states[i].board, states[i].front, c)
    ensures Orphan(states[k].board, states[k].front, c)
    ensures states[k].front.creates[c].envelope == states[i].front.creates[c].envelope
    decreases k
  {
    if i < k {
      OrphanForEver(states, acts, i, k - 1, c);
      OrphanNext(states, acts, k - 1, c);
    }
  }

  /** The converse of the previous theorem fails: the unique index on jobs ignores the path, so a
      call recorded while its tenant already has a job with that key never gets a job, yet its
      record is returned to every later call for the key. */
  lemma RecordedButNeverCreated(states: seq<System>, acts: seq<Action>, i: nat, k: nat, c: nat)
    requires IsRun(states, acts) && i <= k < |states|
    requires c in states[i].front.creates && states[i].front.creates[c].at.Recorded?
    requires KeyTaken(states[i].board, states[i].front.creates[c].request)
    ensures var cr := states[i].front.creates[c];
            && cr.envelope.jobId !in states[k].board.jobs
            && TripleOf(cr.request) in states[k].front.keys
            && states[k].front.keys[TripleOf(cr.request)].envelope.jobId == cr.envelope.jobId
  {
    InvAlways(states, acts, i);
    assert CreateOk(states[i].board, states[i].front, c);
    OrphanForEver(states, acts, i, k, c);
    RecordsForEver(states, acts, i, k, TripleOf(states[i].front.creates[c].request));
  }

  /** The job insert of a recorded call takes effect exactly when no job of its tenant has the key. */
  lemma InsertSucceedsIff(states: seq<System>, acts: seq<Action>, i: nat, c: nat, run: RunId)
    requires IsRun(states, acts) && i < |acts| && acts[i] == Intake(c, InsertJob(run))
    ensures c in states[i].front.creates
    ensures states[i].front.creates[c].envelope.jobId in states[i + 1].board.jobs
            <==> !KeyTaken(states[i].board, states[i].front.creates[c].request)
  {
    assert Next(states[i], acts[i], states[i + 1]);
    InvAlways(states, acts, i);
    assert CreateOk(states[i].board, states[i].front, c);
  }

  // ---------------------------------------------------------------------------------------
  // One create after the other
  // ---------------------------------------------------------------------------------------

  /** Where a create call ends that got this reply. */
  function EndOf(reply: Reply): CreatePc
  {
    match reply
    case Answered(a) => Responded(a)
    case InternalError => Broken
  }

  /** The tables hold what the sequential database holds, as far as this request is concerned. */
  predicate Holds(s: System, db: Database, r: Request)
  {
    s.front.keys == db.keys && (KeyTaken(s.board, r) <==> ScopeOf(TripleOf(r)) in db.taken)
  }

  /** Nothing in the state has this number yet. */
  predicate Unused(s: System, n: nat)
  {
    && n !in s.front.creates && n !in s.front.jobIds && n !in s.board.issued && n !in s.board.jobs
    && n !in s.projection
  }

  /** What serving one request leaves behind. */
  ghost predicate Served(s: System, n: nat, r: Request, db: Database, z: System)
  {
    var t, rec := TripleOf(r), FreshRecord(r, n, s.board.now);
    && z.board.now == s.board.now && z.board.cron == s.board.cron && z.front.keys == DbRemember(db, t, rec).keys
    && z.front.creates == s.front.creates[n := Create(r, rec.envelope, EndOf(DbRespond(db, t, rec)))]
    && z.front.jobIds == s.front.jobIds[n := n]
    && z.board.issued.Keys <= s.board.issued.Keys + {n} && z.projection.Keys <= s.projection.Keys + {n}
    && z.board.jobs == if t in db.keys || ScopeOf(t) in db.taken then s.board.jobs
                       else s.board.jobs[n := NewRow(s, r, n, n)]
  }

  lemma ServeExisting(s: System, n: nat, r: Request, db: Database) returns (z: System)
    requires Admissible(r) && Unused(s, n) && Holds(s, db, r) && TripleOf(r) in db.keys
    ensures Reach(s, z) && Served(s, n, r, db, z)
  {
    var x := Apply(s, Intake(n, Receive(r, n)));
    var y := Apply(x, Intake(n, RecordKey));
    z := Apply(y, Intake(n, FetchKey));
    ReachStep(s, Intake(n, Receive(r, n)));
    ReachMore(s, x, Intake(n, RecordKey));
    ReachMore(s, y, Intake(n, FetchKey));
  }

  lemma ServeRefused(s: System, n: nat, r: Request, db: Database) returns (z: System)
    requires Admissible(r) && Unused(s, n) && Holds(s, db, r)
    requires TripleOf(r) !in db.keys && ScopeOf(TripleOf(r)) in db.taken
    ensures Reach(s, z) && Served(s, n, r, db, z)
  {
    var x := Apply(s, Intake(n, Receive(r, n)));
    var y := Apply(x, Intake(n, RecordKey));
    z := Apply(y, Intake(n, InsertJob(n)));
    ReachStep(s, Intake(n, Receive(r, n)));
    ReachMore(s, x, Intake(n, RecordKey));
    ReachMore(s, y, Intake(n, InsertJob(n)));
  }

  lemma ServeAccepted(s: System, n: nat, r: Request, db: Database) returns (z: System)
    requires Admissible(r) && Unused(s, n) && Holds(s, db, r)
    requires TripleOf(r) !in db.keys && ScopeOf(TripleOf(r)) !in db.taken
    ensures Reach(s, z) && Served(s, n, r, db, z)
  {
    var y := NewJob(s, n, r, n, n);
    z := Apply(y, Intake(n, InsertRead));
    ReachMore(s, y, Intake(n, InsertRead));
  }

  /** A request that is served while nothing else happens is answered as the sequential handler answers it. */
  lemma ServeOne(s: System, n: nat, r: Request, db: Database) returns (z: System)
    requires Admissible(r) && Unused(s, n) && Holds(s, db, r)
    ensures Reach(s, z) && Served(s, n, r, db, z)
  {
    if TripleOf(r) in db.keys {
      z := ServeExisting(s, n, r, db);
    } else if ScopeOf(TripleOf(r)) in db.taken {
      z := ServeRefused(s, n, r, db);
    } else {
      z := ServeAccepted(s, n, r, db);
    }
  }

  /** Job `n` has this scope. */
  predicate JobIn(b: Board, j: JobId, sc: Scope)
  {
    j in b.jobs && b.jobs[j].spec.tenant == sc.tenant && b.jobs[j].spec.key == sc.key
  }

  /** The state after these requests have been served one after the other. */
  ghost predicate Serial(s: System, rs: seq<Request>, now: Time)
  {
    var ts, recs := TriplesOf(rs), FreshRecords(rs, now);
    && s.board.now == now && s.front.keys == DbStore(ts, recs).keys
    && (forall sc :: sc in DbStore(ts, recs).taken <==> exists j :: JobIn(s.board, j, sc))
    && (forall n: nat :: n >= |rs| ==> Unused(s, n))
    && (forall j :: j in s.board.jobs ==> j in s.front.creates && s.front.creates[j].at.Responded?)
    && forall c: nat :: c < |rs| ==>
         c in s.front.creates && s.front.creates[c].request == rs[c] && s.front.creates[c].at == EndOf(DbReplyAt(ts, recs, c))
  }

  lemma SerialHolds(s: System, rs: seq<Request>, now: Time, r: Request)
    requires Serial(s, rs, now)
    ensures Holds(s, DbStore(TriplesOf(rs), FreshRecords(rs, now)), r)
  {
    var sc := ScopeOf(TripleOf(r));
    if KeyTaken(s.board, r) {
      var j :| j in s.board.jobs && s.board.jobs[j].spec.tenant == r.tenant && s.board.jobs[j].spec.key == r.key;
      assert JobIn(s.board, j, sc);
    }
    if j :| JobIn(s.board, j, sc) {
      assert s.board.jobs[j].spec.tenant == r.tenant;
    }
  }

  /** One more request changes nothing about the replies to those before it. */
  lemma DbExtends(rs: seq<Request>, r: Request, now: Time)
    ensures var all, db := rs + [r], DbStore(TriplesOf(rs), FreshRecords(rs, now));
            var ts, recs := TriplesOf(all), FreshRecords(all, now);
            && DbStore(ts, recs) == DbRemember(db, TripleOf(r), FreshRecord(r, |rs|, now))
            && DbReplyAt(ts, recs, |rs|) == DbRespond(db, TripleOf(r), FreshRecord(r, |rs|, now))
            && forall c: nat :: c < |rs| ==> DbReplyAt(ts, recs, c) == DbReplyAt(TriplesOf(rs), FreshRecords(rs, now), c)
  {
    var all, n := rs + [r], |rs|;
    var ts, recs := TriplesOf(all), FreshRecords(all, now);
    assert ts[..n] == TriplesOf(rs) && recs[..n] == FreshRecords(rs, now);
    forall c: nat | c < n ensures DbReplyAt(ts, recs, c) == DbReplyAt(TriplesOf(rs), FreshRecords(rs, now), c) {
      assert ts[..c] == TriplesOf(rs)[..c] && recs[..c] == FreshRecords(rs, now)[..c];
    }
  }

  lemma SerialCreates(s: System, rs: seq<Request>, now: Time, r: Request, z: System, c: nat)
    requires Serial(s, rs, now) && Served(s, |rs|, r, DbStore(TriplesOf(rs), FreshRecords(rs, now)), z) && c <= |rs|
    ensures c in z.front.creates && z.front.creates[c].request == (rs + [r])[c]
    ensures z.front.creates[c].at == EndOf(DbReplyAt(TriplesOf(rs + [r]), FreshRecords(rs + [r], now), c))
  {
    DbExtends(rs, r, now);
  }

  lemma SerialUnused(s: System, n: nat, r: Request, db: Database, z: System, m: nat)
    requires Served(s, n, r, db, z) && Unused(s, m) && m != n
    ensures Unused(z, m)
  {
  }

  lemma SerialJobs(s: System, rs: seq<Request>, now: Time, r: Request, z: System, j: JobId)
    requires Serial(s, rs, now) && Served(s, |rs|, r, DbStore(TriplesOf(rs), FreshRecords(rs, now)), z)
    requires j in z.board.jobs
    ensures j in z.front.creates && z.front.creates[j].at.Responded?
  {
    assert Unused(s, |rs|);
  }

  lemma SerialNext(s: System, rs: seq<Request>, now: Time, r: Request, z: System)
    requires Serial(s, rs, now) && Served(s, |rs|, r, DbStore(TriplesOf(rs), FreshRecords(rs, now)), z)
    ensures Serial(z, rs + [r], now)
  {
    DbExtends(rs, r, now);
    SerialScopes(s, rs, now, r, z);
    forall c: nat | c <= |rs|
      ensures c in z.front.creates && z.front.creates[c].request == (rs + [r])[c]
      ensures z.front.creates[c].at == EndOf(DbReplyAt(TriplesOf(rs + [r]), FreshRecords(rs + [r], now), c))
    {
      SerialCreates(s, rs, now, r, z, c);
    }
    forall j | j in z.board.jobs ensures j in z.front.creates && z.front.creates[j].at.Responded? {
      SerialJobs(s, rs, now, r, z, j);
    }
    forall m: nat | m > |rs| ensures Unused(z, m) {
      SerialUnused(s, |rs|, r, DbStore(TriplesOf(rs), FreshRecords(rs, now)), z, m);
    }
  }

  lemma SerialScopes(s: System, rs: seq<Request>, now: Time, r: Request, z: System)
    requires Serial(s, rs, now) && Served(s, |rs|, r, DbStore(TriplesOf(rs), FreshRecords(rs, now)), z)
    ensures var db := DbStore(TriplesOf(rs), FreshRecords(rs, now));
            forall sc :: sc in DbRemember(db, TripleOf(r), FreshRecord(r, |rs|, now)).taken <==> exists j :: JobIn(z.board, j, sc)
  {
    var db, n := DbStore(TriplesOf(rs), FreshRecords(rs, now)), |rs|;
    assert Unused(s, n);
    forall sc ensures sc in DbRemember(db, TripleOf(r), FreshRecord(r, n, now)).taken <==> exists j :: JobIn(z.board, j, sc) {
      if j :| JobIn(s.board, j, sc) {
        assert JobIn(z.board, j, sc);
      }
      if j :| JobIn(z.board, j, sc) {
        assert j != n ==> JobIn(s.board, j, sc);
      }
      if TripleOf(r) !in db.keys && ScopeOf(TripleOf(r)) !in db.taken {
        assert JobIn(z.board, n, ScopeOf(TripleOf(r)));
      }
    }
  }

  lemma ServeNext(s: System, rs: seq<Request>, now: Time, r: Request) returns (z: System)
    requires Serial(s, rs, now) && Admissible(r)
    ensures Reach(s, z) && z.board.cron == s.board.cron && Serial(z, rs + [r], now)
  {
    SerialHolds(s, rs, now, r);
    assert Unused(s, |rs|);
    z := ServeOne(s, |rs|, r, DbStore(TriplesOf(rs), FreshRecords(rs, now)));
    SerialNext(s, rs, now, r, z);
  }

  /** Any requests can be served one after the other from an empty database, and then each call ends exactly as the
      sequential database handler says: with its answer, or broken. */
  lemma {:induction false} SerialRun(cron: CronTable, rs: seq<Request>, now: Time) returns (z: System)
    requires forall i :: 0 <= i < |rs| ==> Admissible(rs[i])
    ensures Reachable(z) && z.board.cron == cron && Serial(z, rs, now)
  {
    if rs == [] {
      z := Start(now, cron);
      StartReachable(now, cron);
    } else {
      var n := |rs| - 1;
      var y := SerialRun(cron, rs[..n], now);
      z := ServeNext(y, rs[..n], now, rs[n]);
      assert rs == rs[..n] + [rs[n]];
      ReachableOn(y, z);
    }
  }

  /** Any two requests of one tenant that share a key but not a path: on the database the second call fails and
      leaves a record without a job, in memory it is accepted as new. */
  lemma CrossPathKeyOrphans(cron: CronTable, a: Request, b: Request, now: Time) returns (z: System)
    requires Admissible(a) && Admissible(b)
    requires a.tenant == b.tenant && a.key == b.key && a.pathKey != b.pathKey
    ensures Reachable(z) && z.board.cron == cron && 1 in z.front.creates && z.front.creates[1].request == b
    ensures z.front.creates[1].at.Broken? && TripleOf(b) in z.front.keys && 1 !in z.board.jobs && KeyTaken(z.board, b)
    ensures AnswerAt(MapKeys([TripleOf(a), TripleOf(b)]), FreshRecords([a, b], now), 1)
         == Answer(FreshRecord(b, 1, now), false, false)
  {
    var rs := [a, b];
    z := SerialRun(cron, rs, now);
    var ts, recs := TriplesOf(rs), FreshRecords(rs, now);
    assert ts == [TripleOf(a), TripleOf(b)];
    CrossPathDisagrees(TripleOf(a), TripleOf(b), recs);
    SerialHolds(z, rs, now, b);
    DbStoreHolds(ts, recs, ScopeOf(TripleOf(b)));
    StoreHoldsFirst(ts, recs, TripleOf(b));
    assert ScopeOf(ts[0]) == ScopeOf(TripleOf(b)) && ts[1] in ts;
  }
}
