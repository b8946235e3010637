/** The read projection `jobs_read`: copied by statements of its own, it lags behind `jobs` but
    never invents a row and never goes back in time. */
module ReadProjection {
  import opened Intake
  import opened JobTable
  import opened JobProtocol
  import opened ProtocolInvariants
  import opened Attempts

  /** `src[i]` names a state no later than the i-th whose `jobs` row is what `jobs_read` shows at i;
      it never decreases. Before the first copy it is 0. */
  ghost predicate Sourced(states: seq<System>, j: JobId, src: seq<nat>)
  {
    && |src| == |states|
    && (forall i :: 0 <= i < |src| ==> SourceAt(states, j, i, src[i]))
    && (forall i, k :: 0 <= i <= k < |src| ==> src[i] <= src[k])
  }

  ghost predicate SourceAt(states: seq<System>, j: JobId, i: nat, from: nat)
    requires i < |states|
  {
    && from <= i
    && (j !in states[i].projection ==> from == 0)
    && (j in states[i].projection ==> Shows(states[i], states[from], j))
  }

  /** The read row has, column by column, what the job row has. */
  predicate SameColumns(v: ReadRow, row: JobRow)
  {
    && v.tenant == row.spec.tenant && v.pathKey == row.spec.pathKey && v.schedule == row.spec.schedule
    && v.maxAttempts == row.spec.maxAttempts && v.acceptedAt == row.spec.acceptedAt && v.createdAt == row.spec.createdAt
    && v.state == row.state && v.attempt == row.attempt && v.owner == row.owner && v.runId == row.runId
    && v.lease == row.lease && v.nextRunAt == row.nextRunAt && v.error == row.error
    && v.startedAt == row.startedAt && v.finishedAt == row.finishedAt && v.updatedAt == row.updatedAt
  }

  predicate Shows(s: System, source: System, j: JobId)
  {
    j in s.projection && j in source.board.jobs && SameColumns(s.projection[j], source.board.jobs[j])
  }

  /** Column by column, the copy loses nothing. */
  lemma ProjectKeepsColumns(row: JobRow)
    ensures SameColumns(Project(row), row)
  {
  }

  /** And columns say it all: there is one read row for a job row. */
  lemma ColumnsDetermine(v: ReadRow, row: JobRow)
    requires SameColumns(v, row)
    ensures v == Project(row)
  {
  }

  /** The columns intake still holds in memory are those of a row `jobs` has held. */
  lemma {:induction false} InsertedRowWasThere(states: seq<System>, acts: seq<Action>, i: nat, c: nat) returns (k: nat)
    requires IsRun(states, acts) && i < |states|
    requires c in states[i].front.creates && states[i].front.creates[c].at.Inserted?
    ensures k <= i
    ensures var cr := states[i].front.creates[c];
            cr.envelope.jobId in states[k].board.jobs && states[k].board.jobs[cr.envelope.jobId] == cr.at.row
    decreases i
  {
    if i == 0 {
      assert false;
    } else {
      var s, a := states[i - 1], acts[i - 1];
      assert Next(s, a, states[i]);
      CreateStep(s, a, c);
      if a.Intake? && a.c == c && a.intake.InsertJob? {
        k := i;
      } else {
        k := InsertedRowWasThere(states, acts, i - 1, c);
      }
    }
  }

  /** A call is past its job insert only if it was before, or has just made that insert. */
  lemma CreateStep(s: System, a: Action, c: nat)
    requires Enabled(s, a) && c in FrontAfter(s, a).creates && FrontAfter(s, a).creates[c].at.Inserted?
    ensures c in s.front.creates && FrontAfter(s, a).creates[c].envelope == s.front.creates[c].envelope
    ensures var cr, j := FrontAfter(s, a).creates[c], s.front.creates[c].envelope.jobId;
            if a.Intake? && a.c == c && a.intake.InsertJob?
            then j in BoardAfter(s, a).jobs && BoardAfter(s, a).jobs[j] == cr.at.row
            else s.front.creates[c] == cr
  {
  }

  /** The effect of one action on one read row. */
  lemma ProjectionStep(s: System, a: Action, j: JobId)
    requires Enabled(s, a) && ProjectionInv(s.board, s.projection)
    ensures j in s.projection ==> j in ProjectionAfter(s, a)
    ensures j in ProjectionAfter(s, a) && (j !in s.projection || ProjectionAfter(s, a)[j] != s.projection[j]) ==>
              || (a.Intake? && a.intake.InsertRead? && j !in s.projection
                  && s.front.creates[a.c].envelope.jobId == j
                  && ProjectionAfter(s, a)[j] == Project(s.front.creates[a.c].at.row))
              || (a.Run? && a.act.CopyRow? && j in s.board.jobs && ProjectionAfter(s, a)[j] == Project(s.board.jobs[j]))
  {
  }

  lemma ExtendSource(states: seq<System>, j: JobId, src: seq<nat>, from: nat)
    requires |states| >= 2 && Sourced(states[..|states| - 1], j, src)
    requires SourceAt(states, j, |states| - 1, from) && src[|src| - 1] <= from
    ensures Sourced(states, j, src + [from])
  {
    var n := |states| - 1;
    forall i | 0 <= i < n ensures SourceAt(states, j, i, src[i]) {
      assert SourceAt(states[..n], j, i, src[i]);
    }
  }

  /** In every run each read row equals a row `jobs` really held, and successive contents of a
      read row come from ever later states, also when intake's insert races a finaliser's copy. */
  lemma {:induction false} ProjectionNeverGoesBack(states: seq<System>, acts: seq<Action>, j: JobId) returns (src: seq<nat>)
    requires IsRun(states, acts)
    ensures Sourced(states, j, src)
    decreases |acts|
  {
    if acts == [] {
      src := [0];
    } else {
      var n := |acts| - 1;
      assert IsRun(states[..n + 1], acts[..n]) by {
        assert forall i :: 0 <= i < n ==> Next(states[i], acts[i], states[i + 1]);
      }
      src := ProjectionNeverGoesBack(states[..n + 1], acts[..n], j);
      var from := NextSource(states, acts, j, src[n]) by {
        assert SourceAt(states[..n + 1], j, n, src[n]);
      }
      ExtendSource(states, j, src, from);
      src := src + [from];
    }
  }

  lemma NextSource(states: seq<System>, acts: seq<Action>, j: JobId, at: nat) returns (from: nat)
    requires IsRun(states, acts) && |acts| > 0 && SourceAt(states, j, |acts| - 1, at)
    ensures SourceAt(states, j, |acts|, from) && at <= from
  {
    var n := |acts| - 1;
    var s, a, s' := states[n], acts[n], states[n + 1];
    assert Next(s, a, s');
    InvAlways(states, acts, n);
    ProjectionStep(s, a, j);
    if j !in s'.projection || (j in s.projection && s'.projection[j] == s.projection[j]) {
      from := at;
    } else if a.Run? {
      from := n;
      ProjectKeepsColumns(s.board.jobs[j]);
    } else {
      from := InsertedRowWasThere(states, acts, n, a.c);
      ProjectKeepsColumns(s.front.creates[a.c].at.row);
    }
  }

  // ---------------------------------------------------------------------------------------
  // After the end of a job
  // ---------------------------------------------------------------------------------------

  ghost predicate SettledTerminal(s: System, j: JobId)
  {
    j in s.board.jobs && s.board.jobs[j].state.Terminal() && Shows(s, s, j)
  }

  lemma StepKeepsSettled(s: System, a: Action, j: JobId)
    requires Enabled(s, a) && SettledTerminal(s, j)
    ensures SettledTerminal(Apply(s, a), j)
  {
    StepSparesTerminal(s, a, j);
    ColumnsDetermine(s.projection[j], s.board.jobs[j]);
    assert j in ProjectionAfter(s, a) && ProjectionAfter(s, a)[j] == s.projection[j];
  }

  lemma {:induction false} SettledForEver(states: seq<System>, acts: seq<Action>, i: nat, k: nat, j: JobId)
    requires Steps(states, acts) && i <= k < |states| && SettledTerminal(states[i], j)
    ensures SettledTerminal(states[k], j)
    decreases k
  {
    if i < k {
      SettledForEver(states, acts, i, k - 1, j);
      assert Next(states[k - 1], acts[k - 1], states[k]);
      StepKeepsSettled(states[k - 1], acts[k - 1], j);
    }
  }

  /** Once the copy after a terminal finalise has run, `jobs_read` and `jobs` agree on that job
      for ever. */
  lemma CopySettles(states: seq<System>, acts: seq<Action>, i: nat, k: nat, r: RunId)
    requires IsRun(states, acts) && i < k < |states| && acts[i] == Run(r, CopyRow)
    requires r in states[i].board.runners && states[i].board.runners[r].job in states[i].board.jobs
    requires states[i].board.jobs[states[i].board.runners[r].job].state.Terminal()
    ensures SettledTerminal(states[k], states[i].board.runners[r].job)
  {
    var j := states[i].board.runners[r].job;
    InvAlways(states, acts, i);
    assert Next(states[i], acts[i], states[i + 1]);
    StepSparesTerminal(states[i], acts[i], j);
    ProjectKeepsColumns(states[i].board.jobs[j]);
    SettledForEver(states, acts, i + 1, k, j);
  }
}
