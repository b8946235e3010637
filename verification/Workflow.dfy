/** The infrastructure module's provisioning workflow, over every answer its connectors can give. */
module Workflow {
  import opened Options
  import opened HealthPolling

  /** What the workflow is asked to do. */
  datatype Request = Request(
    hasStep: bool,             // the runner passed a step API
    decodes: bool,             // the parameters decode
    renders: bool,             // the manifests render
    requiresApproval: bool,    // the catalogue item requires approval
    skipApproval: bool,
    skipHealth: bool,
    callback: Option<string>)  // callback_url, when it is present and a string

  datatype ApprovalReply = WaitFailed | Decided(decision: string)

  /** Every answer of the outside world. */
  datatype World = World(
    policy: Reply,
    approval: ApprovalReply,
    commit: Reply,
    first: Round,
    recommit: Reply,
    second: Round)

  ghost predicate Timely(w: World)
  {
    Paced(w.first, POLL_INTERVAL) && Paced(w.second, POLL_INTERVAL)
  }

  /** What the workflow does to the outside world. */
  datatype Event =
    | PolicyAsked(allowed: bool)
    | ApprovalAsked(granted: bool)
    | CommitAsked
    | StatusRead
    | CallbackPosted(url: string, succeeded: bool, sha: string)

  datatype Outcome = Done | Failed | FailedForGood | Panicked

  // ---------------------------------------------------------------------------------------
  // Reading connector answers
  // ---------------------------------------------------------------------------------------

  /** How the code reads `allowed`: at the top of the output or, if it is not a boolean there, one level down. */
  predicate Allowed(r: Reply)
  {
    match FlagField(r.output, "allowed")
    case Some(b) => b
    case None =>
      && "output" in r.output && r.output["output"].Record?
      && FlagField(r.output["output"].fields, "allowed") == Some(true)
  }

  /** The revision a commit names: the text under `commit_sha`, if there is one. */
  function ShaOf(r: Reply): string
  {
    if "commit_sha" in r.output && r.output["commit_sha"].Text? then r.output["commit_sha"].s else ""
  }

  /** A commit changed something unless it says that it did not. */
  predicate Changed(r: Reply)
  {
    !("changed" in r.output && r.output["changed"] == Flag(false))
  }

  // ---------------------------------------------------------------------------------------
  // What must happen, said without the order of the steps
  // ---------------------------------------------------------------------------------------

  predicate NeedsApproval(q: Request)
  {
    q.requiresApproval && !q.skipApproval
  }

  /** The policy's answer has no error and its flag `allowed` is true; the flag counts where it is a boolean, and only
      if it is none there, in the record under `output`. */
  predicate PolicyPasses(w: World)
  {
    && w.policy.error == None
    && var out := w.policy.output;
       if "allowed" in out && out["allowed"].Flag? then out["allowed"] == Flag(true)
       else
         && "output" in out && out["output"].Record?
         && "allowed" in out["output"].fields && out["output"].fields["allowed"] == Flag(true)
  }

  predicate Granted(w: World)
  {
    w.approval == Decided("approved")
  }

  /** The workflow gets as far as its first commit. */
  predicate Reaches(q: Request, w: World)
  {
    q.hasStep && q.decodes && q.renders && PolicyPasses(w) && (NeedsApproval(q) ==> Granted(w))
  }

  /** The first commit succeeds and names a revision. */
  predicate Commits(q: Request, w: World)
  {
    Reaches(q, w) && w.commit.status == "success" && ShaOf(w.commit) != ""
  }

  predicate Polls(q: Request, w: World)
  {
    Commits(q, w) && Changed(w.commit) && !q.skipHealth
  }

  ghost predicate FirstHealthy(w: World)
  {
    FindsHealthy(w.first, ShaOf(w.commit), HEALTH_TIMEOUT)
  }

  /** The recommit is judged by its revision alone, not by its status. */
  ghost predicate Remediates(w: World)
  {
    ShaOf(w.recommit) != "" && FindsHealthy(w.second, ShaOf(w.recommit), HEALTH_TIMEOUT)
  }

  /** Committed, and either nothing had to be checked or one of the two rounds found it healthy. */
  ghost predicate Provisions(q: Request, w: World)
  {
    Commits(q, w) && (Polls(q, w) ==> FirstHealthy(w) || Remediates(w))
  }

  // ---------------------------------------------------------------------------------------
  // Traces
  // ---------------------------------------------------------------------------------------

  function CommitCount(t: seq<Event>): nat
  {
    if t == [] then 0 else CommitCount(t[..|t| - 1]) + if t[|t| - 1].CommitAsked? then 1 else 0
  }

  /** The callbacks of a trace, in order. */
  function Posted(t: seq<Event>): seq<Event>
  {
    if t == [] then [] else Posted(t[..|t| - 1]) + if t[|t| - 1].CallbackPosted? then [t[|t| - 1]] else []
  }

  /** Both gates have been passed. */
  predicate Passed(q: Request, t: seq<Event>)
  {
    PolicyAsked(true) in t && (NeedsApproval(q) ==> ApprovalAsked(true) in t)
  }

  /** Every commit comes after the policy allowed it and, where needed, after approval. */
  ghost predicate Gated(q: Request, t: seq<Event>)
  {
    forall i :: 0 <= i < |t| && t[i].CommitAsked? ==>
      && PolicyAsked(true) in t[..i]
      && (NeedsApproval(q) ==> ApprovalAsked(true) in t[..i])
  }

  /** Status reads since the last commit. */
  function Burst(t: seq<Event>): nat
  {
    if t == [] then 0
    else match t[|t| - 1]
      case CommitAsked => 0
      case StatusRead => Burst(t[..|t| - 1]) + 1
      case _ => Burst(t[..|t| - 1])
  }

  /** No polling round ever reads more often than the limit. */
  ghost predicate Bounded(t: seq<Event>, limit: nat)
  {
    forall i :: 0 <= i <= |t| ==> Burst(t[..i]) <= limit
  }

  function ReadCount(t: seq<Event>): nat
  {
    if t == [] then 0 else ReadCount(t[..|t| - 1]) + if t[|t| - 1].StatusRead? then 1 else 0
  }

  /** Status is read only after a commit. */
  ghost predicate ReadsAfterCommit(t: seq<Event>)
  {
    forall i :: 0 <= i < |t| && t[i].StatusRead? ==> CommitAsked in t[..i]
  }

  /** The callback, if any, is the last thing that happens. */
  ghost predicate NothingAfterCallback(t: seq<Event>)
  {
    forall i :: 0 <= i < |t| - 1 ==> !t[i].CallbackPosted?
  }

  /** The event may come next: a commit behind both gates, a status read in a round that is not used up. */
  predicate MayFollow(q: Request, t: seq<Event>, e: Event)
  {
    (e.CommitAsked? ==> Passed(q, t)) && (e.StatusRead? ==> Burst(t) < 61 && CommitCount(t) > 0)
  }

  /** Every event of the trace may follow those before it. */
  predicate Sound(q: Request, t: seq<Event>)
  {
    t == [] || (Sound(q, t[..|t| - 1]) && MayFollow(q, t[..|t| - 1], t[|t| - 1]))
  }

  lemma {:induction false} NonePosted(t: seq<Event>)
    ensures Posted(t) == [] <==> forall i :: 0 <= i < |t| ==> !t[i].CallbackPosted?
  {
    if t != [] {
      NonePosted(t[..|t| - 1]);
      assert forall i :: 0 <= i < |t| - 1 ==> t[i] == t[..|t| - 1][i];
    }
  }

  /** One more event. */
  lemma Append(q: Request, t: seq<Event>, e: Event)
    requires Sound(q, t)
    requires e.CommitAsked? ==> Passed(q, t)
    requires e.StatusRead? ==> Burst(t) < 61 && CommitCount(t) > 0
    ensures Sound(q, t + [e])
    ensures CommitCount(t + [e]) == CommitCount(t) + if e.CommitAsked? then 1 else 0
    ensures Posted(t + [e]) == Posted(t) + if e.CallbackPosted? then [e] else []
    ensures Burst(t + [e]) == if e.CommitAsked? then 0 else if e.StatusRead? then Burst(t) + 1 else Burst(t)
    ensures Posted(t) == [] ==> NothingAfterCallback(t + [e])
  {
    var u := t + [e];
    assert u[..|u| - 1] == t;
    NonePosted(t);
  }

  function Reads(n: nat): seq<Event>
  {
    seq(n, _ => StatusRead)
  }

  /** A polling round. */
  lemma {:induction false} AppendReads(q: Request, t: seq<Event>, n: nat)
    requires Sound(q, t) && Burst(t) + n <= 61 && CommitCount(t) > 0
    ensures Sound(q, t + Reads(n))
    ensures CommitCount(t + Reads(n)) == CommitCount(t)
    ensures Posted(t + Reads(n)) == Posted(t)
    ensures Burst(t + Reads(n)) == Burst(t) + n
    decreases n
  {
    if n == 0 {
      assert t + Reads(n) == t;
    } else {
      AppendReads(q, t, n - 1);
      var u := t + Reads(n - 1);
      Append(q, u, StatusRead);
      OneMoreRead(t, n);
    }
  }

  lemma OneMoreRead(t: seq<Event>, n: nat)
    requires n > 0
    ensures t + Reads(n) == t + Reads(n - 1) + [StatusRead]
  {
  }

  /** A polling round, with its reads added to the trace. */
  method Poll(q: Request, round: Round, sha: string, t0: seq<Event>) returns (healthy: bool, t: seq<Event>)
    requires Paced(round, POLL_INTERVAL) && Sound(q, t0) && Passed(q, t0) && CommitCount(t0) > 0 && Burst(t0) == 0
    ensures healthy <==> FindsHealthy(round, sha, HEALTH_TIMEOUT)
    ensures Sound(q, t) && Passed(q, t) && CommitCount(t) == CommitCount(t0) && Posted(t) == Posted(t0)
  {
    var health, n := CheckHealth(round, sha);
    AppendReads(q, t0, n);
    t := t0 + Reads(n);
    healthy := health.Healthy?;
  }

  lemma {:induction false} CommitMeansCount(t: seq<Event>)
    ensures CommitAsked in t <==> CommitCount(t) > 0
  {
    if t != [] {
      CommitMeansCount(t[..|t| - 1]);
      assert t == t[..|t| - 1] + [t[|t| - 1]];
    }
  }

  lemma {:induction false} SoundPrefix(q: Request, t: seq<Event>, i: nat)
    requires Sound(q, t) && i <= |t|
    ensures Sound(q, t[..i])
  {
    if i < |t| {
      SoundPrefix(q, t[..|t| - 1], i);
      assert t[..|t| - 1][..i] == t[..i];
    } else {
      assert t[..i] == t;
    }
  }

  lemma {:induction false} SoundAt(q: Request, t: seq<Event>, i: nat)
    requires Sound(q, t) && i < |t|
    ensures MayFollow(q, t[..i], t[i])
  {
    SoundPrefix(q, t, i + 1);
    assert t[..i + 1][..i] == t[..i];
  }

  lemma {:induction false} SoundCounts(q: Request, t: seq<Event>)
    requires Sound(q, t)
    ensures Burst(t) <= 61
    ensures if CommitCount(t) == 0 then ReadCount(t) == 0 else ReadCount(t) <= 61 * (CommitCount(t) - 1) + Burst(t)
    ensures CommitCount(t) == 0 ==> Burst(t) == 0
  {
    if t != [] {
      SoundCounts(q, t[..|t| - 1]);
    }
  }

  /** What a sound trace means: commits behind the gates, reads behind a commit and at most 61 to a round. */
  lemma SoundMeans(q: Request, t: seq<Event>)
    requires Sound(q, t)
    ensures Gated(q, t) && Bounded(t, 61) && ReadsAfterCommit(t) && ReadCount(t) <= 61 * CommitCount(t)
  {
    forall i | 0 <= i < |t| ensures MayFollow(q, t[..i], t[i]) && (CommitAsked in t[..i] <==> CommitCount(t[..i]) > 0) {
      SoundAt(q, t, i);
      CommitMeansCount(t[..i]);
    }
    forall i | 0 <= i <= |t| ensures Burst(t[..i]) <= 61 {
      SoundPrefix(q, t, i);
      SoundCounts(q, t[..i]);
    }
    SoundCounts(q, t);
  }

  // ---------------------------------------------------------------------------------------
  // The workflow
  // ---------------------------------------------------------------------------------------

  /** `Execute`. It succeeds exactly when everything it has to check checks out, commits only behind the
      policy and approval gates, at most twice, and after a successful commit posts exactly one
      callback, which says `succeeded` exactly when the workflow does. */
  method Execute(q: Request, w: World) returns (o: Outcome, t: seq<Event>)
    requires Timely(w)
    ensures o == Done <==> (if q.hasStep then Provisions(q, w) else q.decodes && q.renders)
    ensures o == Panicked <==> Crashes(q, w)
    ensures o == FailedForGood <==> Reaches(q, w) && w.commit.status == "terminal_error" && w.commit.error.Some?
    ensures Gated(q, t) && Bounded(t, 61) && ReadsAfterCommit(t) && ReadCount(t) <= 61 * CommitCount(t)
    ensures CommitCount(t) == (if !Reaches(q, w) then 0 else if Polls(q, w) && !FirstHealthy(w) then 2 else 1)
    ensures "allowed" in w.policy.output && w.policy.output["allowed"] == Flag(false) ==> CommitCount(t) == 0
    ensures q.hasStep && q.decodes && q.renders && !PolicyPasses(w) ==> o == Failed && CommitCount(t) == 0 && Posted(t) == []
    ensures q.hasStep && NeedsApproval(q) && w.approval != Decided("approved") ==> o == Failed && CommitCount(t) == 0
    ensures Posted(t) == Callbacks(q, w) && NothingAfterCallback(t)
    ensures Commits(q, w) && q.callback.Some? ==> |Posted(t)| == 1 && (Posted(t)[0].succeeded <==> o == Done)
  {
    o, t := Perform(q, w);
    SoundMeans(q, t);
  }

  method Perform(q: Request, w: World) returns (o: Outcome, t: seq<Event>)
    requires Timely(w)
    ensures o == Done <==> (if q.hasStep then Provisions(q, w) else q.decodes && q.renders)
    ensures o == Panicked <==> Crashes(q, w)
    ensures o == FailedForGood <==> Reaches(q, w) && w.commit.status == "terminal_error" && w.commit.error.Some?
    ensures Sound(q, t) && NothingAfterCallback(t)
    ensures CommitCount(t) == (if !Reaches(q, w) then 0 else if Polls(q, w) && !FirstHealthy(w) then 2 else 1)
    ensures Posted(t) == Callbacks(q, w)
  {
    t := [];
    if !q.decodes {
      return Failed, t;
    }
    if !q.renders {
      return Failed, t;
    }
    if !q.hasStep {
      return Done, t;
    }
    var cleared;
    cleared, t := Clear(q, w);
    if !cleared {
      return Failed, t;
    }
    Append(q, t, CommitAsked);
    t := t + [CommitAsked];
    if w.commit.status != "success" {
      if w.commit.status == "terminal_error" {
        if w.commit.error.None? {
          return Panicked, t;
        }
        return FailedForGood, t;
      }
      return Failed, t;
    }
    var sha, changed := "", true;
    if TextField(w.commit.output, "commit_sha").Some? {
      sha := TextField(w.commit.output, "commit_sha").value;
    }
    if FlagField(w.commit.output, "changed").Some? {
      changed := FlagField(w.commit.output, "changed").value;
    }
    if sha == "" {
      return Failed, t;
    }
    if !changed || q.skipHealth {
      o, t := Announce(q, t, sha);
      return;
    }
    o, t := Verify(q, w, sha, t);
  }

  /** The unguarded dereferences: a terminal error without details, or a failure to report with no
      callback address to report it to. */
  ghost predicate Crashes(q: Request, w: World)
  {
    || (Reaches(q, w) && w.commit.status == "terminal_error" && w.commit.error.None?)
    || (Commits(q, w) && !Provisions(q, w) && q.callback.None?)
  }

  /** The callbacks that are owed. A success names the first commit even when it was the second that
      turned healthy; a failure names the last commit there was. */
  ghost function Callbacks(q: Request, w: World): seq<Event>
  {
    if !Commits(q, w) || Crashes(q, w) then []
    else if Provisions(q, w) then [CallbackPosted(q.callback.GetOr(""), true, ShaOf(w.commit))]
    else [CallbackPosted(q.callback.value, false, if ShaOf(w.recommit) != "" then ShaOf(w.recommit) else ShaOf(w.commit))]
  }

  /** Policy evaluation and the approval gate. */
  method Clear(q: Request, w: World) returns (cleared: bool, t: seq<Event>)
    requires q.hasStep && q.decodes && q.renders
    ensures cleared <==> Reaches(q, w)
    ensures Sound(q, t) && CommitCount(t) == 0 && Posted(t) == [] && Burst(t) == 0 && NothingAfterCallback(t)
    ensures cleared ==> Passed(q, t)
  {
    t := [];
    cleared := w.policy.error.None? && Allowed(w.policy);
    Append(q, t, PolicyAsked(cleared));
    t := t + [PolicyAsked(cleared)];
    if cleared && !q.skipApproval && q.requiresApproval {
      cleared := w.approval != WaitFailed && w.approval.decision == "approved";
      Append(q, t, ApprovalAsked(cleared));
      t := t + [ApprovalAsked(cleared)];
    }
  }

  /** Health polling, remediation and the callback. */
  method Verify(q: Request, w: World, sha: string, t0: seq<Event>) returns (o: Outcome, t: seq<Event>)
    requires Timely(w) && Polls(q, w) && sha == ShaOf(w.commit)
    requires Sound(q, t0) && CommitCount(t0) == 1 && Posted(t0) == [] && Burst(t0) == 0 && NothingAfterCallback(t0)
    requires Passed(q, t0)
    ensures o == if Provisions(q, w) then Done else if q.callback.Some? then Failed else Panicked
    ensures Sound(q, t) && CommitCount(t) == (if FirstHealthy(w) then 1 else 2)
    ensures Posted(t) == Callbacks(q, w) && NothingAfterCallback(t)
  {
    var healthy;
    healthy, t := Poll(q, w.first, sha, t0);
    if healthy {
      o, t := Announce(q, t, sha);
    } else {
      o, t := Remediate(q, w, sha, t);
    }
  }

  /** The callbacks of a workflow that remediates. */
  ghost function RemediationCallbacks(q: Request, w: World, sha: string): seq<Event>
  {
    if Remediates(w) then [CallbackPosted(q.callback.GetOr(""), true, sha)]
    else if q.callback.None? then []
    else [CallbackPosted(q.callback.value, false, if ShaOf(w.recommit) != "" then ShaOf(w.recommit) else sha)]
  }

  /** The second commit, its polling round and the callback. */
  method Remediate(q: Request, w: World, sha: string, t0: seq<Event>) returns (o: Outcome, t: seq<Event>)
    requires Paced(w.second, POLL_INTERVAL) && Sound(q, t0) && Passed(q, t0) && Posted(t0) == []
    ensures o == if Remediates(w) then Done else if q.callback.Some? then Failed else Panicked
    ensures Sound(q, t) && CommitCount(t) == CommitCount(t0) + 1 && NothingAfterCallback(t)
    ensures Posted(t) == RemediationCallbacks(q, w, sha)
  {
    Append(q, t0, CommitAsked);
    t := t0 + [CommitAsked];
    var newSha := "";
    if TextField(w.recommit.output, "commit_sha").Some? {
      newSha := TextField(w.recommit.output, "commit_sha").value;
    }
    if newSha == "" {
      o, t := Report(q, t, sha);
      return;
    }
    var healthy;
    healthy, t := Poll(q, w.second, newSha, t);
    if healthy {
      o, t := Announce(q, t, sha);
    } else {
      o, t := Report(q, t, newSha);
    }
  }

  /** The success callback. */
  method Announce(q: Request, t0: seq<Event>, sha: string) returns (o: Outcome, t: seq<Event>)
    requires Sound(q, t0) && Posted(t0) == []
    ensures o == Done && Sound(q, t) && CommitCount(t) == CommitCount(t0) && NothingAfterCallback(t)
    ensures Posted(t) == [CallbackPosted(q.callback.GetOr(""), true, sha)]
  {
    Append(q, t0, CallbackPosted(q.callback.GetOr(""), true, sha));
    t := t0 + [CallbackPosted(q.callback.GetOr(""), true, sha)];
    o := Done;
  }

  /** The failure callback, whose address is taken without checking that it is there. */
  method Report(q: Request, t0: seq<Event>, sha: string) returns (o: Outcome, t: seq<Event>)
    requires Sound(q, t0) && Posted(t0) == []
    ensures o == if q.callback.Some? then Failed else Panicked
    ensures Sound(q, t) && CommitCount(t) == CommitCount(t0) && NothingAfterCallback(t)
    ensures Posted(t) == if q.callback.Some? then [CallbackPosted(q.callback.value, false, sha)] else []
  {
    t := t0;
    if q.callback.None? {
      NonePosted(t0);
      return Panicked, t;
    }
    Append(q, t0, CallbackPosted(q.callback.value, false, sha));
    t := t0 + [CallbackPosted(q.callback.value, false, sha)];
    o := Failed;
  }

  // ---------------------------------------------------------------------------------------
  // Two things the callback gets wrong
  // ---------------------------------------------------------------------------------------

  /** The commit that was found healthy. */
  ghost predicate Verified(w: World, sha: string)
  {
    sha == if FirstHealthy(w) then ShaOf(w.commit) else ShaOf(w.recommit)
  }

  /** A success callback names the commit that was found healthy exactly when no remediation was needed
      or the remediation made the same commit again. */
  lemma SuccessNamesVerifiedCommitIff(q: Request, w: World)
    requires Polls(q, w) && Provisions(q, w)
    ensures |Callbacks(q, w)| == 1 && Callbacks(q, w)[0].succeeded
    ensures Verified(w, Callbacks(q, w)[0].sha) <==> FirstHealthy(w) || ShaOf(w.recommit) == ShaOf(w.commit)
  {
  }

  function Committing(sha: string): Reply
  {
    Reply("success", None, map["commit_sha" := Text(sha)])
  }

  /** A round, on a punctual clock, in which every read reports the given commit healthy. */
  function Reporting(sha: string): Round
  {
    Round(k => POLL_INTERVAL * k, _ => false, _ => Reply("success", None, map["content" := Text("")]),
          _ => false, _ => HealthPolling.Report("healthy", sha))
  }

  lemma ReportingFinds(sha: string, wanted: string)
    ensures FindsHealthy(Reporting(sha), wanted, HEALTH_TIMEOUT) <==> sha == wanted
  {
    var w := Reporting(sha);
    var f := if sha == wanted then Healthy(sha) else WrongCommit;
    FindsIff(w, wanted, HEALTH_TIMEOUT);
    assert EndsAt(w, 0, f, wanted, HEALTH_TIMEOUT);
    if FindsHealthy(w, wanted, HEALTH_TIMEOUT) {
      var k: nat :| EndsAt(w, k, Healthy(wanted), wanted, HEALTH_TIMEOUT);
      EndsOnce(w, 0, f, k, Healthy(wanted), wanted, HEALTH_TIMEOUT);
    }
  }

  function PlainRequest(callback: Option<string>): Request
  {
    Request(true, true, true, false, false, false, callback)
  }

  function AllowedWorld(first: Round, recommit: Reply, second: Round): World
  {
    World(Reply("success", None, map["allowed" := Flag(true)]), WaitFailed, Committing("a"), first, recommit, second)
  }

  /** Commit `a` never turns healthy, its replacement `b` does, and the callback announces `a`. */
  lemma RemediationAnnouncesOldCommit(url: string) returns (w: World)
    ensures Timely(w) && Provisions(PlainRequest(Some(url)), w)
    ensures Callbacks(PlainRequest(Some(url)), w) == [CallbackPosted(url, true, "a")] && !Verified(w, "a")
  {
    w := AllowedWorld(Reporting("b"), Committing("b"), Reporting("b"));
    ReportingFinds("b", "a");
    ReportingFinds("b", "b");
  }

  /** Without a callback address, a failed remediation crashes instead of failing. */
  lemma MissingCallbackCrashes() returns (w: World)
    ensures Timely(w) && Commits(PlainRequest(None), w) && Crashes(PlainRequest(None), w)
  {
    w := AllowedWorld(Reporting("b"), Reply("error", Some("x"), map[]), Reporting("b"));
    ReportingFinds("b", "a");
  }
}
