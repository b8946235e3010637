/** What connectors answer, and the health polling loop of the infrastructure module. */
module HealthPolling {
  import opened Options

  /** A dynamically typed value in a connector's output. */
  datatype Datum = Text(s: string) | Flag(b: bool) | Record(fields: map<string, Datum>) | Other

  /** `ConnectorResult`: calls never fail otherwise. A missing output reads like an empty one. */
  datatype Reply = Reply(status: string, error: Option<string>, output: map<string, Datum>)

  /** A field as a string, or nothing when it is missing or of another type. */
  function TextField(fields: map<string, Datum>, key: string): Option<string>
  {
    if key in fields && fields[key].Text? then Some(fields[key].s) else None
  }

  function FlagField(fields: map<string, Datum>, key: string): Option<bool>
  {
    if key in fields && fields[key].Flag? then Some(fields[key].b) else None
  }

  /** What the status file says after parsing, by either parser. */
  datatype Report = Report(status: string, sha: string)

  /** Everything one polling round meets: the time since its start and whether the context is
      cancelled at the top of each iteration, what each read answers, whether the context is
      cancelled during the wait that follows. */
  datatype Round = Round(
    elapsed: nat -> int,
    cancelled: nat -> bool,
    read: nat -> Reply,
    waitCancelled: nat -> bool,
    parse: string -> Report)

  /** The clock: every pass through the loop waits at least one interval. */
  ghost predicate Paced(w: Round, interval: int)
  {
    w.elapsed(0) >= 0 && forall k: nat :: w.elapsed(k) + interval <= w.elapsed(k + 1)
  }

  datatype Finding = Healthy(sha: string) | Cancelled | TimedOut | BadContent | WrongCommit

  /** What a read that was answered settles, if anything. */
  function Judge(w: Round, reply: Reply, sha: string): Option<Finding>
  {
    if reply.status == "error" then None
    else match TextField(reply.output, "content")
      case None => Some(BadContent)
      case Some(content) =>
        var report := w.parse(content);
        if report.sha != sha then Some(WrongCommit)
        else if report.status == "healthy" then Some(Healthy(report.sha))
        else None
  }

  predicate ReadsAt(w: Round, k: nat, timeout: int)
  {
    !w.cancelled(k) && w.elapsed(k) <= timeout
  }

  /** How iteration `k` ends the loop, if it does. */
  function Verdict(w: Round, k: nat, sha: string, timeout: int): Option<Finding>
  {
    if w.cancelled(k) then Some(Cancelled)
    else if w.elapsed(k) > timeout then Some(TimedOut)
    else match Judge(w, w.read(k), sha)
      case Some(f) => Some(f)
      case None => if w.waitCancelled(k) then Some(Cancelled) else None
  }

  /** Iteration `k` is the first to end the loop, and ends it with `f`. */
  ghost predicate EndsAt(w: Round, k: nat, f: Finding, sha: string, timeout: int)
  {
    Verdict(w, k, sha, timeout) == Some(f) && forall j: nat :: j < k ==> Verdict(w, j, sha, timeout) == None
  }

  /** Iteration `k` is in time, is not cancelled, and its read reports the polled commit healthy. */
  ghost predicate ReportsHealthy(w: Round, k: nat, sha: string, timeout: int)
  {
    && !w.cancelled(k) && w.elapsed(k) <= timeout && w.read(k).status != "error"
    && "content" in w.read(k).output && w.read(k).output["content"].Text?
    && w.parse(w.read(k).output["content"].s) == Report("healthy", sha)
  }

  /** Iteration `j` is in time, is not cancelled, and leaves the matter open: the file is not there yet, or reports
      that the polled commit is not healthy yet. */
  ghost predicate LeavesOpen(w: Round, j: nat, sha: string, timeout: int)
  {
    && !w.cancelled(j) && w.elapsed(j) <= timeout && !w.waitCancelled(j)
    && (w.read(j).status == "error" ||
        (&& "content" in w.read(j).output && w.read(j).output["content"].Text?
         && w.parse(w.read(j).output["content"].s).sha == sha
         && w.parse(w.read(j).output["content"].s).status != "healthy"))
  }

  /** The round finds the commit healthy: some read reports the polled commit healthy in time, and all
      iterations before it left the matter open. */
  ghost predicate FindsHealthy(w: Round, sha: string, timeout: int)
  {
    exists k: nat :: ReportsHealthy(w, k, sha, timeout) && forall j: nat :: j < k ==> LeavesOpen(w, j, sha, timeout)
  }

  lemma OpenIff(w: Round, j: nat, sha: string, timeout: int)
    ensures LeavesOpen(w, j, sha, timeout) <==> Verdict(w, j, sha, timeout) == None
    ensures ReportsHealthy(w, j, sha, timeout) <==> Verdict(w, j, sha, timeout) == Some(Healthy(sha))
  {
  }

  /** The round finds the commit healthy exactly when some iteration ends the loop with that finding. */
  lemma FindsIff(w: Round, sha: string, timeout: int)
    ensures FindsHealthy(w, sha, timeout) <==> exists k: nat :: EndsAt(w, k, Healthy(sha), sha, timeout)
  {
    if FindsHealthy(w, sha, timeout) {
      var k: nat :| ReportsHealthy(w, k, sha, timeout) && forall j: nat :: j < k ==> LeavesOpen(w, j, sha, timeout);
      OpenIff(w, k, sha, timeout);
      forall j: nat | j < k ensures Verdict(w, j, sha, timeout) == None {
        OpenIff(w, j, sha, timeout);
      }
      assert EndsAt(w, k, Healthy(sha), sha, timeout);
    }
    if k: nat :| EndsAt(w, k, Healthy(sha), sha, timeout) {
      OpenIff(w, k, sha, timeout);
      forall j: nat | j < k ensures LeavesOpen(w, j, sha, timeout) {
        OpenIff(w, j, sha, timeout);
      }
    }
  }

  lemma EndsOnce(w: Round, j: nat, f: Finding, k: nat, g: Finding, sha: string, timeout: int)
    requires EndsAt(w, j, f, sha, timeout) && EndsAt(w, k, g, sha, timeout)
    ensures j == k && f == g
  {
  }

  lemma {:induction false} TimePasses(w: Round, interval: int, k: nat)
    requires Paced(w, interval)
    ensures w.elapsed(k) >= k * interval
  {
    if k > 0 {
      TimePasses(w, interval, k - 1);
      assert w.elapsed(k - 1) + interval <= w.elapsed(k - 1 + 1);
      assert (k - 1) * interval + interval == k * interval;
    }
  }

  /** `pollHealthStatus`. The number of reads is bounded by the timeout; a healthy finding names the
      commit that was polled for. */
  method PollHealth(w: Round, sha: string, timeout: int, interval: int) returns (f: Finding, n: nat)
    requires interval > 0 && Paced(w, interval)
    ensures exists k: nat :: EndsAt(w, k, f, sha, timeout) && n == (if ReadsAt(w, k, timeout) then k + 1 else k)
    ensures f.Healthy? ==> f.sha == sha
    ensures f.Healthy? <==> FindsHealthy(w, sha, timeout)
    ensures n > 0 ==> (n - 1) * interval <= timeout
  {
    n := 0;
    ghost var k: nat := 0;
    while true
      invariant n == k
      invariant forall j: nat :: j < k ==> Verdict(w, j, sha, timeout) == None
      invariant n > 0 ==> (n - 1) * interval <= timeout
      decreases timeout - w.elapsed(k)
    {
      TimePasses(w, interval, k);
      if w.cancelled(n) {
        f := Cancelled;
        break;
      }
      if w.elapsed(n) > timeout {
        f := TimedOut;
        break;
      }
      var reply := w.read(n);
      n := n + 1;
      if reply.status != "error" {
        var content := TextField(reply.output, "content");
        if content.None? {
          f := BadContent;
          break;
        }
        var report := w.parse(content.value);
        if report.sha != sha {
          f := WrongCommit;
          break;
        }
        if report.status == "healthy" {
          f := Healthy(report.sha);
          break;
        }
      }
      if w.waitCancelled(n - 1) {
        f := Cancelled;
        break;
      }
      assert Verdict(w, k, sha, timeout) == None;
      k := k + 1;
    }
    assert EndsAt(w, k, f, sha, timeout);
    FindsIff(w, sha, timeout);
    if FindsHealthy(w, sha, timeout) {
      var j: nat :| EndsAt(w, j, Healthy(sha), sha, timeout);
      EndsOnce(w, j, Healthy(sha), k, f, sha, timeout);
    }
  }

  const HEALTH_TIMEOUT := 30000
  const POLL_INTERVAL := 500

  /** `checkHealth`: thirty seconds at two reads a second, whatever the module is configured with. */
  method CheckHealth(w: Round, sha: string) returns (f: Finding, n: nat)
    requires Paced(w, POLL_INTERVAL)
    ensures f.Healthy? <==> FindsHealthy(w, sha, HEALTH_TIMEOUT)
    ensures f.Healthy? ==> f.sha == sha
    ensures n <= 61
  {
    f, n := PollHealth(w, sha, HEALTH_TIMEOUT, POLL_INTERVAL);
  }

  /** Sixty-one reads are really possible: a punctual clock and a file that never appears. */
  lemma SixtyOneReads() returns (w: Round)
    ensures Paced(w, POLL_INTERVAL)
    ensures forall sha :: EndsAt(w, 61, TimedOut, sha, HEALTH_TIMEOUT)
    ensures forall k: nat :: k < 61 ==> ReadsAt(w, k, HEALTH_TIMEOUT)
  {
    w := Round(k => POLL_INTERVAL * k, _ => false, _ => Reply("error", None, map[]), _ => false, _ => Report("", ""));
  }

  /** A status file left over from another commit ends the round at once: the commit is found healthy
      only if no earlier read shows a report about a different one. */
  lemma StaleReportEndsRound(w: Round, k: nat, sha: string, timeout: int)
    requires EndsAt(w, k, Healthy(sha), sha, timeout)
    ensures forall j: nat :: j < k && w.read(j).status != "error" ==>
      TextField(w.read(j).output, "content").Some? && w.parse(TextField(w.read(j).output, "content").value).sha == sha
  {
    forall j: nat | j < k && w.read(j).status != "error"
      ensures TextField(w.read(j).output, "content").Some?
           && w.parse(TextField(w.read(j).output, "content").value).sha == sha
    {
      assert Verdict(w, j, sha, timeout) == None;
    }
  }
}
