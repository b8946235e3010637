/** What holds of the approval service in every run: quorum, the event trace of each step, replay
    of decisions, and the independence of a tick from the order it visits the steps in. */
module ApprovalRuns {
  import opened Options
  import opened Text
  import opened ApprovalPolicy
  import opened ApprovalModel

  // ---------------------------------------------------------------------------------------
  // The trace of one step
  // ---------------------------------------------------------------------------------------

  /** The events of one step, in order. */
  function Kinds(es: seq<Event>, k: string): seq<Kind>
  {
    if es == [] then []
    else
      var e := es[|es| - 1];
      Kinds(es[..|es| - 1], k) + if KeyOf(e.job, e.step) == k then [e.kind] else []
  }

  lemma {:induction false} KindsAppend(x: seq<Event>, y: seq<Event>, k: string)
    ensures Kinds(x + y, k) == Kinds(x, k) + Kinds(y, k)
  {
    if y == [] {
      assert x + y == x;
    } else {
      KindsAppend(x, y[..|y| - 1], k);
      assert (x + y)[..|x + y| - 1] == x + y[..|y| - 1];
    }
  }

  lemma KindsOfOne(e: Event, k: string)
    ensures Kinds([e], k) == if KeyOf(e.job, e.step) == k then [e.kind] else []
  {
    assert [e][..0] == [];
  }

  /** How far a step's story has got, judged from its events alone. */
  datatype Phase =
    | Silent
    | Open(escalated: bool, approvals: nat)
    | ClosedApproved
    | ClosedRejected
    | ClosedExpired
    | Malformed
  {
    predicate Closed() { ClosedApproved? || ClosedRejected? || ClosedExpired? }
  }

  /** One request; then decisions and at most one escalation; then at most one closing event,
      which is a rejection, the decision that completes the quorum, or the expiry. */
  function PhaseStep(p: Phase, e: Kind, required: int): Phase
  {
    match (p, e)
    case (Silent, Requested) => Open(false, 0)
    case (Open(esc, n), Decided(d, _, _)) =>
      if d == "rejected" then ClosedRejected
      else if d != "approved" then p
      else if n + 1 >= required then ClosedApproved
      else Open(esc, n + 1)
    case (Open(false, n), Escalated) => Open(true, n)
    case (Open(_, _), Expired) => ClosedExpired
    case _ => Malformed
  }

  function PhaseOf(es: seq<Kind>, required: int): Phase
  {
    if es == [] then Silent else PhaseStep(PhaseOf(es[..|es| - 1], required), es[|es| - 1], required)
  }

  lemma PhaseOfMore(es: seq<Kind>, e: Kind, required: int)
    ensures PhaseOf(es + [e], required) == PhaseStep(PhaseOf(es, required), e, required)
  {
    assert (es + [e])[..|es + [e]| - 1] == es;
  }

  /** Nothing follows a closing event in a well-formed trace. */
  lemma {:induction false} NothingAfterClosing(es: seq<Kind>, n: nat, required: int)
    requires n < |es| && PhaseOf(es[..n], required).Closed()
    ensures PhaseOf(es, required) == Malformed
  {
    var m := |es| - 1;
    if n < m {
      assert es[..m][..n] == es[..n];
      NothingAfterClosing(es[..m], n, required);
    }
  }

  /** A well-formed trace starts with its only request and has at most one escalation. */
  lemma {:induction false} TraceGrammar(es: seq<Kind>, required: int)
    requires es != [] && PhaseOf(es, required) != Malformed
    ensures es[0].Requested? && PhaseOf(es, required) != Silent
    ensures forall i :: 0 < i < |es| ==> !es[i].Requested?
    ensures forall i, j :: 0 <= i < j < |es| ==> !(es[i].Escalated? && es[j].Escalated?)
    ensures (exists i :: 0 <= i < |es| && es[i].Escalated?) && PhaseOf(es, required).Open? ==> PhaseOf(es, required).escalated
  {
    var n := |es| - 1;
    if n > 0 {
      TraceGrammar(es[..n], required);
    } else {
      assert es[..0] == [];
    }
  }

  // ---------------------------------------------------------------------------------------
  // Invariant
  // ---------------------------------------------------------------------------------------

  predicate Rejecters(decisions: map<string, Vote>)
  {
    exists a :: a in decisions && decisions[a].decision == "rejected"
  }

  /** The phase a step's fields call for. */
  predicate PhaseFits(step: Step, p: Phase)
  {
    match step.status
    case WaitingApproval => p == Open(step.escalated, |Approvers(step.decisions)|)
    case Running => p == ClosedApproved
    case Error => p == ClosedRejected || p == ClosedExpired
  }

  predicate Tallied(step: Step)
  {
    var n := |Approvers(step.decisions)|;
    match step.status
    case WaitingApproval => n < Required(step.info.policy) && !Rejecters(step.decisions)
    case Running => n == Required(step.info.policy) && !Rejecters(step.decisions)
    case Error => n < Required(step.info.policy)
  }

  /** A vote on record: the accepted decision of an authorised approver, or the expiry mark. */
  predicate Backed(info: Info, ballots: seq<Input>, a: string, v: Vote)
  {
    || (a == "system" && v.decision == "expired")
    || exists i :: 0 <= i < |ballots| && Supports(info, ballots[i], a, v)
  }

  predicate Supports(info: Info, b: Input, a: string, v: Vote)
  {
    && KeyOf(b.job, b.step) == KeyOf(info.job, info.step)
    && b.approver == a && b.decision == v.decision && Authorised(info, a, b.role, b.tenant)
  }

  predicate AllBacked(step: Step, ballots: seq<Input>)
  {
    forall a :: a in step.decisions ==> Backed(step.info, ballots, a, step.decisions[a])
  }

  predicate KeyOk(s: Service, k: string)
  {
    var kinds := Kinds(History(s), k);
    if k !in s.steps then kinds == []
    else
      var step := s.steps[k];
      && KeyOf(step.info.job, step.info.step) == k && Tallied(step) && AllBacked(step, s.ballots)
      && PhaseFits(step, PhaseOf(kinds, Required(step.info.policy)))
  }

  ghost predicate Inv(s: Service)
  {
    forall k :: KeyOk(s, k)
  }

  // ---------------------------------------------------------------------------------------
  // Each operation touches one key at a time
  // ---------------------------------------------------------------------------------------

  lemma ApproversGrow(decisions: map<string, Vote>, a: string, v: Vote)
    requires a !in decisions
    ensures |Approvers(decisions[a := v])| == |Approvers(decisions)| + if v.decision == "approved" then 1 else 0
  {
    if v.decision == "approved" {
      assert Approvers(decisions[a := v]) == Approvers(decisions) + {a};
    } else {
      assert Approvers(decisions[a := v]) == Approvers(decisions);
    }
  }

  /** A change confined to one key, with events of that key only, keeps every other key. */
  lemma OtherKeysKept(s: Service, s': Service, k: string, new_: seq<Event>)
    requires Inv(s)
    requires forall j :: j != k ==> (j in s.steps <==> j in s'.steps) && (j in s.steps ==> s'.steps[j] == s.steps[j])
    requires History(s') == History(s) + new_
    requires forall i :: 0 <= i < |new_| ==> KeyOf(new_[i].job, new_[i].step) == k
    requires s.ballots <= s'.ballots
    ensures forall j :: j != k ==> KeyOk(s', j)
  {
    forall j | j != k ensures KeyOk(s', j) {
      assert KeyOk(s, j);
      KindsAppend(History(s), new_, j);
      NoKinds(new_, k, j);
      assert Kinds(History(s'), j) == Kinds(History(s), j);
      if j in s.steps {
        BackedGrows(s.steps[j], s.ballots, s'.ballots);
      }
    }
  }

  lemma {:induction false} NoKinds(es: seq<Event>, k: string, j: string)
    requires j != k && forall i :: 0 <= i < |es| ==> KeyOf(es[i].job, es[i].step) == k
    ensures Kinds(es, j) == []
  {
    if es != [] {
      NoKinds(es[..|es| - 1], k, j);
    }
  }

  lemma BackedGrows(step: Step, x: seq<Input>, y: seq<Input>)
    requires AllBacked(step, x) && x <= y
    ensures AllBacked(step, y)
  {
    forall a | a in step.decisions ensures Backed(step.info, y, a, step.decisions[a]) {
      assert Backed(step.info, x, a, step.decisions[a]);
      if i :| 0 <= i < |x| && Supports(step.info, x[i], a, step.decisions[a]) {
        assert Supports(step.info, y[i], a, step.decisions[a]);
      }
    }
  }

  /** One more event of a key, as seen by its trace. */
  lemma OneMoreKind(s: Service, s': Service, e: Event, required: int)
    requires History(s') == History(s) + [e]
    ensures Kinds(History(s'), KeyOf(e.job, e.step)) == Kinds(History(s), KeyOf(e.job, e.step)) + [e.kind]
    ensures PhaseOf(Kinds(History(s'), KeyOf(e.job, e.step)), required)
            == PhaseStep(PhaseOf(Kinds(History(s), KeyOf(e.job, e.step)), required), e.kind, required)
  {
    KindsAppend(History(s), [e], KeyOf(e.job, e.step));
    KindsOfOne(e, KeyOf(e.job, e.step));
    PhaseOfMore(Kinds(History(s), KeyOf(e.job, e.step)), e.kind, required);
  }

  lemma SeedEmits(s: Service, seed: Seed, now: Time)
    ensures History(SeedStep(s, seed, now)) == History(s) + [Event(Requested, seed.info.job, seed.info.step, now)]
  {
  }

  lemma FreshFits(seed: Seed, now: Time, ballots: seq<Input>)
    ensures var step := Fresh(seed, now);
            Tallied(step) && PhaseFits(step, Open(false, 0)) && AllBacked(step, ballots) && step.info == seed.info
  {
    assert Approvers(map[]) == {};
  }

  lemma SeedKey(s: Service, seed: Seed, now: Time)
    requires KeyOk(s, KeyOf(seed.info.job, seed.info.step)) && KeyOf(seed.info.job, seed.info.step) !in s.steps
    ensures KeyOk(SeedStep(s, seed, now), KeyOf(seed.info.job, seed.info.step))
  {
    SeedEmits(s, seed, now);
    OneMoreKind(s, SeedStep(s, seed, now), Event(Requested, seed.info.job, seed.info.step, now), Required(seed.info.policy));
    FreshFits(seed, now, s.ballots);
  }

  lemma SeedKeeps(s: Service, seed: Seed, now: Time)
    requires Inv(s) && KeyOf(seed.info.job, seed.info.step) !in s.steps
    ensures Inv(SeedStep(s, seed, now))
  {
    var k, s' := KeyOf(seed.info.job, seed.info.step), SeedStep(s, seed, now);
    assert KeyOk(s, k);
    SeedKey(s, seed, now);
    SeedEmits(s, seed, now);
    OtherKeysKept(s, s', k, [Event(Requested, seed.info.job, seed.info.step, now)]);
  }

  lemma VotedTallied(step: Step, i: Input, now: Time)
    requires Tallied(step) && step.status.WaitingApproval? && i.approver !in step.decisions
    ensures Tallied(Voted(step, i, now))
    ensures |Approvers(Voted(step, i, now).decisions)| == |Approvers(step.decisions)| + if i.decision == "approved" then 1 else 0
    ensures Voted(step, i, now).status ==
              if i.decision == "rejected" then Error
              else if i.decision == "approved" && |Approvers(step.decisions)| + 1 >= Required(step.info.policy) then Running
              else WaitingApproval
  {
    ApproversGrow(step.decisions, i.approver, Vote(i.decision, i.approver, i.justification, now));
  }

  lemma VotedBacked(step: Step, i: Input, now: Time, ballots: seq<Input>)
    requires AllBacked(step, ballots) && KeyOf(i.job, i.step) == KeyOf(step.info.job, step.info.step)
    requires Authorised(step.info, i.approver, i.role, i.tenant)
    ensures AllBacked(Voted(step, i, now), ballots + [i])
  {
    var step' := Voted(step, i, now);
    BackedGrows(step, ballots, ballots + [i]);
    assert Supports(step.info, (ballots + [i])[|ballots|], i.approver, step'.decisions[i.approver]);
  }

  lemma SubmitKey(s: Service, i: Input, now: Time)
    requires KeyOk(s, KeyOf(i.job, i.step)) && Screen(s, i).None?
    ensures KeyOk(Submit(s, i, now), KeyOf(i.job, i.step))
  {
    var s', step := Submit(s, i, now), s.steps[KeyOf(i.job, i.step)];
    var e := Event(Decided(i.decision, i.approver, i.justification), i.job, i.step, now);
    assert History(s') == History(s) + [e];
    VotedTallied(step, i, now);
    VotedBacked(step, i, now, s.ballots);
    OneMoreKind(s, s', e, Required(step.info.policy));
  }

  lemma SubmitKeeps(s: Service, i: Input, now: Time)
    requires Inv(s)
    ensures Inv(Submit(s, i, now))
  {
    if Screen(s, i).None? {
      var e := Event(Decided(i.decision, i.approver, i.justification), i.job, i.step, now);
      assert History(Submit(s, i, now)) == History(s) + [e];
      assert KeyOk(s, KeyOf(i.job, i.step));
      SubmitKey(s, i, now);
      OtherKeysKept(s, Submit(s, i, now), KeyOf(i.job, i.step), [e]);
    }
  }

  lemma TickedTallied(step: Step, now: Time, ballots: seq<Input>)
    requires Tallied(step) && AllBacked(step, ballots)
    ensures Tallied(Ticked(step, now)) && AllBacked(Ticked(step, now), ballots)
    ensures |Approvers(Ticked(step, now).decisions)| == |Approvers(step.decisions)|
  {
    var step' := Ticked(step, now);
    if step'.decisions != step.decisions {
      ApproversGrow(step.decisions, "system", Vote("expired", "system", "approval_timeout", now));
      forall a | a in step'.decisions ensures Backed(step'.info, ballots, a, step'.decisions[a]) {
        assert a != "system" ==> Backed(step.info, ballots, a, step.decisions[a]);
      }
    }
  }

  lemma TickPhase(step: Step, now: Time, p: Phase)
    requires PhaseFits(step, p) && |Approvers(Ticked(step, now).decisions)| == |Approvers(step.decisions)|
    ensures TickEvents(step, now) == [] ==> PhaseFits(Ticked(step, now), p)
    ensures TickEvents(step, now) != [] ==>
              PhaseFits(Ticked(step, now), PhaseStep(p, TickEvents(step, now)[0].kind, Required(step.info.policy)))
  {
  }

  lemma TickKey(s: Service, now: Time, k: string)
    requires KeyOk(s, k) && k in s.steps
    ensures KeyOk(TickOne(s, now, k), k)
  {
    var s', step := TickOne(s, now, k), s.steps[k];
    var es := TickEvents(step, now);
    TickedTallied(step, now, s.ballots);
    TickPhase(step, now, PhaseOf(Kinds(History(s), k), Required(step.info.policy)));
    assert History(s') == History(s) + es;
    if es != [] {
      assert es == [es[0]];
      OneMoreKind(s, s', es[0], Required(step.info.policy));
    } else {
      assert History(s') == History(s);
    }
  }

  lemma TickOneKeeps(s: Service, now: Time, k: string)
    requires Inv(s)
    ensures Inv(TickOne(s, now, k))
  {
    if k in s.steps {
      var es := TickEvents(s.steps[k], now);
      assert KeyOk(s, k);
      TickKey(s, now, k);
      assert History(TickOne(s, now, k)) == History(s) + es;
      OtherKeysKept(s, TickOne(s, now, k), k, es);
    }
  }

  lemma {:induction false} TickKeeps(s: Service, now: Time, order: seq<string>)
    requires Inv(s)
    ensures Inv(Tick(s, now, order))
  {
    if order != [] {
      TickKeeps(s, now, order[..|order| - 1]);
      TickOneKeeps(Tick(s, now, order[..|order| - 1]), now, order[|order| - 1]);
    }
  }

  lemma DrainKeeps(s: Service)
    requires Inv(s)
    ensures Inv(Drain(s))
  {
    assert History(Drain(s)) == History(s);
    forall k ensures KeyOk(Drain(s), k) {
      assert KeyOk(s, k);
    }
  }

  lemma {:induction false} InvAlways(states: seq<Service>, ops: seq<Op>, i: nat)
    requires IsRun(states, ops) && states[0] == EMPTY && i < |states|
    ensures Inv(states[i])
  {
    if i > 0 {
      InvAlways(states, ops, i - 1);
      var s, op := states[i - 1], ops[i - 1];
      assert states[i] == Do(s, op);
      match op
      case DoSeed(seed, now) => SeedKeeps(s, seed, now);
      case DoSubmit(input, now) => SubmitKeeps(s, input, now);
      case DoTick(now, order) => TickKeeps(s, now, order);
      case DoDrain => DrainKeeps(s);
    }
  }

  // ---------------------------------------------------------------------------------------
  // Quorum and trace
  // ---------------------------------------------------------------------------------------

  /** An accepted, authorised approval of this step by this approver. */
  predicate ApprovedBy(info: Info, ballots: seq<Input>, a: string)
  {
    exists i :: 0 <= i < |ballots| && Supports(info, ballots[i], a, Vote("approved", a, "", 0))
  }

  /** In every run a step is running only when exactly the required number of distinct approvers,
      all let through by the policy, approved it and nobody rejected it; a waiting step has
      fewer approvals than required and no rejection. */
  lemma Quorum(states: seq<Service>, ops: seq<Op>, i: nat, k: string)
    requires IsRun(states, ops) && states[0] == EMPTY && i < |states| && k in states[i].steps
    ensures var s, step := states[i], states[i].steps[k];
            && (step.status.Running? ==>
                  && |Approvers(step.decisions)| == Required(step.info.policy) && !Rejecters(step.decisions)
                  && forall a :: a in Approvers(step.decisions) ==> ApprovedBy(step.info, s.ballots, a))
            && (step.status.WaitingApproval? ==>
                  |Approvers(step.decisions)| < Required(step.info.policy) && !Rejecters(step.decisions))
  {
    InvAlways(states, ops, i);
    var s, step := states[i], states[i].steps[k];
    assert KeyOk(s, k);
    forall a | a in Approvers(step.decisions) ensures ApprovedBy(step.info, s.ballots, a) {
      assert Backed(step.info, s.ballots, a, step.decisions[a]);
      var j :| 0 <= j < |s.ballots| && Supports(step.info, s.ballots[j], a, step.decisions[a]);
      assert Supports(step.info, s.ballots[j], a, Vote("approved", a, "", 0));
    }
  }

  // ---------------------------------------------------------------------------------------
  // Whose approvals they are
  // ---------------------------------------------------------------------------------------

  /** No other job and step have the key of these. */
  ghost predicate KeyIdentifies(job: string, step: string)
  {
    forall j, t :: KeyOf(j, t) == KeyOf(job, step) ==> j == job && t == step
  }

  lemma KeyIdentifiesIff(job: string, step: string)
    ensures KeyIdentifies(job, step) <==> Free(':', job) && Free(':', step)
  {
    if Free(':', job) && Free(':', step) {
      forall j, t | KeyOf(j, t) == KeyOf(job, step) ensures j == job && t == step {
        JoinTwo(job, step);
        JoinTwo(j, t);
        JoinIdentifies([job, step], [j, t], ':');
        assert [job, step][0] == [j, t][0] && [job, step][1] == [j, t][1];
      }
    } else {
      var j, t := OtherSplit(job, step);
    }
  }

  lemma JoinTwo(job: string, step: string)
    ensures Join([job, step], ':') == KeyOf(job, step)
  {
    assert [job, step][1..] == [step];
  }

  /** A different job and step with the same key. */
  lemma OtherSplit(job: string, step: string) returns (j: string, t: string)
    requires !Free(':', job) || !Free(':', step)
    ensures KeyOf(j, t) == KeyOf(job, step) && j != job
  {
    if !Free(':', job) {
      var u, v := SplitAtSeparator(job, ':');
      j, t := u, v + ":" + step;
    } else {
      var u, v := SplitAtSeparator(step, ':');
      j, t := job + ":" + u, v;
    }
  }

  /** An accepted, authorised approval by this approver that was addressed to this very job and step. */
  predicate ApprovedHere(info: Info, ballots: seq<Input>, a: string)
  {
    exists i :: 0 <= i < |ballots| && Addressed(info, ballots[i], a)
  }

  predicate Addressed(info: Info, b: Input, a: string)
  {
    b.job == info.job && b.step == info.step && Supports(info, b, a, Vote("approved", a, "", 0))
  }

  /** The step of this job is among the steps of a state of this run. */
  ghost predicate HasStep(states: seq<Service>, ops: seq<Op>, i: nat, job: string, step: string)
  {
    && IsRun(states, ops) && states[0] == EMPTY && i < |states| && KeyOf(job, step) in states[i].steps
    && states[i].steps[KeyOf(job, step)].info.job == job && states[i].steps[KeyOf(job, step)].info.step == step
  }

  /** The approver's approval counts for the step. */
  ghost predicate CountsFor(states: seq<Service>, ops: seq<Op>, i: nat, job: string, step: string, a: string)
  {
    HasStep(states, ops, i, job, step) && a in Approvers(states[i].steps[KeyOf(job, step)].decisions)
  }

  /** In every run, everybody whose approval counts for the step has approved that step and not another. */
  ghost predicate OnlyOwnApprovals(job: string, step: string)
  {
    forall states: seq<Service>, ops: seq<Op>, i: nat, a: string ::
      CountsFor(states, ops, i, job, step, a) ==> ApprovedHere(states[i].steps[KeyOf(job, step)].info, states[i].ballots, a)
  }

  lemma OwnApproval(states: seq<Service>, ops: seq<Op>, i: nat, job: string, step: string, a: string)
    requires CountsFor(states, ops, i, job, step, a) && KeyIdentifies(job, step)
    ensures ApprovedHere(states[i].steps[KeyOf(job, step)].info, states[i].ballots, a)
  {
    InvAlways(states, ops, i);
    var s, st := states[i], states[i].steps[KeyOf(job, step)];
    assert KeyOk(s, KeyOf(job, step));
    assert Backed(st.info, s.ballots, a, st.decisions[a]);
    var j :| 0 <= j < |s.ballots| && Supports(st.info, s.ballots[j], a, st.decisions[a]);
    assert Addressed(st.info, s.ballots[j], a);
  }

  /** A step with a colon in its name, or in that of its job, can be brought to run by an approval of another. */
  lemma StrayApproval(job: string, step: string) returns (states: seq<Service>, ops: seq<Op>)
    requires !Free(':', job) || !Free(':', step)
    ensures |states| == 3 && CountsFor(states, ops, 2, job, step, "x")
    ensures states[2].steps[KeyOf(job, step)].status.Running?
    ensures !ApprovedHere(states[2].steps[KeyOf(job, step)].info, states[2].ballots, "x")
  {
    var j, t := OtherSplit(job, step);
    var info := Info(job, step, "", "", "", Policy(1, [], true), None, None);
    var seed, ballot := Seed(info, None, None), Input(j, t, "approved", "", "key", "x", "", "");
    var s1 := SeedStep(EMPTY, seed, 0);
    assert Authorised(info, "x", "", "");
    assert Screen(s1, ballot).None?;
    var s2 := Submit(s1, ballot, 0);
    assert s2.ballots == [ballot];
    ApproversGrow(map[], "x", Vote("approved", "x", "", 0));
    assert Approvers(map[]) == {};
    states, ops := [EMPTY, s1, s2], [DoSeed(seed, 0), DoSubmit(ballot, 0)];
  }

  /** A step counts only the approvals that were given to it, in every run, if and only if neither its name nor that
      of its job has a colon. */
  lemma OnlyOwnApprovalsIff(job: string, step: string)
    ensures OnlyOwnApprovals(job, step) <==> Free(':', job) && Free(':', step)
  {
    KeyIdentifiesIff(job, step);
    if KeyIdentifies(job, step) {
      forall states: seq<Service>, ops: seq<Op>, i: nat, a: string | CountsFor(states, ops, i, job, step, a)
        ensures ApprovedHere(states[i].steps[KeyOf(job, step)].info, states[i].ballots, a)
      {
        OwnApproval(states, ops, i, job, step, a);
      }
    } else {
      var states, ops := StrayApproval(job, step);
    }
  }

  /** In every run the events of a step tell its whole story: they follow the grammar of requests,
      decisions, one escalation and one closing event, and the phase they lead to is the
      step's status. */
  lemma EventTrace(states: seq<Service>, ops: seq<Op>, i: nat, k: string)
    requires IsRun(states, ops) && states[0] == EMPTY && i < |states|
    ensures var kinds := Kinds(History(states[i]), k);
            if k !in states[i].steps then kinds == []
            else
              var step := states[i].steps[k];
              var p := PhaseOf(kinds, Required(step.info.policy));
              && p != Malformed && PhaseFits(step, p)
              && (step.status.WaitingApproval? <==> p.Open?) && (step.status.Running? <==> p.ClosedApproved?)
  {
    InvAlways(states, ops, i);
    assert KeyOk(states[i], k);
  }

  // ---------------------------------------------------------------------------------------
  // Ticks do not depend on the order of the visit
  // ---------------------------------------------------------------------------------------

  function EventsAt(steps: map<string, Step>, now: Time, k: string): seq<Event>
  {
    if k in steps then TickEvents(steps[k], now) else []
  }

  /** The events of a tick that visits the steps in the given order. */
  function Batch(steps: map<string, Step>, now: Time, order: seq<string>): seq<Event>
  {
    if order == [] then []
    else Batch(steps, now, order[..|order| - 1]) + EventsAt(steps, now, order[|order| - 1])
  }

  lemma {:induction false} TickIsBatch(s: Service, now: Time, order: seq<string>)
    requires forall i, j :: 0 <= i < j < |order| ==> order[i] != order[j]
    ensures var t := Tick(s, now, order);
            && t.steps.Keys == s.steps.Keys
            && (forall k :: k in s.steps ==> t.steps[k] == if k in order then Ticked(s.steps[k], now) else s.steps[k])
            && t.events == s.events + Batch(s.steps, now, order)
            && t.idem == s.idem && t.drained == s.drained && t.ballots == s.ballots
  {
    if order == [] {
      assert s.events + [] == s.events;
    } else {
      var n := |order| - 1;
      TickIsBatch(s, now, order[..n]);
      assert order == order[..n] + [order[n]];
      assert order[n] !in order[..n];
      assert s.events + Batch(s.steps, now, order) == s.events + Batch(s.steps, now, order[..n]) + EventsAt(s.steps, now, order[n]);
    }
  }

  function TickedAll(steps: map<string, Step>, now: Time): map<string, Step>
  {
    map k | k in steps :: Ticked(steps[k], now)
  }

  /** A tick updates every step once and appends its batch of events. */
  lemma TickExact(s: Service, now: Time, order: seq<string>)
    requires IsOrder(order, s.steps.Keys)
    ensures Tick(s, now, order) == s.(steps := TickedAll(s.steps, now), events := s.events + Batch(s.steps, now, order))
  {
    TickIsBatch(s, now, order);
    assert Tick(s, now, order).steps == TickedAll(s.steps, now);
  }

  lemma {:induction false} BatchAppend(steps: map<string, Step>, now: Time, x: seq<string>, y: seq<string>)
    ensures Batch(steps, now, x + y) == Batch(steps, now, x) + Batch(steps, now, y)
  {
    if y == [] {
      assert x + y == x;
    } else {
      BatchAppend(steps, now, x, y[..|y| - 1]);
      assert (x + y)[..|x + y| - 1] == x + y[..|y| - 1];
    }
  }

  lemma BatchTakeOut(steps: map<string, Step>, now: Time, x: seq<string>, k: string, y: seq<string>)
    ensures multiset(Batch(steps, now, x + [k] + y)) == multiset(Batch(steps, now, x + y)) + multiset(EventsAt(steps, now, k))
  {
    BatchAppend(steps, now, x + [k], y);
    BatchAppend(steps, now, x, [k]);
    BatchAppend(steps, now, x, y);
    assert [k][..0] == [];
    assert Batch(steps, now, [k]) == EventsAt(steps, now, k);
  }

  lemma {:induction false} BatchPermutes(steps: map<string, Step>, now: Time, x: seq<string>, y: seq<string>)
    requires multiset(x) == multiset(y)
    ensures multiset(Batch(steps, now, x)) == multiset(Batch(steps, now, y))
    decreases |x|
  {
    if x == [] {
      assert |multiset(y)| == 0;
    } else {
      var n := |x| - 1;
      var k := x[n];
      assert x == x[..n] + [k];
      assert k in multiset(y);
      var i :| 0 <= i < |y| && y[i] == k;
      assert y == y[..i] + [k] + y[i + 1..];
      assert multiset(x[..n]) == multiset(x) - multiset{k};
      assert multiset(y[..i] + y[i + 1..]) == multiset(y) - multiset{k};
      BatchPermutes(steps, now, x[..n], y[..i] + y[i + 1..]);
      BatchTakeOut(steps, now, y[..i], k, y[i + 1..]);
    }
  }

  lemma {:induction false} OrderIsKeys(order: seq<string>, keys: set<string>)
    requires IsOrder(order, keys)
    ensures multiset(order) == multiset(keys)
    decreases |order|
  {
    if order == [] {
      assert keys == {};
    } else {
      var n := |order| - 1;
      assert order == order[..n] + [order[n]];
      assert order[n] !in order[..n];
      OrderIsKeys(order[..n], keys - {order[n]});
      assert keys == (keys - {order[n]}) + {order[n]};
      assert multiset(keys) == multiset(keys - {order[n]}) + multiset{order[n]};
    }
  }

  /** Whatever order a tick visits the steps in, it leaves the same steps and emits the same
      events up to their order. */
  lemma TickOrderIrrelevant(s: Service, now: Time, x: seq<string>, y: seq<string>)
    requires IsOrder(x, s.steps.Keys) && IsOrder(y, s.steps.Keys)
    ensures Tick(s, now, x).steps == Tick(s, now, y).steps
    ensures multiset(Tick(s, now, x).events) == multiset(Tick(s, now, y).events)
    ensures Tick(s, now, x).(events := []) == Tick(s, now, y).(events := [])
  {
    TickExact(s, now, x);
    TickExact(s, now, y);
    OrderIsKeys(x, s.steps.Keys);
    OrderIsKeys(y, s.steps.Keys);
    BatchPermutes(s.steps, now, x, y);
  }

  lemma TickedTwice(step: Step, now: Time)
    ensures Ticked(Ticked(step, now), now) == Ticked(step, now) && TickEvents(Ticked(step, now), now) == []
    ensures Ticked(step, now).status.WaitingApproval? ==>
              Ticked(step, now).expiresAt.Some? && now < Ticked(step, now).expiresAt.value
  {
  }

  lemma {:induction false} QuietBatch(steps: map<string, Step>, now: Time, order: seq<string>)
    requires forall k :: k in steps ==> TickEvents(steps[k], now) == []
    ensures Batch(steps, now, order) == []
  {
    if order != [] {
      QuietBatch(steps, now, order[..|order| - 1]);
    }
  }

  /** A second tick at the same instant changes nothing, in whatever orders; and after a tick no
      waiting step is at or past its expiry. */
  lemma TickSettles(s: Service, now: Time, x: seq<string>, y: seq<string>)
    requires IsOrder(x, s.steps.Keys) && IsOrder(y, s.steps.Keys)
    ensures Tick(Tick(s, now, x), now, y) == Tick(s, now, x)
    ensures forall k :: k in Tick(s, now, x).steps && Tick(s, now, x).steps[k].status.WaitingApproval? ==>
              Tick(s, now, x).steps[k].expiresAt.Some? && now < Tick(s, now, x).steps[k].expiresAt.value
  {
    var steps := TickedAll(s.steps, now);
    TickExact(s, now, x);
    TickedAllTwice(s.steps, now);
    QuietBatch(steps, now, y);
    TickExact(Tick(s, now, x), now, y);
    assert Tick(s, now, x).events + [] == Tick(s, now, x).events;
  }

  lemma TickedAllTwice(steps: map<string, Step>, now: Time)
    ensures TickedAll(TickedAll(steps, now), now) == TickedAll(steps, now)
    ensures forall k :: k in TickedAll(steps, now) ==>
              && TickEvents(TickedAll(steps, now)[k], now) == []
              && (TickedAll(steps, now)[k].status.WaitingApproval? ==>
                    TickedAll(steps, now)[k].expiresAt.Some? && now < TickedAll(steps, now)[k].expiresAt.value)
  {
    forall k | k in steps
      ensures Ticked(Ticked(steps[k], now), now) == Ticked(steps[k], now) && TickEvents(Ticked(steps[k], now), now) == []
      ensures Ticked(steps[k], now).status.WaitingApproval? ==>
                Ticked(steps[k], now).expiresAt.Some? && now < Ticked(steps[k], now).expiresAt.value
    {
      TickedTwice(steps[k], now);
    }
  }

  /** A step whose time to live is not positive never escalates; the first tick at or after its
      request expires it. */
  lemma NonPositiveTtl(step: Step, now: Time)
    requires step.expiresAt.Some? && step.expiresAt.value <= step.requestedAt
    ensures !Escalates(step, now)
    ensures step.status.WaitingApproval? && step.requestedAt <= now ==> Ticked(step, now).status.Error?
    ensures Ticked(step, now).expiresAt == step.expiresAt && Ticked(step, now).requestedAt == step.requestedAt
  {
  }

  /** The time to live a step was seeded with is not positive. */
  predicate Stillborn(step: Step)
  {
    step.expiresAt.Some? && step.expiresAt.value <= step.requestedAt
  }

  predicate NeverEscalated(s: Service, k: string)
  {
    k in s.steps ==> s.steps[k].expiresAt.Some? && (Stillborn(s.steps[k]) ==> Escalated !in Kinds(History(s), k))
  }

  /** More events, none of them an escalation of this key. */
  lemma MoreKinds(x: seq<Event>, y: seq<Event>, k: string)
    requires |y| <= 1 && Escalated !in Kinds(x, k)
    requires forall e :: e in y && KeyOf(e.job, e.step) == k ==> e.kind != Escalated
    ensures Escalated !in Kinds(x + y, k)
  {
    KindsAppend(x, y, k);
    if y != [] {
      assert y == [y[0]];
      KindsOfOne(y[0], k);
    }
  }

  lemma TickOneNeverEscalates(s: Service, now: Time, at: string, k: string)
    requires Inv(s) && NeverEscalated(s, k)
    ensures NeverEscalated(TickOne(s, now, at), k)
  {
    if at in s.steps && k in s.steps && Stillborn(s.steps[k]) {
      assert KeyOk(s, at);
      assert History(TickOne(s, now, at)) == History(s) + TickEvents(s.steps[at], now);
      MoreKinds(History(s), TickEvents(s.steps[at], now), k);
    }
  }

  lemma {:induction false} TickNeverEscalates(s: Service, now: Time, order: seq<string>, k: string)
    requires Inv(s) && NeverEscalated(s, k)
    ensures NeverEscalated(Tick(s, now, order), k)
  {
    if order != [] {
      var t := Tick(s, now, order[..|order| - 1]);
      TickKeeps(s, now, order[..|order| - 1]);
      TickNeverEscalates(s, now, order[..|order| - 1], k);
      TickOneNeverEscalates(t, now, order[|order| - 1], k);
    }
  }

  lemma SubmitNeverEscalates(s: Service, i: Input, now: Time, k: string)
    requires NeverEscalated(s, k)
    ensures NeverEscalated(Submit(s, i, now), k)
  {
    if Screen(s, i).None? && k in s.steps && Stillborn(s.steps[k]) {
      var e := Event(Decided(i.decision, i.approver, i.justification), i.job, i.step, now);
      assert History(Submit(s, i, now)) == History(s) + [e];
      MoreKinds(History(s), [e], k);
    }
  }

  lemma SeedNeverEscalates(s: Service, seed: Seed, now: Time, k: string)
    requires KeyOk(s, k) && NeverEscalated(s, k) && KeyOf(seed.info.job, seed.info.step) !in s.steps
    ensures NeverEscalated(SeedStep(s, seed, now), k)
  {
    var e := Event(Requested, seed.info.job, seed.info.step, now);
    assert History(SeedStep(s, seed, now)) == History(s) + [e];
    if k !in s.steps || Stillborn(s.steps[k]) {
      MoreKinds(History(s), [e], k);
    }
  }

  /** In every run, a step seeded with a time to live that is not positive is never escalated. */
  lemma {:induction false} StillbornNeverEscalates(states: seq<Service>, ops: seq<Op>, i: nat, k: string)
    requires IsRun(states, ops) && states[0] == EMPTY && i < |states|
    ensures k in states[i].steps && Stillborn(states[i].steps[k]) ==> Escalated !in Kinds(History(states[i]), k)
    ensures NeverEscalated(states[i], k)
  {
    if i > 0 {
      StillbornNeverEscalates(states, ops, i - 1, k);
      InvAlways(states, ops, i - 1);
      var s, op := states[i - 1], ops[i - 1];
      assert states[i] == Do(s, op);
      match op
      case DoSeed(seed, now) =>
        assert KeyOk(s, k);
        SeedNeverEscalates(s, seed, now, k);
      case DoSubmit(input, now) => SubmitNeverEscalates(s, input, now, k);
      case DoTick(now, order) => TickNeverEscalates(s, now, order, k);
      case DoDrain => assert History(Drain(s)) == History(s);
    }
  }

  // ---------------------------------------------------------------------------------------
  // Drained batches and pending events
  // ---------------------------------------------------------------------------------------

  /** What one operation emits, judged from the state before it. */
  function Emitted(s: Service, op: Op): seq<Event>
  {
    match op
    case DoSeed(seed, now) => [Event(Requested, seed.info.job, seed.info.step, now)]
    case DoSubmit(i, now) =>
      if Screen(s, i).None? then [Event(Decided(i.decision, i.approver, i.justification), i.job, i.step, now)] else []
    case DoTick(now, order) => Batch(s.steps, now, order)
    case DoDrain => []
  }

  function AllEmitted(states: seq<Service>, ops: seq<Op>): seq<Event>
    requires |states| == |ops| + 1
  {
    if ops == [] then []
    else AllEmitted(states[..|ops|], ops[..|ops| - 1]) + Emitted(states[|ops| - 1], ops[|ops| - 1])
  }

  /** The batches handed out by the drains of a run, joined. */
  function Batches(states: seq<Service>, ops: seq<Op>): seq<Event>
    requires |states| == |ops| + 1
  {
    if ops == [] then []
    else Batches(states[..|ops|], ops[..|ops| - 1]) + if ops[|ops| - 1].DoDrain? then states[|ops| - 1].events else []
  }

  lemma StepEmits(s: Service, op: Op)
    requires Allows(s, op)
    ensures !op.DoDrain? ==> Do(s, op).events == s.events + Emitted(s, op) && Do(s, op).drained == s.drained
    ensures op.DoDrain? ==> Do(s, op).events == [] && Do(s, op).drained == s.drained + s.events
  {
    if op.DoTick? {
      TickIsBatch(s, op.now, op.order);
    } else if op.DoSubmit? && Screen(s, op.input).Some? {
      assert s.events + [] == s.events;
    }
  }

  /** In every run the drained batches followed by the pending events are exactly the events
      emitted so far, in order: none is lost and none is handed out twice. */
  lemma {:induction false} NothingLost(states: seq<Service>, ops: seq<Op>)
    requires IsRun(states, ops) && states[0] == EMPTY
    ensures Batches(states, ops) + states[|ops|].events == AllEmitted(states, ops)
    ensures Batches(states, ops) == states[|ops|].drained
    decreases |ops|
  {
    if ops != [] {
      var n := |ops| - 1;
      NothingLost(states[..n + 1], ops[..n]);
      assert states[n + 1] == Do(states[n], ops[n]);
      NothingLostStep(Batches(states[..n + 1], ops[..n]), AllEmitted(states[..n + 1], ops[..n]), states[n], ops[n]);
    }
  }

  lemma NothingLostStep(batches: seq<Event>, emitted: seq<Event>, s: Service, op: Op)
    requires Allows(s, op) && batches + s.events == emitted && batches == s.drained
    ensures var batches' := batches + if op.DoDrain? then s.events else [];
            batches' + Do(s, op).events == emitted + Emitted(s, op) && batches' == Do(s, op).drained
  {
    StepEmits(s, op);
    if !op.DoDrain? {
      assert batches + (s.events + Emitted(s, op)) == emitted + Emitted(s, op);
    }
  }

  // ---------------------------------------------------------------------------------------
  // Replay
  // ---------------------------------------------------------------------------------------

  lemma StepKeepsRecords(s: Service, op: Op)
    requires Allows(s, op)
    ensures forall q :: q in s.idem ==> q in Do(s, op).idem && Do(s, op).idem[q] == s.idem[q]
    ensures s.steps.Keys <= Do(s, op).steps.Keys
  {
    if op.DoTick? {
      TickIsBatch(s, op.now, op.order);
    }
  }

  lemma {:induction false} RecordsForEver(states: seq<Service>, ops: seq<Op>, i: nat, k: nat)
    requires IsRun(states, ops) && i <= k < |states|
    ensures forall q :: q in states[i].idem ==> q in states[k].idem && states[k].idem[q] == states[i].idem[q]
    ensures states[i].steps.Keys <= states[k].steps.Keys
    decreases k
  {
    if i < k {
      RecordsForEver(states, ops, i, k - 1);
      StepKeepsRecords(states[k - 1], ops[k - 1]);
    }
  }

  predicate SamePayload(x: Input, y: Input)
  {
    x.job == y.job && x.step == y.step && x.decision == y.decision && x.justification == y.justification
    && x.approver == y.approver && x.key == y.key
  }

  /** Once a decision call has succeeded, every later call with the same key and payload returns
      the same output marked as a replay and changes nothing, however the step has fared; and
      a later call with that key but another payload string is a conflict. */
  lemma DecisionReplay(states: seq<Service>, ops: seq<Op>, i: nat, k: nat, again: Input, other: Input, later: Time)
    requires IsRun(states, ops) && i < k < |states| && ops[i].DoSubmit?
    requires SubmitReply(states[i], ops[i].input, ops[i].now).Ok?
    requires SamePayload(again, ops[i].input)
    requires other.key == ops[i].input.key && Payload(other) != Payload(ops[i].input)
    ensures SubmitReply(states[k], again, later)
            == Ok(SubmitReply(states[i], ops[i].input, ops[i].now).output.(replay := true))
    ensures Submit(states[k], again, later) == states[k]
    ensures SubmitReply(states[k], other, later).Err? && Submit(states[k], other, later) == states[k]
    ensures KeyOf(other.job, other.step) in states[k].steps ==>
              SubmitReply(states[k], other, later) == Err(IdempotencyConflict)
  {
    assert states[i + 1] == Do(states[i], ops[i]);
    RecordsForEver(states, ops, i, i + 1);
    RecordsForEver(states, ops, i + 1, k);
  }

  predicate BarFree(x: Input)
  {
    Free('|', x.job) && Free('|', x.step) && Free('|', x.decision) && Free('|', x.justification) && Free('|', x.approver)
  }

  /** No other payload has the payload string of this one under its key. */
  ghost predicate Identified(x: Input)
  {
    forall y: Input :: y.key == x.key && Payload(y) == Payload(x) ==> SamePayload(x, y)
  }

  /** A payload string identifies its payload exactly when no field of the payload has a bar: with a
      bar anywhere, some text can move between that field and its neighbour unnoticed. */
  lemma PayloadIdentifiesIff(x: Input)
    ensures Identified(x) <==> BarFree(x)
  {
    if BarFree(x) {
      forall y: Input | y.key == x.key && Payload(y) == Payload(x) ensures SamePayload(x, y) {
        PayloadIdentifies(x, y);
      }
    } else {
      var y := BarConfuses(x);
    }
  }

  lemma PayloadIdentifies(x: Input, y: Input)
    requires BarFree(x) && Payload(x) == Payload(y) && x.key == y.key
    ensures SamePayload(x, y)
  {
    var f := [x.job, x.step, x.decision, x.justification, x.approver];
    var g := [y.job, y.step, y.decision, y.justification, y.approver];
    JoinIdentifies(f, g, '|');
    assert f[0] == g[0] && f[1] == g[1] && f[2] == g[2] && f[3] == g[3] && f[4] == g[4];
  }

  /** A different payload with the same key and payload string, for every payload that has a bar. */
  lemma BarConfuses(x: Input) returns (y: Input)
    requires !BarFree(x)
    ensures y.key == x.key && Payload(y) == Payload(x) && !SamePayload(x, y)
  {
    if !Free('|', x.job) {
      var u, v := SplitAtSeparator(x.job, '|');
      y := x.(job := u, step := v + "|" + x.step);
      MovedAcross(u, v, x.step);
    } else if !Free('|', x.step) {
      var u, v := SplitAtSeparator(x.step, '|');
      y := x.(step := u, decision := v + "|" + x.decision);
      MovedAcross(u, v, x.decision);
    } else if !Free('|', x.decision) {
      var u, v := SplitAtSeparator(x.decision, '|');
      y := x.(decision := u, justification := v + "|" + x.justification);
      MovedAcross(u, v, x.justification);
    } else if !Free('|', x.justification) {
      var u, v := SplitAtSeparator(x.justification, '|');
      y := x.(justification := u, approver := v + "|" + x.approver);
      MovedAcross(u, v, x.approver);
    } else {
      var u, v := SplitAtSeparator(x.approver, '|');
      y := x.(justification := x.justification + "|" + u, approver := v);
      MovedAcross(x.justification, u, v);
    }
    SamePairs(x, y);
  }

  lemma MovedAcross(u: string, v: string, w: string)
    ensures (u + "|" + v) + "|" + w == u + "|" + (v + "|" + w)
  {
  }

  /** Payload strings agree when all fields do but two neighbours, which join to the same text. */
  lemma SamePairs(x: Input, y: Input)
    requires || (x.job + "|" + x.step == y.job + "|" + y.step
                 && x.decision == y.decision && x.justification == y.justification && x.approver == y.approver)
             || (x.step + "|" + x.decision == y.step + "|" + y.decision
                 && x.job == y.job && x.justification == y.justification && x.approver == y.approver)
             || (x.decision + "|" + x.justification == y.decision + "|" + y.justification
                 && x.job == y.job && x.step == y.step && x.approver == y.approver)
             || (x.justification + "|" + x.approver == y.justification + "|" + y.approver
                 && x.job == y.job && x.step == y.step && x.decision == y.decision)
    ensures Payload(x) == Payload(y)
  {
    Regroup(x);
    Regroup(y);
  }

  /** The payload string with any two neighbours taken together. */
  lemma Regroup(x: Input)
    ensures var end := x.justification + "|" + x.approver;
            && Payload(x) == (x.job + "|" + x.step) + "|" + (x.decision + "|" + end)
            && Payload(x) == x.job + "|" + ((x.step + "|" + x.decision) + "|" + end)
            && Payload(x) == x.job + "|" + (x.step + "|" + ((x.decision + "|" + x.justification) + "|" + x.approver))
            && Payload(x) == x.job + "|" + (x.step + "|" + (x.decision + "|" + end))
  {
    JoinFive(x.job, x.step, x.decision, x.justification, x.approver);
    var end := x.justification + "|" + x.approver;
    MovedAcross(x.job, x.step, x.decision + "|" + end);
    MovedAcross(x.step, x.decision, end);
    MovedAcross(x.decision, x.justification, x.approver);
  }

  lemma JoinFive(a: string, b: string, c: string, d: string, e: string)
    ensures Join([a, b, c, d, e], '|') == a + "|" + (b + "|" + (c + "|" + (d + "|" + e)))
  {
    assert [d, e][1..] == [e] && [c, d, e][1..] == [d, e] && [b, c, d, e][1..] == [c, d, e];
    assert [a, b, c, d, e][1..] == [b, c, d, e];
    assert Join([d, e], '|') == d + ['|'] + e;
    assert Join([c, d, e], '|') == c + ['|'] + Join([d, e], '|');
    assert Join([b, c, d, e], '|') == b + ['|'] + Join([c, d, e], '|');
  }
}
