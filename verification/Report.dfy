/**
 The report of a run (internal/productrun/execute.go): the three denominators it
 recomputes from the executor's cases, the mismatch it refuses, and the outcome
 it aggregates.
 */
module Report {
  import opened Common
  import Sorting
  import opened Executor
  import opened Planner
  import BudgetLedger

  datatype Membership = InCandidates | InApplicable | InExecuted

  predicate Counts(c: Case, m: Membership)
  {
    match m
    case InCandidates => c.candidateMember
    case InApplicable => c.applicableMember
    case InExecuted => c.executedMember
  }

  /** The scenario IDs of the cases in one denominator, in case order. */
  function Members(cases: seq<Case>, m: Membership): seq<string>
  {
    if cases == [] then []
    else
      var n := |cases| - 1;
      Members(cases[..n], m) + if Counts(cases[n], m) then [cases[n].scenarioId] else []
  }

  // ----- outcome

  datatype Overall = Compatible | Degraded | Incompatible | Undecided

  /** The case was planned, ran to completion, and its verdict decides. */
  predicate Conclusive(c: Case)
  {
    && c.disposition == Execute && c.status == Completed && c.reason != BudgetExhausted
    && c.verdict.Some? && c.verdict.value != Inconclusive
  }

  predicate Denies(kind: ErrorClass) { kind == Authentication || kind == Permission }

  ghost predicate AccessDenied(classes: map<string, ErrorClass>)
  {
    exists id :: id in classes && Denies(classes[id])
  }

  ghost predicate Judged(cases: seq<Case>, v: Verdict)
  {
    exists i :: 0 <= i < |cases| && cases[i].verdict == Some(v)
  }

  ghost predicate Ended(cases: seq<Case>, s: Status)
  {
    exists i :: 0 <= i < |cases| && cases[i].status == s
  }

  /** Nothing in the run stands in the way of a verdict on the target. */
  ghost predicate Decided(cases: seq<Case>, classes: map<string, ErrorClass>, exhausted: bool)
  {
    !exhausted && !AccessDenied(classes) && AllConclusive(cases)
  }

  method FindDenied(classes: map<string, ErrorClass>) returns (denied: bool)
    ensures denied <==> AccessDenied(classes)
  {
    denied := false;
    var rest := classes.Keys;
    while rest != {}
      invariant rest <= classes.Keys
      invariant denied <==> exists id :: id in classes.Keys - rest && Denies(classes[id])
      decreases |rest|
    {
      var id :| id in rest;
      if Denies(classes[id]) { denied := true; }
      rest := rest - {id};
    }
  }

  datatype Flags = Flags(failed: bool, warned: bool, incomplete: bool, infrastructure: bool, cancelled: bool)

  ghost predicate AllConclusive(cases: seq<Case>)
  {
    forall i :: 0 <= i < |cases| ==> Conclusive(cases[i])
  }

  lemma ScanSnoc(cases: seq<Case>, c: Case)
    ensures forall s :: Ended(cases + [c], s) <==> Ended(cases, s) || c.status == s
    ensures forall v :: Judged(cases + [c], v) <==> Judged(cases, v) || c.verdict == Some(v)
    ensures AllConclusive(cases + [c]) <==> AllConclusive(cases) && Conclusive(c)
  {
    hide Conclusive;
    var longer := cases + [c];
    assert longer[|cases|] == c && forall i :: 0 <= i < |cases| ==> longer[i] == cases[i];
    forall s ensures Ended(longer, s) <==> Ended(cases, s) || c.status == s {
      if Ended(cases, s) { var i :| 0 <= i < |cases| && cases[i].status == s; assert longer[i].status == s; }
    }
    forall v ensures Judged(longer, v) <==> Judged(cases, v) || c.verdict == Some(v) {
      if Judged(cases, v) { var i :| 0 <= i < |cases| && cases[i].verdict == Some(v); assert longer[i].verdict == Some(v); }
    }
  }

  method ScanCases(cases: seq<Case>) returns (f: Flags)
    ensures f.cancelled <==> Ended(cases, Cancelled)
    ensures f.infrastructure <==> Ended(cases, Errored)
    ensures !f.cancelled && !f.infrastructure && !f.incomplete <==> AllConclusive(cases)
    ensures !f.incomplete ==> (f.failed <==> Judged(cases, Fail)) && (f.warned <==> Judged(cases, Warn))
  {
    hide Ended, Judged, AllConclusive;
    f := Flags(false, false, false, false, false);
    NoCases();
    for i := 0 to |cases|
      invariant f.cancelled <==> Ended(cases[..i], Cancelled)
      invariant f.infrastructure <==> Ended(cases[..i], Errored)
      invariant !f.cancelled && !f.infrastructure && !f.incomplete <==> AllConclusive(cases[..i])
      invariant !f.incomplete ==> (f.failed <==> Judged(cases[..i], Fail)) && (f.warned <==> Judged(cases[..i], Warn))
    {
      var c := cases[i];
      ScanSnoc(cases[..i], c);
      assert cases[..i + 1] == cases[..i] + [c];
      if c.status == Cancelled { f := f.(cancelled := true); }
      if c.status == Errored { f := f.(infrastructure := true); }
      if c.reason == BudgetExhausted { f := f.(incomplete := true); }
      if c.disposition != Execute || c.status == Skipped || c.verdict.None? {
        f := f.(incomplete := true);
      } else if c.verdict.value == Fail {
        f := f.(failed := true);
      } else if c.verdict.value == Warn {
        f := f.(warned := true);
      } else if c.verdict.value == Inconclusive {
        f := f.(incomplete := true);
      }
    }
    assert cases[..|cases|] == cases;
  }

  lemma NoCases()
    ensures AllConclusive([])
    ensures forall s :: !Ended([], s)
    ensures forall v :: !Judged([], v)
  {
  }

  /** What the overall outcome and the exit code mean. */
  ghost predicate Summarizes(overall: Overall, exit: nat, cases: seq<Case>, classes: map<string, ErrorClass>,
                             executionError: Option<ContextError>, exhausted: bool)
  {
    && (overall == Undecided <==> !Decided(cases, classes, exhausted))
    && (overall == Incompatible <==> Decided(cases, classes, exhausted) && Judged(cases, Fail))
    && (overall == Degraded <==> Decided(cases, classes, exhausted) && !Judged(cases, Fail) && Judged(cases, Warn))
    && (exit == 130 <==> Ended(cases, Cancelled) && executionError == Some(Canceled))
    && (exit == 5 <==> exit != 130 && AccessDenied(classes))
    && (exit == 3 <==> exit != 130 && exit != 5 && Ended(cases, Errored))
    && (exit == 4 <==> overall == Undecided && exit != 130 && exit != 5 && exit != 3)
    && (exit == 1 <==> overall == Incompatible)
    && (exit == 0 <==> overall == Degraded || overall == Compatible)
  }

  /** Access was denied exactly when some scenario failed to authenticate or lacked permission; that alone exits with 5. */
  lemma DeniedIff(overall: Overall, exit: nat, cases: seq<Case>, classes: map<string, ErrorClass>,
                  executionError: Option<ContextError>, exhausted: bool)
    requires Summarizes(overall, exit, cases, classes, executionError, exhausted)
    ensures AccessDenied(classes) <==> Authentication in classes.Values || Permission in classes.Values
    ensures Authentication in classes.Values || Permission in classes.Values ==>
              exit == if executionError == Some(Canceled) && exists i :: 0 <= i < |cases| && cases[i].status == Cancelled then 130 else 5
  {
    hide Decided, Judged;
    if Authentication in classes.Values { var id :| id in classes && classes[id] == Authentication; assert Denies(classes[id]); }
    if Permission in classes.Values { var id :| id in classes && classes[id] == Permission; assert Denies(classes[id]); }
  }

  /** Compatible means that every case ran to completion, was committed in budget and passed, and nothing else intervened. */
  lemma CompatibleMeansPassed(overall: Overall, exit: nat, cases: seq<Case>, classes: map<string, ErrorClass>,
                              executionError: Option<ContextError>, exhausted: bool)
    requires Summarizes(overall, exit, cases, classes, executionError, exhausted)
    ensures overall == Compatible <==>
            && !exhausted && Authentication !in classes.Values && Permission !in classes.Values
            && forall i :: 0 <= i < |cases| ==>
                 && cases[i].disposition == Execute && cases[i].status == Completed && cases[i].verdict == Some(Pass)
                 && cases[i].reason != "budget_exhausted"
  {
    DeniedIff(overall, exit, cases, classes, executionError, exhausted);
    if Decided(cases, classes, exhausted) {
      forall i | 0 <= i < |cases| ensures Conclusive(cases[i]) && (cases[i].verdict == Some(Pass) || overall != Compatible) {}
    }
  }

  method Aggregate(cases: seq<Case>, classes: map<string, ErrorClass>, executionError: Option<ContextError>, exhausted: bool)
    returns (overall: Overall, exit: nat)
    ensures Summarizes(overall, exit, cases, classes, executionError, exhausted)
  {
    var denied := FindDenied(classes);
    var f := ScanCases(cases);
    f := f.(incomplete := f.incomplete || exhausted);
    if f.cancelled && executionError == Some(Canceled) { return Undecided, 130; }
    if denied { return Undecided, 5; }
    if f.infrastructure { return Undecided, 3; }
    if f.cancelled || f.incomplete { return Undecided, 4; }
    if f.failed { return Incompatible, 1; }
    if f.warned { return Degraded, 0; }
    return Compatible, 0;
  }

  // ----- denominators

  datatype Tally = Tally(digest: string, count: nat)

  datatype Bundle = Bundle(candidate: Tally, applicable: Tally, executed: Tally, overall: Overall, exit: nat)

  datatype ReportError = DenominatorMismatch

  function TallyOf(cases: seq<Case>, m: Membership, digest: Digest): Tally
  {
    Tally(digest(SortStrings(Members(cases, m))), |Members(cases, m)|)
  }

  method BuildReport(intent: Intent, resolved: Resolved, cases: seq<Case>, classes: map<string, ErrorClass>,
                     executionError: Option<ContextError>, exhausted: bool, digest: Digest)
    returns (r: Result<Bundle, ReportError>)
    ensures r.Ok? <==> digest(SortStrings(Members(cases, InCandidates))) == intent.candidateDenominator &&
                       digest(SortStrings(Members(cases, InApplicable))) == resolved.denominator
    ensures r.Ok? ==> r.value.candidate == TallyOf(cases, InCandidates, digest) &&
                      r.value.applicable == TallyOf(cases, InApplicable, digest) &&
                      r.value.executed == TallyOf(cases, InExecuted, digest)
    ensures r.Ok? ==> Summarizes(r.value.overall, r.value.exit, cases, classes, executionError, exhausted)
  {
    hide SortStrings, Summarizes;
    var candidate, applicable, executed := [], [], [];
    for i := 0 to |cases|
      invariant candidate == Members(cases[..i], InCandidates)
      invariant applicable == Members(cases[..i], InApplicable)
      invariant executed == Members(cases[..i], InExecuted)
    {
      var c := cases[i];
      assert cases[..i + 1][..i] == cases[..i];
      if c.candidateMember { candidate := candidate + [c.scenarioId]; }
      if c.applicableMember { applicable := applicable + [c.scenarioId]; }
      if c.executedMember { executed := executed + [c.scenarioId]; }
    }
    assert cases[..|cases|] == cases;
    var candidateTally := Tally(digest(SortStrings(candidate)), |candidate|);
    var applicableTally := Tally(digest(SortStrings(applicable)), |applicable|);
    var executedTally := Tally(digest(SortStrings(executed)), |executed|);
    if candidateTally.digest != intent.candidateDenominator || applicableTally.digest != resolved.denominator {
      return Err(DenominatorMismatch);
    }
    var overall, exit := Aggregate(cases, classes, executionError, exhausted);
    r := Ok(Bundle(candidateTally, applicableTally, executedTally, overall, exit));
  }

  // ----- the planner's denominators and the executor's membership

  /** Case i answers decision i and counts where the plan says it does. */
  ghost predicate Answers(cases: seq<Case>, decisions: seq<Decision>)
  {
    && |cases| == |decisions|
    && forall i :: 0 <= i < |cases| ==>
         && cases[i].scenarioId == decisions[i].id && cases[i].candidateMember
         && (cases[i].applicableMember <==> decisions[i].disposition != NotApplicable)
         && (cases[i].executedMember ==> cases[i].applicableMember)
  }

  lemma ExecutionAnswers(plan: Plan, cases: seq<Case>, attempts: seq<Attempt>, tries: seq<seq<Try>>)
    requires plan.retries >= 0 && |cases| == |plan.scenarios| && Faithful(plan, cases, attempts, tries)
    ensures Answers(cases, plan.scenarios)
  {
    forall i | 0 <= i < |cases|
      ensures cases[i].scenarioId == plan.scenarios[i].id && cases[i].candidateMember
      ensures cases[i].applicableMember <==> plan.scenarios[i].disposition != NotApplicable
      ensures cases[i].executedMember ==> cases[i].applicableMember
    {
      assert FaithfulAt(plan, cases, tries, i);
    }
  }

  function DecisionIds(decisions: seq<Decision>): (ids: seq<string>)
    ensures |ids| == |decisions|
  {
    seq(|decisions|, i requires 0 <= i < |decisions| => decisions[i].id)
  }

  lemma {:induction false} AnswersMembers(cases: seq<Case>, decisions: seq<Decision>)
    requires Answers(cases, decisions)
    ensures Members(cases, InCandidates) == DecisionIds(decisions)
    ensures Members(cases, InApplicable) == ApplicableIds(decisions)
  {
    if cases == [] {
      assert decisions == [];
    } else {
      var n := |cases| - 1;
      assert Answers(cases[..n], decisions[..n]);
      AnswersMembers(cases[..n], decisions[..n]);
      assert DecisionIds(decisions) == DecisionIds(decisions[..n]) + [decisions[n].id];
    }
  }

  /** Executed is part of applicable, applicable of candidate, repetitions included. */
  lemma {:induction false} MembersNest(cases: seq<Case>, decisions: seq<Decision>)
    requires Answers(cases, decisions)
    ensures multiset(Members(cases, InExecuted)) <= multiset(Members(cases, InApplicable)) <= multiset(Members(cases, InCandidates))
    ensures |Members(cases, InExecuted)| <= |Members(cases, InApplicable)| <= |Members(cases, InCandidates)|
  {
    if cases != [] {
      var n := |cases| - 1;
      assert Answers(cases[..n], decisions[..n]);
      MembersNest(cases[..n], decisions[..n]);
    }
  }

  ghost predicate CollisionFree(digest: Digest)
  {
    forall a, b :: digest(a) == digest(b) ==> a == b
  }

  lemma DecidedIds(decisions: seq<Decision>, candidates: seq<Candidate>, facts: map<string, CapabilityStatus>)
    requires Decides(decisions, candidates, facts)
    ensures DecisionIds(decisions) == CandidateIds(candidates)
  {
  }

  /** Equal digests of sorted ID lists mean equal lists up to order. */
  lemma SameDenominator(a: seq<string>, b: seq<string>, digest: Digest)
    ensures multiset(a) == multiset(b) ==> digest(SortStrings(a)) == digest(SortStrings(b))
    ensures CollisionFree(digest) && digest(SortStrings(a)) == digest(SortStrings(b)) ==> multiset(a) == multiset(b)
  {
    StringLeOrder();
    Sorting.SortIgnoresOrder(a, b, StringLe);
  }

  /**
   For any plan resolved from candidates and any execution of it: the applicable
   denominator always agrees, the candidate denominator agrees when the resolved
   candidates are the planned ones up to order, and only then if digests do not
   collide.
   */
  lemma DenominatorsAgree(planned: seq<Candidate>, candidates: seq<Candidate>, facts: map<string, CapabilityStatus>,
                          plan: Plan, cases: seq<Case>, attempts: seq<Attempt>, tries: seq<seq<Try>>, digest: Digest)
    requires Decides(plan.scenarios, candidates, facts)
    requires plan.retries >= 0 && |cases| == |plan.scenarios| && Faithful(plan, cases, attempts, tries)
    ensures digest(SortStrings(Members(cases, InApplicable))) == digest(SortStrings(ApplicableIds(plan.scenarios)))
    ensures multiset(CandidateIds(planned)) == multiset(CandidateIds(candidates)) ==>
              digest(SortStrings(Members(cases, InCandidates))) == digest(SortStrings(CandidateIds(planned)))
    ensures CollisionFree(digest) && digest(SortStrings(Members(cases, InCandidates))) == digest(SortStrings(CandidateIds(planned))) ==>
              multiset(CandidateIds(planned)) == multiset(CandidateIds(candidates))
    ensures |Members(cases, InExecuted)| <= |Members(cases, InApplicable)| <= |Members(cases, InCandidates)|
  {
    hide Faithful, SortStrings, DispositionOf, ReasonOf, CollisionFree;
    ExecutionAnswers(plan, cases, attempts, tries);
    AnswersMembers(cases, plan.scenarios);
    MembersNest(cases, plan.scenarios);
    DecidedIds(plan.scenarios, candidates, facts);
    SameDenominator(CandidateIds(candidates), CandidateIds(planned), digest);
  }

  // ----- plan, execute, report

  datatype RunError = NotPlanned | NotResolved | NotExecuted

  /**
   A whole product run: intent, resolution, execution and report over one
   candidate list.  Whatever the observations, runner and cancellation point, the
   report is never refused for its denominators.
   */
  method ProductRun(candidates: seq<Candidate>, observations: seq<Observation>, digest: Digest, retries: int,
                    policy: BudgetLedger.Policy, finalizers: seq<string>, world: World, classes: map<string, ErrorClass>)
    returns (r: Result<Result<Bundle, ReportError>, RunError>)
    ensures r.Ok? ==> r.value.Ok?
    ensures r.Ok? ==> var b := r.value.value; b.executed.count <= b.applicable.count <= b.candidate.count == |candidates|
    ensures r.Err? && r.error.NotPlanned? <==> !Admissible(candidates)
    ensures r.Err? && r.error.NotResolved? <==> Admissible(candidates) && !Usable(observations)
  {
    hide Admissible, Usable, Authorizes, Faithful, Decides, SortStrings, Collects, OrderedPlan, Summarizes, ApplicableIds, Sound, FromWorld, Follows;
    var intent := BuildIntent(candidates, digest);
    if intent.Err? { return Err(NotPlanned); }
    var resolved;
    ghost var facts;
    resolved, facts := Planner.Resolve(intent.value, candidates, observations, digest, candidates);
    if resolved.Err? { return Err(NotResolved); }
    var plan := Plan(resolved.value.decisions, retries, policy, finalizers);
    var execution;
    ghost var tries, calls, moments, releases;
    execution, tries, calls, moments, releases := ExecutePlan(plan, world);
    if execution.Err? { return Err(NotExecuted); }
    var result := execution.value;
    DenominatorsAgree(candidates, candidates, facts, plan, result.cases, result.attempts, tries, digest);
    CandidateCount(candidates, facts, plan, result.cases, result.attempts, tries);
    var report := BuildReport(intent.value, resolved.value, result.cases, classes, result.error, result.ledger.exhausted, digest);
    r := Ok(report);
  }

  lemma CandidateCount(candidates: seq<Candidate>, facts: map<string, CapabilityStatus>, plan: Plan, cases: seq<Case>,
                       attempts: seq<Attempt>, tries: seq<seq<Try>>)
    requires Decides(plan.scenarios, candidates, facts)
    requires plan.retries >= 0 && |cases| == |plan.scenarios| && Faithful(plan, cases, attempts, tries)
    ensures |Members(cases, InCandidates)| == |candidates|
  {
    hide Faithful;
    ExecutionAnswers(plan, cases, attempts, tries);
    AnswersMembers(cases, plan.scenarios);
  }
}
