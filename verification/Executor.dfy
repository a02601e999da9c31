/**
 Plan execution (internal/executor/executor.go): dependencies, retries,
 cancellation, reservations and finalizers.  Everything the executor asks of the
 outside world (identifiers, context errors, clocks, drivers, runners) is an
 arbitrary answer to a numbered question, so every theorem holds for every
 runner and every cancellation point.
 */
module Executor {
  import opened Common
  import opened BudgetLedger
  import opened BudgetAccounts

  // ----- plans and results

  datatype Disposition = Execute | Skip | NotApplicable

  datatype Verdict = Pass | Warn | Fail | Inconclusive

  datatype Status = Completed | Cancelled | Skipped | Errored

  /** A reason code; a runner may state any, also one of these. */
  type Reason = string

  const BudgetExhausted: Reason := "budget_exhausted"
  const CancelledByUser: Reason := "cancelled_by_user"
  const HarnessError: Reason := "harness_error"
  const DriverError: Reason := "driver_error"
  const AuthenticationFailed: Reason := "authentication_failed"
  const PermissionDenied: Reason := "permission_denied"
  const TransientError: Reason := "transient_error"

  datatype Decision = Decision(id: string, disposition: Disposition, reason: string, dependsOn: seq<string>)

  datatype Plan = Plan(scenarios: seq<Decision>, retries: int, policy: Policy, finalizers: seq<string>)

  datatype Case = Case(
    scenarioId: string,
    disposition: Disposition,
    attemptIds: seq<string>,
    status: Status,
    verdict: Option<Verdict>,
    reason: Reason,
    candidateMember: bool,
    applicableMember: bool,
    executedMember: bool)

  datatype Attempt = Attempt(id: string, status: Status, reason: Reason)

  // ----- the outside world

  datatype ContextError = Canceled | DeadlineExceeded

  datatype ErrorClass = Transient | Authentication | Permission | Driver | Harness

  /** Which token counts the runner did not observe. */
  datatype Unknown = Unknown(input: bool, output: bool)

  /** A typed run error; `unknown` is absent when the reported list is invalid. */
  datatype RunError = RunError(kind: ErrorClass, usage: Option<Usage>, unknown: Option<Unknown>, evidenceValid: bool)

  datatype Reply =
    | Reported(verdict: Verdict, reason: Reason, usage: Usage, unknown: Unknown)
    | Malformed
    | Broken(typed: Option<RunError>, cause: Option<ContextError>)

  datatype World = World(
    newId: nat -> Option<string>,
    contextError: nat -> Option<ContextError>,
    clock: nat -> int,
    resolves: nat -> bool,
    estimate: nat -> Option<Usage>,
    run: nat -> Reply,
    finalize: nat -> Option<Usage>)

  // ----- pure decisions

  /** Observed usage, with the estimate in place of unobserved token counts. */
  function Accounted(observed: Usage, estimate: Usage, unknown: Unknown): Usage
  {
    observed.(inputTokens := if unknown.input then estimate.inputTokens else observed.inputTokens,
              outputTokens := if unknown.output then estimate.outputTokens else observed.outputTokens)
  }

  /** The amount committed for a reply. */
  function Charge(reply: Reply, estimate: Usage): Usage
  {
    match reply
    case Reported(_, _, usage, unknown) => Accounted(usage, estimate, unknown)
    case Malformed => estimate
    case Broken(typed, _) =>
      if typed.None? || typed.value.usage.None? then estimate
      else Accounted(typed.value.usage.value, estimate,
                     if typed.value.unknown.Some? then typed.value.unknown.value else Unknown(true, true))
  }

  /** The error class that drives retries: invalid reports demote a typed error to the harness class. */
  function ClassOf(typed: Option<RunError>): ErrorClass
  {
    if typed.None? || typed.value.unknown.None? || !typed.value.evidenceValid then Harness else typed.value.kind
  }

  function ContextReason(e: ContextError): Reason
  {
    if e == DeadlineExceeded then BudgetExhausted else CancelledByUser
  }

  /** reasonForError: the context first, then a wrapped context error, then the class. */
  function ReasonFor(context: Option<ContextError>, typed: Option<RunError>, cause: Option<ContextError>): (Reason, ErrorClass)
  {
    if context.Some? then (ContextReason(context.value), Harness)
    else if cause.Some? && (typed.None? || (typed.value.unknown.Some? && typed.value.evidenceValid)) then
      (ContextReason(cause.value), Harness)
    else
      match ClassOf(typed)
      case Authentication => (AuthenticationFailed, Authentication)
      case Permission => (PermissionDenied, Permission)
      case Transient => (TransientError, Transient)
      case Driver => (DriverError, Driver)
      case Harness => (HarnessError, Harness)
  }

  function PlannedOnlyCase(d: Decision): Case
  {
    Case(d.id, d.disposition, [], Skipped, None, d.reason, true, d.disposition == Skip, false)
  }

  function CaseForAttempts(d: Decision, ids: seq<string>, status: Status, verdict: Option<Verdict>, reason: Reason): Case
  {
    Case(d.id, d.disposition, ids, status, verdict, reason, true, true, status == Completed)
  }

  predicate Satisfied(c: Case)
  {
    c.status == Completed && c.verdict.Some? && (c.verdict.value == Pass || c.verdict.value == Warn)
  }

  /** Some dependency is missing or did not complete with pass or warn. */
  predicate FailedDependency(d: Decision, states: map<string, Case>)
  {
    exists i :: 0 <= i < |d.dependsOn| && !(d.dependsOn[i] in states && Satisfied(states[d.dependsOn[i]]))
  }

  /** validateScenarioDAG: unique IDs and dependencies on earlier scenarios only. */
  predicate OrderedPlan(scenarios: seq<Decision>)
  {
    && (forall i, j :: 0 <= i < j < |scenarios| ==> scenarios[i].id != scenarios[j].id)
    && (forall i, k :: 0 <= i < |scenarios| && 0 <= k < |scenarios[i].dependsOn| ==>
          exists j :: 0 <= j < i && scenarios[j].id == scenarios[i].dependsOn[k])
  }

  // ----- one run's mutable state

  /** What came back from a Run call: the runner's answer, and whether committing its charge succeeded. */
  datatype Receipt = Receipt(reply: Reply, committed: bool)

  /** A Run call: what was estimated, what was charged, when it was committed, and its receipt. */
  datatype Call = Call(estimate: Usage, charged: Usage, at: int, receipt: Receipt)

  /** A Run call as its scenario sees it. */
  datatype Try = Try(receipt: Receipt, transient: bool)

  class Session {
    const world: World
    var ids: nat
    var polls: nat
    var ticks: nat
    var resolutions: nat
    var estimates: nat
    var runs: nat
    var ledger: State
    ghost var calls: seq<Call>

    /** How far the run has got. */
    ghost function Now(): Moment
      reads this
    {
      Moment(ids, polls, ticks, resolutions, estimates, runs, ledger)
    }

    ghost predicate Valid()
      reads this
    {
      Sound(ledger, calls) && Accounts(ledger, calls) && FromWorld(world, calls) && runs == |calls|
    }

    constructor (world: World, policy: Policy)
      requires ValidPolicy(policy)
      ensures Valid() && this.world == world && calls == [] && Now() == Start(world, policy)
    {
      this.world := world;
      ids, polls, ticks, resolutions, estimates, runs := 1, 0, 1, 0, 0, 0;
      ledger := Open(policy, world.clock(0));
      calls := [];
      new;
      OpenIsBalanced(policy, world.clock(0));
    }

    method NewID() returns (id: Option<string>)
      modifies this`ids
      ensures id == world.newId(old(ids)) && ids == old(ids) + 1
    {
      id := world.newId(ids);
      ids := ids + 1;
    }

    method Poll() returns (e: Option<ContextError>)
      modifies this`polls
      ensures e == world.contextError(old(polls)) && polls == old(polls) + 1
    {
      e := world.contextError(polls);
      polls := polls + 1;
    }

    method Resolve() returns (ok: bool)
      modifies this`resolutions
      ensures ok == world.resolves(old(resolutions)) && resolutions == old(resolutions) + 1
    {
      ok := world.resolves(resolutions);
      resolutions := resolutions + 1;
    }

    method Estimate() returns (usage: Option<Usage>)
      modifies this`estimates
      ensures usage == world.estimate(old(estimates)) && estimates == old(estimates) + 1
    {
      usage := world.estimate(estimates);
      estimates := estimates + 1;
    }

    /** The final snapshot, which also reads the clock. */
    method Seal()
      requires Valid()
      modifies this`ticks, this`ledger
      ensures Valid() && ledger == SnapshotStep(old(ledger), world.clock(old(ticks)))
    {
      hide Balanced, FromWorld;
      SnapshotKeeps(ledger, world.clock(ticks));
      assert Accounts(SnapshotStep(ledger, world.clock(ticks)), calls);
      ledger := SnapshotStep(ledger, world.clock(ticks));
      ticks := ticks + 1;
    }

    /** Reserve the estimate, run, commit the charge.  No reply means the reservation was refused. */
    method Invoke(estimate: Usage) returns (reply: Option<Reply>, committed: bool)
      requires Valid() && exists k :: world.estimate(k) == Some(estimate)
      modifies this`ticks, this`runs, this`ledger, this`calls
      ensures Valid() && SameAccount(ledger, old(ledger))
      ensures (Now(), if reply.Some? then Some(Receipt(reply.value, committed)) else None) == InvokeAt(world, old(Now()), estimate)
      ensures reply.None? ==> calls == old(calls)
      ensures reply.Some? ==>
                exists at :: calls == old(calls) + [Call(estimate, Charge(reply.value, estimate), at, Receipt(reply.value, committed))]
    {
      hide Balanced, Charge, FromWorld, Sound, Accounts, ReserveStep, CommitStep, SameAccount;
      var (reserved, ticket) := ReserveStep(ledger, estimate, world.clock(ticks));
      if ticket.Err? {
        RefusalKeeps(ledger, calls, estimate, world.clock(ticks));
        RefusalAccounts(ledger, calls, estimate, world.clock(ticks));
        ledger, ticks := reserved, ticks + 1;
        return None, false;
      }
      var answer := world.run(runs);
      var charge := Charge(answer, estimate);
      var (settled, error) := CommitStep(reserved, ticket.value, charge, world.clock(ticks + 1));
      ghost var call := Call(estimate, charge, world.clock(ticks + 1), Receipt(answer, error.None?));
      CallKeeps(ledger, calls, estimate, world.clock(ticks), call, call.at);
      CallAccounts(ledger, calls, estimate, world.clock(ticks), call);
      FromWorldSnoc(world, calls, call);
      ledger, ticks, runs := settled, ticks + 2, runs + 1;
      calls := calls + [call];
      reply, committed := Some(answer), error.None?;
    }
  }

  // ----- a run as a function of its world

  /** How many questions were asked so far, and the ledger. */
  datatype Moment = Moment(ids: nat, polls: nat, ticks: nat, resolutions: nat, estimates: nat, runs: nat, ledger: State)

  /** The first identifier names the run and the first clock reading opens the ledger. */
  function Start(world: World, policy: Policy): Moment
  {
    Moment(1, 0, 1, 0, 0, 0, Open(policy, world.clock(0)))
  }

  /** A reservation is admitted: well formed, in time, nothing exhausted, and everything held or spent within the limits. */
  predicate Admits(world: World, m: Moment, planned: Usage)
  {
    && Reservable(planned) && world.clock(m.ticks) < m.ledger.deadline && !m.ledger.exhausted
    && Fits(Add(Add(m.ledger.consumed, m.ledger.reserved), planned), m.ledger.policy.hard)
  }

  /** Reserve, run, commit. */
  function InvokeAt(world: World, m: Moment, planned: Usage): (Moment, Option<Receipt>)
  {
    var (reserved, ticket) := ReserveStep(m.ledger, planned, world.clock(m.ticks));
    if ticket.Err? then (m.(ledger := reserved, ticks := m.ticks + 1), None)
    else
      var reply := world.run(m.runs);
      var (settled, error) := CommitStep(reserved, ticket.value, Charge(reply, planned), world.clock(m.ticks + 1));
      (m.(ledger := settled, ticks := m.ticks + 2, runs := m.runs + 1), Some(Receipt(reply, error.None?)))
  }

  /** How a case ends. */
  datatype Ending = Ending(status: Status, verdict: Option<Verdict>, reason: Reason)

  function EndingOf(c: Case): Ending
  {
    Ending(c.status, c.verdict, c.reason)
  }

  /** What one attempt comes to: its Run call, if there was one, and how its case ends if no attempt follows. */
  datatype Tried = Tried(ran: Option<Try>, ending: Ending, after: Moment)

  function AnswerAt(world: World, m: Moment, receipt: Receipt): Tried
  {
    match receipt.reply
    case Reported(verdict, reason, _, _) =>
      Tried(Some(Try(receipt, false)), Ending(Completed, Some(verdict), if receipt.committed then reason else BudgetExhausted), m)
    case Malformed => Tried(Some(Try(receipt, false)), Ending(Errored, None, HarnessError), m)
    case Broken(typed, cause) =>
      var (reason, kind) := ReasonFor(world.contextError(m.polls), typed, cause);
      var status := if world.contextError(m.polls + 1).Some? then Cancelled else Errored;
      Tried(Some(Try(receipt, kind == Transient)), Ending(status, None, reason), m.(polls := m.polls + 2))
  }

  function AttemptAt(world: World, m: Moment): Tried
  {
    var asked := m.(estimates := m.estimates + 1);
    match world.estimate(m.estimates)
    case None => Tried(None, Ending(Errored, None, HarnessError), asked)
    case Some(planned) =>
      var (next, receipt) := InvokeAt(world, asked, planned);
      if receipt.None? then Tried(None, Ending(Skipped, None, BudgetExhausted), next) else AnswerAt(world, next, receipt.value)
  }

  /** What a scenario comes to: its Run calls and how its case ends. */
  datatype Played = Played(tries: seq<Try>, ending: Ending, after: Moment)

  function After(tries: seq<Try>, rest: Played): Played
  {
    rest.(tries := tries + rest.tries)
  }

  /** Up to `left` more attempts. */
  function RetryFrom(world: World, m: Moment, left: nat): Played
    decreases left
  {
    if left == 0 then Played([], Ending(Errored, None, HarnessError), m)
    else if world.newId(m.ids).None? then Played([], Ending(Errored, None, HarnessError), m.(ids := m.ids + 1))
    else
      var t := AttemptAt(world, m.(ids := m.ids + 1));
      if t.ran.Some? && t.ran.value.transient && left > 1 then
        After([t.ran.value], RetryFrom(world, t.after, left - 1))
      else Played(if t.ran.Some? then [t.ran.value] else [], t.ending, t.after)
  }

  function RunAt(world: World, m: Moment, retries: nat): Played
  {
    if world.newId(m.ids).None? then Played([], Ending(Errored, None, HarnessError), m.(ids := m.ids + 3))
    else RetryFrom(world, m.(ids := m.ids + 1), retries + 1)
  }

  /** One scenario of the plan, whose dependencies are met or not. */
  function ScenarioAt(world: World, m: Moment, d: Decision, retries: nat, met: bool): Played
  {
    var polled := m.(polls := m.polls + 1);
    if d.disposition != Execute then Played([], Ending(Skipped, None, d.reason), polled)
    else if world.contextError(m.polls).Some? then
      Played([], Ending(Cancelled, None, ContextReason(world.contextError(m.polls).value)), polled.(ids := m.ids + 2))
    else if !met then Played([], Ending(Skipped, None, HarnessError), polled.(ids := m.ids + 2))
    else
      var resolved := polled.(resolutions := m.resolutions + 1);
      if !world.resolves(m.resolutions) then Played([], Ending(Errored, None, DriverError), resolved.(ids := m.ids + 2))
      else
        var r := RunAt(world, resolved, retries);
        if r.ending.status == Cancelled then r.(after := r.after.(polls := r.after.polls + 1)) else r
  }

  /** Running scenarios touches neither the policy nor the cleanup account. */
  predicate SameAccount(s: State, t: State)
  {
    s.policy == t.policy && s.deadline == t.deadline && s.cleanupConsumed == t.cleanupConsumed
  }

  /** Calls whose commit is refused because a charged amount is negative. */
  function Leaks(calls: seq<Call>): nat
  {
    if calls == [] then 0
    else Leaks(calls[..|calls| - 1]) + if Nonnegative(calls[|calls| - 1].charged) then 0 else 1
  }

  /** Every call estimates, and when its charge is accepted is charged, at least one request. */
  ghost predicate Metered(calls: seq<Call>)
  {
    forall i :: 0 <= i < |calls| ==>
      calls[i].estimate.requests >= 1 && (Nonnegative(calls[i].charged) ==> calls[i].charged.requests >= 1)
  }

  /** The books balance, every leaked reservation is a negatively charged call,
      and every metered call holds or has consumed its requests. */
  ghost predicate Sound(ledger: State, calls: seq<Call>)
  {
    && Balanced(ledger)
    && |ledger.open| == Leaks(calls)
    && (Metered(calls) ==> |calls| <= ledger.consumed.requests + ledger.reserved.requests)
    && (Metered(calls) ==> |calls| <= ledger.policy.hard.maxRequests)
  }

  /** Call i estimated something the runner estimated, got the runner's i-th answer and was charged for it. */
  ghost predicate Answers(world: World, call: Call, i: nat)
  {
    && (exists k :: world.estimate(k) == Some(call.estimate))
    && call.receipt.reply == world.run(i) && call.charged == Charge(call.receipt.reply, call.estimate)
    && exists k :: world.clock(k) == call.at
  }

  /** The accepted charges of some calls. */
  function Spent(calls: seq<Call>): Usage
  {
    if calls == [] then ZERO
    else
      var n := |calls| - 1;
      if Nonnegative(calls[n].charged) then Add(Spent(calls[..n]), calls[n].charged) else Spent(calls[..n])
  }

  /** A commit succeeds exactly when the charge is not negative, the spending so far is within every limit, and time remains. */
  predicate CommittedRight(policy: Policy, deadline: int, calls: seq<Call>, i: nat)
    requires i < |calls|
  {
    calls[i].receipt.committed <==>
      Nonnegative(calls[i].charged) && Fits(Spent(calls[..i + 1]), policy.hard) && calls[i].at < deadline
  }

  ghost predicate Accounts(ledger: State, calls: seq<Call>)
  {
    && ledger.consumed == Spent(calls)
    && forall i :: 0 <= i < |calls| ==> CommittedRight(ledger.policy, ledger.deadline, calls, i)
  }

  lemma RefusalAccounts(s: State, calls: seq<Call>, planned: Usage, now: int)
    requires Accounts(s, calls) && ReserveStep(s, planned, now).1.Err?
    ensures Accounts(ReserveStep(s, planned, now).0, calls)
  {
    hide CommittedRight, Fits, Exceeds, Spent;
  }

  /** A commit's effect on consumption, and when it succeeds. */
  lemma CommitResult(s: State, planned: Usage, now: int, charge: Usage, at: int)
    requires ReserveStep(s, planned, now).1.Ok?
    ensures var (t, ticket) := ReserveStep(s, planned, now);
            var (u, error) := CommitStep(t, ticket.value, charge, at);
            && u.consumed == (if Nonnegative(charge) then Add(s.consumed, charge) else s.consumed)
            && u.policy == s.policy && u.deadline == s.deadline
            && (error.None? <==> Nonnegative(charge) && Fits(u.consumed, s.policy.hard) && at < s.deadline)
  {
    hide Exceeds, Fits, PositiveDifference, Add, Nonnegative;
    FitsIff(Add(s.consumed, charge), s.policy.hard);
  }

  lemma CallAccounts(s: State, calls: seq<Call>, planned: Usage, now: int, call: Call)
    requires Accounts(s, calls) && ReserveStep(s, planned, now).1.Ok?
    requires var (t, ticket) := ReserveStep(s, planned, now);
             call.receipt.committed == CommitStep(t, ticket.value, call.charged, call.at).1.None?
    ensures var (t, ticket) := ReserveStep(s, planned, now);
            Accounts(CommitStep(t, ticket.value, call.charged, call.at).0, calls + [call])
  {
    hide Fits, Add, Nonnegative, ReserveStep, CommitStep;
    CommitResult(s, planned, now, call.charged, call.at);
    var longer := calls + [call];
    assert longer[..|calls|] == calls && longer[..|calls| + 1] == longer;
    forall i | 0 <= i < |longer| ensures CommittedRight(s.policy, s.deadline, longer, i) {
      if i < |calls| {
        assert longer[..i + 1] == calls[..i + 1] && longer[i] == calls[i];
        assert CommittedRight(s.policy, s.deadline, calls, i);
      }
    }
  }

  ghost predicate FromWorld(world: World, calls: seq<Call>)
  {
    forall i :: 0 <= i < |calls| ==> Answers(world, calls[i], i)
  }

  lemma FromWorldSnoc(world: World, calls: seq<Call>, call: Call)
    requires FromWorld(world, calls) && Answers(world, call, |calls|)
    ensures FromWorld(world, calls + [call])
  {
    hide Answers;
    assert forall i :: 0 <= i < |calls| ==> (calls + [call])[i] == calls[i];
  }

  lemma RefusalKeeps(s: State, calls: seq<Call>, planned: Usage, now: int)
    requires Sound(s, calls) && ReserveStep(s, planned, now).1.Err?
    ensures Sound(ReserveStep(s, planned, now).0, calls) && SameAccount(ReserveStep(s, planned, now).0, s)
  {
    hide Balanced, Exceeds;
    ReserveKeeps(s, planned, now);
  }

  /** What a reservation followed by its commit does to the open table and the request counts. */
  lemma CallEffect(s: State, planned: Usage, now: int, charge: Usage, later: int)
    requires Balanced(s) && ReserveStep(s, planned, now).1.Ok?
    ensures var (t, ticket) := ReserveStep(s, planned, now);
            var u := CommitStep(t, ticket.value, charge, later).0;
            && SameAccount(u, s)
            && |u.open| == |s.open| + (if Nonnegative(charge) then 0 else 1)
            && u.consumed.requests + u.reserved.requests ==
               s.consumed.requests + s.reserved.requests + (if Nonnegative(charge) then charge.requests else planned.requests)
            && s.consumed.requests + s.reserved.requests + planned.requests <= s.policy.hard.maxRequests
  {
    hide SumOpen, Within, PositiveDifference;
    var (t, ticket) := ReserveStep(s, planned, now);
    var id := ticket.value;
    assert id !in s.open && t.open == s.open[id := planned];
    assert |t.open| == |s.open| + 1;
    if Nonnegative(charge) {
      assert t.open - {id} == s.open;
    }
  }

  lemma CallKeeps(s: State, calls: seq<Call>, planned: Usage, now: int, call: Call, later: int)
    requires Sound(s, calls) && ReserveStep(s, planned, now).1.Ok? && call.estimate == planned
    ensures var (t, ticket) := ReserveStep(s, planned, now);
            var u := CommitStep(t, ticket.value, call.charged, later).0;
            Sound(u, calls + [call]) && SameAccount(u, s)
  {
    hide Balanced, ReserveStep, CommitStep, Nonnegative;
    var (t, ticket) := ReserveStep(s, planned, now);
    var more := calls + [call];
    ReserveKeeps(s, planned, now);
    CommitKeeps(t, ticket.value, call.charged, later);
    CallEffect(s, planned, now, call.charged, later);
    assert more[..|calls|] == calls;
    if Metered(more) {
      assert more[|calls|] == call;
      assert forall i :: 0 <= i < |calls| ==> calls[i] == more[i];
    }
  }

  // ----- one scenario

  /** An attempt calls Run: the runner gives an estimate and the ledger admits it. */
  predicate CanCall(world: World, m: Moment)
  {
    && world.estimate(m.estimates).Some?
    && Admits(world, m, world.estimate(m.estimates).value)
  }

  function IdsOf(attempts: seq<Attempt>): (ids: seq<string>)
    ensures |ids| == |attempts|
  {
    seq(|attempts|, i requires 0 <= i < |attempts| => attempts[i].id)
  }

  lemma IdsSnoc(attempts: seq<Attempt>, a: Attempt)
    ensures IdsOf(attempts + [a]) == IdsOf(attempts) + [a.id]
  {
  }

  /** What holds of the case of a scenario the plan wants executed. */
  ghost predicate CaseShape(c: Case, d: Decision, attempts: seq<Attempt>)
  {
    && c.scenarioId == d.id && c.disposition == d.disposition
    && c.candidateMember && c.applicableMember && (c.executedMember <==> c.status == Completed)
    && c.attemptIds == IdsOf(attempts)
  }

  /** At most retries + 1 Run calls, all but possibly the last of which failed transiently. */
  ghost predicate RetryShape(tries: seq<Try>, retries: nat)
  {
    && |tries| <= retries + 1 && (forall i :: 0 <= i < |tries| - 1 ==> tries[i].transient)
    && forall i :: 0 <= i < |tries| && tries[i].transient ==> FailedTransiently(tries[i].receipt.reply)
  }

  predicate FailedTransiently(reply: Reply)
  {
    reply.Broken? && ClassOf(reply.typed) == Transient
  }

  /** The case says what the runner answered; a completed one gives the runner's reason unless its commit failed. */
  ghost predicate Reports(e: Ending, receipt: Receipt)
  {
    match receipt.reply
    case Reported(verdict, reason, _, _) =>
      e == Ending(Completed, Some(verdict), if receipt.committed then reason else BudgetExhausted)
    case Malformed => e == Ending(Errored, None, HarnessError)
    case Broken(typed, cause) =>
      && (e.status == Errored || e.status == Cancelled) && e.verdict == None
      && exists context :: e.reason == ReasonFor(context, typed, cause).0
  }

  /** How a scenario's Run calls end: the last one that was not transient decides; without one nothing completed. */
  ghost predicate Concludes(e: Ending, tries: seq<Try>)
  {
    if tries != [] && !tries[|tries| - 1].transient then Reports(e, tries[|tries| - 1].receipt) else e.status != Completed
  }

  function ReceiptsOf(calls: seq<Call>): (receipts: seq<Receipt>)
    ensures |receipts| == |calls|
  {
    seq(|calls|, i requires 0 <= i < |calls| => calls[i].receipt)
  }

  function TryReceipts(tries: seq<Try>): (receipts: seq<Receipt>)
    ensures |receipts| == |tries|
  {
    seq(|tries|, i requires 0 <= i < |tries| => tries[i].receipt)
  }

  /** The calls since some point are exactly these tries. */
  ghost predicate Called(before: seq<Call>, after: seq<Call>, tries: seq<Try>)
  {
    before <= after && ReceiptsOf(after) == ReceiptsOf(before) + TryReceipts(tries)
  }

  lemma CalledNothing(calls: seq<Call>)
    ensures Called(calls, calls, [])
  {
    assert TryReceipts([]) == [];
  }

  lemma CalledOnce(before: seq<Call>, after: seq<Call>, tries: seq<Try>, call: Call, transient: bool)
    requires Called(before, after, tries)
    ensures Called(before, after + [call], tries + [Try(call.receipt, transient)])
  {
    assert ReceiptsOf(after + [call]) == ReceiptsOf(after) + [call.receipt];
    assert TryReceipts(tries + [Try(call.receipt, transient)]) == TryReceipts(tries) + [call.receipt];
  }

  /** A scenario is only cancelled after a poll saw a context error. */
  ghost predicate SeenBefore(world: World, polls: nat)
  {
    exists k :: 0 <= k < polls && world.contextError(k).Some?
  }

  method NonRunAttempt(session: Session, d: Decision, status: Status, reason: Reason) returns (c: Case, a: Attempt)
    requires status != Completed
    modifies session`ids
    ensures CaseShape(c, d, [a]) && EndingOf(c) == Ending(status, None, reason)
    ensures session.ids == old(session.ids) + 2
  {
    var invocation := session.NewID();
    var id := session.NewID();
    a := Attempt(if id.Some? then id.value else "", status, reason);
    c := CaseForAttempts(d, [a.id], status, None, reason);
  }

  /** What an attempt leaves: whether Run was called, how the case ends if it is the last one, and the poll behind a cancellation. */
  lemma AttemptConcludes(world: World, m: Moment)
    ensures var t := AttemptAt(world, m);
            && (t.ran.Some? <==> CanCall(world, m))
            && (t.ending.status == Completed <==> t.ending.verdict.Some?)
            && Concludes(t.ending, TriesOf(t.ran))
            && (t.ran.Some? && t.ran.value.transient ==> FailedTransiently(t.ran.value.receipt.reply))
            && m.polls <= t.after.polls && (t.ending.status == Cancelled ==> t.ran.Some? && SeenBefore(world, t.after.polls))
  {
    hide InvokeAt, AnswerAt, Admits, Reports, ReasonFor;
    if world.estimate(m.estimates).Some? {
      var asked, planned := m.(estimates := m.estimates + 1), world.estimate(m.estimates).value;
      AdmitsIff(world, asked, planned);
      assert Admits(world, asked, planned) == Admits(world, m, planned) by { AdmitsLooks(world, asked, m, planned); }
      var (next, receipt) := InvokeAt(world, asked, planned);
      InvokeKeepsPolls(world, asked, planned);
      if receipt.Some? { AnswerConcludes(world, next, receipt.value); }
    }
  }

  lemma AdmitsIff(world: World, m: Moment, planned: Usage)
    ensures Admits(world, m, planned) <==> ReserveStep(m.ledger, planned, world.clock(m.ticks)).1.Ok?
    ensures Admits(world, m, planned) <==> InvokeAt(world, m, planned).1.Some?
  {
    hide CommitStep, Exceeds, Fits, Add, Nonnegative, Charge;
    FitsIff(Add(Add(m.ledger.consumed, m.ledger.reserved), planned), m.ledger.policy.hard);
  }

  lemma AdmitsLooks(world: World, m: Moment, n: Moment, planned: Usage)
    requires m.ticks == n.ticks && m.ledger == n.ledger
    ensures Admits(world, m, planned) == Admits(world, n, planned)
  {
  }

  lemma InvokeKeepsPolls(world: World, m: Moment, planned: Usage)
    ensures InvokeAt(world, m, planned).0.polls == m.polls
  {
    hide ReserveStep, CommitStep;
  }

  lemma AnswerConcludes(world: World, m: Moment, receipt: Receipt)
    ensures var t := AnswerAt(world, m, receipt);
            && t.ran.Some? && t.ran.value.receipt == receipt
            && (t.ending.status == Completed <==> t.ending.verdict.Some?)
            && Concludes(t.ending, [t.ran.value])
            && (t.ran.value.transient ==> FailedTransiently(receipt.reply))
            && m.polls <= t.after.polls && (t.ending.status == Cancelled ==> SeenBefore(world, t.after.polls))
  {
  }

  /** The Run call of one attempt, if there was one. */
  function TriesOf(ran: Option<Try>): seq<Try>
  {
    if ran.Some? then [ran.value] else []
  }

  /** What every play of a scenario's attempts satisfies. */
  ghost predicate Plays(world: World, m: Moment, p: Played, retries: nat)
  {
    && RetryShape(p.tries, retries) && Concludes(p.ending, p.tries)
    && (p.ending.status == Completed <==> p.ending.verdict.Some?)
    && m.polls <= p.after.polls && (p.ending.status == Cancelled ==> p.tries != [] && SeenBefore(world, p.after.polls))
  }

  lemma {:induction false} RetryPlays(world: World, m: Moment, retries: nat)
    ensures Plays(world, m, RetryFrom(world, m, retries + 1), retries)
    decreases retries
  {
    hide AttemptAt, CanCall, Reports, FailedTransiently, SeenBefore, RetryShape;
    NoTries(retries);
    if world.newId(m.ids).Some? {
      var t := AttemptAt(world, m.(ids := m.ids + 1));
      AttemptConcludes(world, m.(ids := m.ids + 1));
      if t.ran.Some? {
        if t.ran.value.transient && retries > 0 {
          RetryPlays(world, t.after, retries - 1);
          RetryShapeMore(t.ran.value, RetryFrom(world, t.after, retries).tries, retries);
        } else {
          RetryShapeOne(t.ran.value, retries);
        }
      }
    }
  }

  lemma RetryShapeOne(t: Try, retries: nat)
    requires t.transient ==> FailedTransiently(t.receipt.reply)
    ensures RetryShape([t], retries)
  {
  }

  lemma RetryShapeMore(t: Try, rest: seq<Try>, retries: nat)
    requires retries > 0 && RetryShape(rest, retries - 1) && t.transient && FailedTransiently(t.receipt.reply)
    ensures RetryShape([t] + rest, retries)
  {
    hide FailedTransiently;
  }

  lemma RunPlays(world: World, m: Moment, retries: nat)
    ensures Plays(world, m, RunAt(world, m, retries), retries)
  {
    hide RetryFrom, SeenBefore, FailedTransiently, Reports;
    if world.newId(m.ids).Some? { RetryPlays(world, m.(ids := m.ids + 1), retries); }
  }

  /** One attempt: its record, its Run call, and the case if the attempt was the last one. */
  method TryOnce(session: Session, d: Decision, ids: seq<string>, id: string, mayRetry: bool)
    returns (c: Option<Case>, a: Attempt, ghost ran: Option<Try>)
    requires session.Valid()
    modifies session
    ensures session.Valid() && SameAccount(session.ledger, old(session.ledger))
    ensures var t := AttemptAt(session.world, old(session.Now()));
            && session.Now() == t.after && ran == t.ran && a.id == id && a.status == t.ending.status
            && c == if mayRetry && ran.Some? && ran.value.transient then None
                    else Some(CaseForAttempts(d, ids, t.ending.status, t.ending.verdict, t.ending.reason))
    ensures ran.Some? <==> CanCall(session.world, old(session.Now()))
    ensures if ran.Some? then exists call: Call :: call.receipt == ran.value.receipt && session.calls == old(session.calls) + [call]
            else session.calls == old(session.calls)
  {
    hide Sound, FromWorld, Accounts, InvokeAt, CanCall, ReasonFor;
    AttemptConcludes(session.world, session.Now());
    var estimate := session.Estimate();
    if estimate.None? {
      return Some(CaseForAttempts(d, ids, Errored, None, HarnessError)), Attempt(id, Errored, HarnessError), None;
    }
    var reply, committed := session.Invoke(estimate.value);
    if reply.None? {
      return Some(CaseForAttempts(d, ids, Skipped, None, BudgetExhausted)), Attempt(id, Skipped, BudgetExhausted), None;
    }
    match reply.value {
      case Broken(typed, cause) =>
        var context := session.Poll();
        var (reason, kind) := ReasonFor(context, typed, cause);
        var again := session.Poll();
        var status := if again.Some? then Cancelled else Errored;
        c := if kind == Transient && mayRetry then None else Some(CaseForAttempts(d, ids, status, None, reason));
        a, ran := Attempt(id, status, reason), Some(Try(Receipt(reply.value, committed), kind == Transient));
      case Malformed =>
        c := Some(CaseForAttempts(d, ids, Errored, None, HarnessError));
        a, ran := Attempt(id, Errored, HarnessError), Some(Try(Receipt(reply.value, committed), false));
      case Reported(verdict, reason, usage, unknown) =>
        c := Some(CaseForAttempts(d, ids, Completed, Some(verdict), if committed then reason else BudgetExhausted));
        a, ran := Attempt(id, Completed, reason), Some(Try(Receipt(reply.value, committed), false));
    }
  }

  /** The retry loop unrolled by one attempt. */
  lemma AfterOne(world: World, begun: Moment, total: nat, tries: seq<Try>, m: Moment, left: nat)
    requires RetryFrom(world, begun, total) == After(tries, RetryFrom(world, m, left)) && left > 0
    ensures RetryFrom(world, begun, total) ==
            if world.newId(m.ids).None? then Played(tries, Ending(Errored, None, HarnessError), m.(ids := m.ids + 1))
            else
              var t := AttemptAt(world, m.(ids := m.ids + 1));
              if left > 1 && t.ran.Some? && t.ran.value.transient then After(tries + TriesOf(t.ran), RetryFrom(world, t.after, left - 1))
              else Played(tries + TriesOf(t.ran), t.ending, t.after)
  {
    hide AttemptAt;
    var t := AttemptAt(world, m.(ids := m.ids + 1));
    if left > 1 && t.ran.Some? && t.ran.value.transient {
      var rest := RetryFrom(world, t.after, left - 1);
      assert tries + ([t.ran.value] + rest.tries) == tries + [t.ran.value] + rest.tries;
    }
  }

  lemma CaseShaped(d: Decision, attempts: seq<Attempt>, status: Status, verdict: Option<Verdict>, reason: Reason)
    ensures CaseShape(CaseForAttempts(d, IdsOf(attempts), status, verdict, reason), d, attempts)
  {
  }

  method RunScenario(session: Session, d: Decision, retries: nat)
    returns (c: Case, attempts: seq<Attempt>, ghost tries: seq<Try>)
    requires session.Valid()
    modifies session
    ensures session.Valid() && SameAccount(session.ledger, old(session.ledger))
    ensures RunAt(session.world, old(session.Now()), retries) == Played(tries, EndingOf(c), session.Now())
    ensures Plays(session.world, old(session.Now()), Played(tries, EndingOf(c), session.Now()), retries)
    ensures CaseShape(c, d, attempts) && Called(old(session.calls), session.calls, tries)
  {
    hide Sound, FromWorld, Called, Accounts, AttemptAt, CanCall, Plays, RetryFrom, CaseShape, IdsOf;
    RunPlays(session.world, session.Now(), retries);
    tries := [];
    CalledNothing(session.calls);
    var invocation := session.NewID();
    if invocation.None? {
      var a;
      c, a := NonRunAttempt(session, d, Errored, HarnessError);
      return c, [a], tries;
    }
    ghost var world, begun := session.world, session.Now();
    attempts := [];
    var ids: seq<string> := [];
    var number := 1;
    while number <= retries + 1
      invariant session.Valid() && SameAccount(session.ledger, old(session.ledger))
      invariant 1 <= number <= retries + 1
      invariant ids == IdsOf(attempts)
      invariant Called(old(session.calls), session.calls, tries)
      invariant RetryFrom(world, begun, retries + 1) == After(tries, RetryFrom(world, session.Now(), retries + 2 - number))
    {
      ghost var m := session.Now();
      var id := session.NewID();
      AfterOne(world, begun, retries + 1, tries, m, retries + 2 - number);
      if id.None? { break; }
      ids := ids + [id.value];
      var last, a;
      ghost var ran, before := None, session.calls;
      last, a, ran := TryOnce(session, d, ids, id.value, number < retries + 1);
      IdsSnoc(attempts, a);
      attempts := attempts + [a];
      if ran.Some? {
        ghost var call: Call :| call.receipt == ran.value.receipt && session.calls == before + [call];
        CalledOnce(old(session.calls), before, tries, call, ran.value.transient);
        assert ran.value == Try(call.receipt, ran.value.transient);
        tries := tries + [ran.value];
      }
      if last.Some? {
        CaseShaped(d, attempts, last.value.status, last.value.verdict, last.value.reason);
        return last.value, attempts, tries;
      }
      number := number + 1;
    }
    CaseShaped(d, attempts, Errored, None, HarnessError);
    c := CaseForAttempts(d, ids, Errored, None, HarnessError);
  }

  // ----- finalizers

  /** What became of one lease: the amount charged to cleanup, or nothing if it is residual. */
  datatype Release = Release(lease: string, charged: Option<Usage>)

  function Residual(releases: seq<Release>): seq<string>
  {
    if releases == [] then []
    else Residual(releases[..|releases| - 1]) +
         if releases[|releases| - 1].charged.None? then [releases[|releases| - 1].lease] else []
  }

  function Charged(releases: seq<Release>): Usage
  {
    if releases == [] then ZERO
    else Add(Charged(releases[..|releases| - 1]),
             if releases[|releases| - 1].charged.Some? then releases[|releases| - 1].charged.value else ZERO)
  }

  lemma ReleaseSnoc(releases: seq<Release>, r: Release)
    ensures Residual(releases + [r]) == Residual(releases) + if r.charged.None? then [r.lease] else []
    ensures Charged(releases + [r]) == Add(Charged(releases), if r.charged.Some? then r.charged.value else ZERO)
  {
    assert (releases + [r])[..|releases|] == releases;
  }

  /** The cleanup account once these leases were released. */
  function CleanedUp(s: State, releases: seq<Release>): State
  {
    s.(cleanupConsumed := Add(s.cleanupConsumed, Charged(releases)))
  }

  /** Release i: the i-th last lease, charged what its finalizer reported if the cleanup account admits it. */
  predicate ReleaseAt(s: State, world: World, leases: seq<string>, releases: seq<Release>, i: nat)
    requires i < |releases| <= |leases|
  {
    var index := |leases| - 1 - i;
    var usage := world.finalize(index);
    releases[i] == Release(leases[index],
                           if usage.Some? && CleanupStep(CleanedUp(s, releases[..i]), usage.value).1.None? then usage else None)
  }

  ghost predicate Released(s: State, world: World, leases: seq<string>, releases: seq<Release>)
  {
    |releases| <= |leases| && forall i :: 0 <= i < |releases| ==> ReleaseAt(s, world, leases, releases, i)
  }

  lemma ReleasedSnoc(s: State, world: World, leases: seq<string>, releases: seq<Release>, r: Release)
    requires Released(s, world, leases, releases) && |releases| < |leases|
    requires var index := |leases| - 1 - |releases|;
             var usage := world.finalize(index);
             r == Release(leases[index], if usage.Some? && CleanupStep(CleanedUp(s, releases), usage.value).1.None? then usage else None)
    ensures Released(s, world, leases, releases + [r])
  {
    hide CleanupStep, CleanedUp;
    var longer := releases + [r];
    forall i | 0 <= i < |longer| ensures ReleaseAt(s, world, leases, longer, i) {
      assert longer[..i] == releases[..i];
      if i < |releases| { assert ReleaseAt(s, world, leases, releases, i); } else { assert releases[..i] == releases; }
    }
  }

  lemma AddAssociates(a: Usage, b: Usage, c: Usage)
    ensures Add(Add(a, b), c) == Add(a, Add(b, c)) && Add(a, ZERO) == a
  {
  }

  /** Leases in reverse plan order; each one is charged to cleanup or residual. */
  method Finalize(session: Session, leases: seq<string>) returns (residual: seq<string>, ghost releases: seq<Release>)
    requires session.Valid()
    modifies session`ledger
    ensures session.Valid()
    ensures session.ledger == old(session.ledger).(cleanupConsumed := session.ledger.cleanupConsumed)
    ensures |releases| == |leases| && Released(old(session.ledger), session.world, leases, releases)
    ensures residual == Residual(releases)
    ensures session.ledger.cleanupConsumed == Add(old(session.ledger.cleanupConsumed), Charged(releases))
  {
    hide Add, Balanced, Exceeds, FromWorld, Released, ReleaseAt, Residual, Charged;
    residual, releases := [], [];
    NoReleases(session.ledger, session.world, leases);
    AddAssociates(session.ledger.cleanupConsumed, ZERO, ZERO);
    var index := |leases|;
    while index > 0
      invariant 0 <= index <= |leases| && |releases| == |leases| - index
      invariant session.Valid() && session.ledger == old(session.ledger).(cleanupConsumed := session.ledger.cleanupConsumed)
      invariant Released(old(session.ledger), session.world, leases, releases)
      invariant residual == Residual(releases)
      invariant session.ledger.cleanupConsumed == Add(old(session.ledger.cleanupConsumed), Charged(releases))
    {
      index := index - 1;
      var usage := session.world.finalize(index);
      var charge := None;
      ghost var was := session.ledger.cleanupConsumed;
      if usage.Some? {
        var (next, error) := CleanupStep(session.ledger, usage.value);
        CleanupSound(session.ledger, session.calls, usage.value);
        if error.None? {
          session.ledger := next;
          charge := Some(usage.value);
        }
      }
      if charge.None? { residual := residual + [leases[index]]; }
      ghost var release := Release(leases[index], charge);
      ReleaseSnoc(releases, release);
      ReleasedSnoc(old(session.ledger), session.world, leases, releases, release);
      AddAssociates(old(session.ledger.cleanupConsumed), Charged(releases), if charge.Some? then charge.value else ZERO);
      AddAssociates(was, ZERO, ZERO);
      releases := releases + [release];
    }
  }

  lemma NoReleases(s: State, world: World, leases: seq<string>)
    ensures Released(s, world, leases, []) && Residual([]) == [] && Charged([]) == ZERO
  {
  }

  lemma CleanupSound(s: State, calls: seq<Call>, actual: Usage)
    requires Sound(s, calls)
    ensures Sound(CleanupStep(s, actual).0, calls) && (Accounts(s, calls) ==> Accounts(CleanupStep(s, actual).0, calls))
  {
    hide Balanced, Exceeds;
    CleanupKeeps(s, actual);
  }

  // ----- the whole plan

  /** What holds of every case, run or not. */
  ghost predicate Outcome(c: Case, d: Decision, attempts: seq<Attempt>, tries: seq<Try>, retries: nat)
  {
    && c.scenarioId == d.id && c.disposition == d.disposition
    && c.candidateMember
    && (c.applicableMember <==> d.disposition != NotApplicable)
    && (c.executedMember <==> c.status == Completed)
    && (c.status == Completed <==> c.verdict.Some?)
    && c.attemptIds == IdsOf(attempts)
    && RetryShape(tries, retries) && Concludes(EndingOf(c), tries)
    && (d.disposition != Execute ==> tries == [] && c == PlannedOnlyCase(d))
  }

  /** A reported context error is one that some poll of the context returned. */
  ghost predicate Observed(world: World, error: Option<ContextError>)
  {
    error.Some? ==> exists k :: world.contextError(k) == error
  }

  /** Once the context has an error it keeps one. */
  ghost predicate Sticky(world: World)
  {
    forall j, k :: 0 <= j < k && world.contextError(j).Some? ==> world.contextError(k).Some?
  }

  /** A cancelled scenario is reported as an error of the run; one cancelled while it ran, if the context's error lasts. */
  ghost predicate Surfaced(world: World, cases: seq<Case>, tries: seq<seq<Try>>, error: Option<ContextError>)
    requires |tries| == |cases|
  {
    forall i :: 0 <= i < |cases| && cases[i].status == Cancelled && (tries[i] == [] || Sticky(world)) ==> error.Some?
  }

  lemma SurfacedSnoc(world: World, cases: seq<Case>, tries: seq<seq<Try>>, error: Option<ContextError>, c: Case, t: seq<Try>, next: Option<ContextError>)
    requires |tries| == |cases| && Surfaced(world, cases, tries, error) && (error.Some? ==> next.Some?)
    requires c.status == Cancelled && (t == [] || Sticky(world)) ==> next.Some?
    ensures Surfaced(world, cases + [c], tries + [t], next)
  {
    hide Sticky;
    var longer, more := cases + [c], tries + [t];
    forall i | 0 <= i < |longer| && longer[i].status == Cancelled && (more[i] == [] || Sticky(world)) ensures next.Some? {
      if i < |cases| { assert longer[i] == cases[i] && more[i] == tries[i]; }
    }
  }

  method OneScenario(session: Session, d: Decision, retries: nat, states: map<string, Case>)
    returns (c: Case, attempts: seq<Attempt>, error: Option<ContextError>, ghost tries: seq<Try>)
    requires session.Valid()
    modifies session
    ensures session.Valid() && SameAccount(session.ledger, old(session.ledger))
    ensures Played(tries, EndingOf(c), session.Now()) ==
            ScenarioAt(session.world, old(session.Now()), d, retries, !FailedDependency(d, states))
    ensures Outcome(c, d, attempts, tries, retries)
    ensures Called(old(session.calls), session.calls, tries)
    ensures Observed(session.world, error) && (c.status == Cancelled && (tries == [] || Sticky(session.world)) ==> error.Some?)
  {
    hide Sound, FromWorld, Called, Accounts, RunAt, Concludes, RetryShape;
    attempts, error, tries := [], None, [];
    CalledNothing(session.calls);
    NoTries(retries);
    var context := session.Poll();
    if context.Some? { error := context; }
    if d.disposition != Execute {
      c := PlannedOnlyCase(d);
      return;
    }
    var a;
    if context.Some? {
      c, a := NonRunAttempt(session, d, Cancelled, ContextReason(context.value));
      attempts := [a];
      return;
    }
    if FailedDependency(d, states) {
      c, a := NonRunAttempt(session, d, Skipped, HarnessError);
      attempts := [a];
      return;
    }
    var resolved := session.Resolve();
    if !resolved {
      c, a := NonRunAttempt(session, d, Errored, DriverError);
      attempts := [a];
      return;
    }
    c, attempts, tries := RunScenario(session, d, retries);
    if c.status == Cancelled { error := session.Poll(); }
  }

  lemma NoTries(retries: nat)
    ensures RetryShape([], retries)
    ensures forall e: Ending :: e.status != Completed ==> Concludes(e, [])
  {
  }

  function AttemptIdLists(cases: seq<Case>): (lists: seq<seq<string>>)
    ensures |lists| == |cases|
  {
    seq(|cases|, i requires 0 <= i < |cases| => cases[i].attemptIds)
  }

  lemma AttemptIdsSnoc(cases: seq<Case>, c: Case, attempts: seq<Attempt>, more: seq<Attempt>)
    requires IdsOf(attempts) == Flatten(AttemptIdLists(cases)) && c.attemptIds == IdsOf(more)
    ensures IdsOf(attempts + more) == Flatten(AttemptIdLists(cases + [c]))
  {
    FlattenSnoc(AttemptIdLists(cases), c.attemptIds);
    assert AttemptIdLists(cases + [c]) == AttemptIdLists(cases) + [c.attemptIds];
    assert IdsOf(attempts + more) == IdsOf(attempts) + IdsOf(more);
  }

  predicate DependsOn(plan: Plan, i: nat, j: nat)
    requires i < |plan.scenarios| && j < |plan.scenarios|
  {
    plan.scenarios[j].id in plan.scenarios[i].dependsOn
  }

  /** The receipts of all Run calls, scenario by scenario. */
  function AllReceipts(tries: seq<seq<Try>>): seq<Receipt>
  {
    if tries == [] then [] else AllReceipts(tries[..|tries| - 1]) + TryReceipts(tries[|tries| - 1])
  }

  ghost predicate HasOutcome(c: Case, d: Decision, tries: seq<Try>, retries: nat)
  {
    exists attempts :: Outcome(c, d, attempts, tries, retries)
  }

  /** Case i of an executed plan. */
  ghost predicate FaithfulAt(plan: Plan, cases: seq<Case>, tries: seq<seq<Try>>, i: nat)
    requires i < |cases| <= |plan.scenarios| && |tries| == |cases| && plan.retries >= 0
  {
    && HasOutcome(cases[i], plan.scenarios[i], tries[i], plan.retries)
    && (tries[i] != [] ==>
          forall j :: 0 <= j < |plan.scenarios| && DependsOn(plan, i, j) ==> j < i && Satisfied(cases[j]))
  }

  /** The record of the first scenarios of a plan. */
  ghost predicate Faithful(plan: Plan, cases: seq<Case>, attempts: seq<Attempt>, tries: seq<seq<Try>>)
    requires plan.retries >= 0
  {
    && |cases| <= |plan.scenarios| && |tries| == |cases|
    && (forall i :: 0 <= i < |cases| ==> FaithfulAt(plan, cases, tries, i))
    && IdsOf(attempts) == Flatten(AttemptIdLists(cases))
  }

  /** `states` is the cases so far, by scenario ID. */
  ghost predicate Indexed(plan: Plan, cases: seq<Case>, states: map<string, Case>)
    requires |cases| <= |plan.scenarios|
  {
    && (forall j :: 0 <= j < |cases| ==> plan.scenarios[j].id in states && states[plan.scenarios[j].id] == cases[j])
    && (forall id :: id in states ==> exists j :: 0 <= j < |cases| && plan.scenarios[j].id == id)
  }

  /** Every scenario that scenario i depends on completed with pass or warn. */
  predicate Met(plan: Plan, cases: seq<Case>, i: nat)
    requires i < |plan.scenarios|
  {
    forall j :: 0 <= j < |plan.scenarios| && DependsOn(plan, i, j) ==> j < i && j < |cases| && Satisfied(cases[j])
  }

  /** Scenario i did from its moment on exactly what its world made of it. */
  ghost predicate FollowsAt(plan: Plan, world: World, cases: seq<Case>, tries: seq<seq<Try>>, moments: seq<Moment>, i: nat)
    requires plan.retries >= 0 && i < |cases| <= |plan.scenarios| && |tries| == |cases| && |moments| == |cases| + 1
  {
    Played(tries[i], EndingOf(cases[i]), moments[i + 1]) ==
      ScenarioAt(world, moments[i], plan.scenarios[i], plan.retries, Met(plan, cases, i))
  }

  /** The moments between the scenarios, from the start of the run on. */
  ghost predicate Follows(plan: Plan, world: World, cases: seq<Case>, tries: seq<seq<Try>>, moments: seq<Moment>)
    requires plan.retries >= 0
  {
    && |cases| <= |plan.scenarios| && |tries| == |cases| && |moments| == |cases| + 1 && moments[0] == Start(world, plan.policy)
    && forall i :: 0 <= i < |cases| ==> FollowsAt(plan, world, cases, tries, moments, i)
  }

  lemma MetIff(plan: Plan, cases: seq<Case>, states: map<string, Case>)
    requires OrderedPlan(plan.scenarios) && |cases| < |plan.scenarios| && Indexed(plan, cases, states)
    ensures Met(plan, cases, |cases|) <==> !FailedDependency(plan.scenarios[|cases|], states)
  {
    hide Satisfied, OrderedPlan, Indexed, FailedDependency;
    var i, d := |cases|, plan.scenarios[|cases|];
    if !FailedDependency(d, states) {
      forall j | 0 <= j < |plan.scenarios| && DependsOn(plan, i, j) ensures j < i && Satisfied(cases[j]) {
        DependenciesMet(plan, cases, states, i, j);
      }
    } else {
      var j := UnmetDependency(plan, cases, states);
    }
  }

  lemma UnmetDependency(plan: Plan, cases: seq<Case>, states: map<string, Case>) returns (j: nat)
    requires OrderedPlan(plan.scenarios) && |cases| < |plan.scenarios| && Indexed(plan, cases, states)
    requires FailedDependency(plan.scenarios[|cases|], states)
    ensures j < |cases| && DependsOn(plan, |cases|, j) && !Satisfied(cases[j])
  {
    hide Satisfied;
    var d := plan.scenarios[|cases|];
    var k :| 0 <= k < |d.dependsOn| && !(d.dependsOn[k] in states && Satisfied(states[d.dependsOn[k]]));
    j :| 0 <= j < |cases| && plan.scenarios[j].id == d.dependsOn[k];
  }

  lemma FollowsStep(plan: Plan, world: World, cases: seq<Case>, tries: seq<seq<Try>>, moments: seq<Moment>,
                    c: Case, t: seq<Try>, m: Moment)
    requires plan.retries >= 0 && |cases| < |plan.scenarios| && Follows(plan, world, cases, tries, moments)
    requires Played(t, EndingOf(c), m) ==
             ScenarioAt(world, moments[|cases|], plan.scenarios[|cases|], plan.retries, Met(plan, cases, |cases|))
    ensures Follows(plan, world, cases + [c], tries + [t], moments + [m])
  {
    hide ScenarioAt, Satisfied;
    var longer := cases + [c];
    forall i | 0 <= i < |longer| ensures FollowsAt(plan, world, longer, tries + [t], moments + [m], i) {
      assert Met(plan, longer, i) == Met(plan, cases, i);
      if i < |cases| { assert FollowsAt(plan, world, cases, tries, moments, i); }
    }
  }

  lemma UnmetNeverRuns(world: World, m: Moment, d: Decision, retries: nat)
    ensures ScenarioAt(world, m, d, retries, false).tries == []
  {
  }

  lemma DependenciesMet(plan: Plan, cases: seq<Case>, states: map<string, Case>, i: nat, j: nat)
    requires OrderedPlan(plan.scenarios) && i == |cases| < |plan.scenarios| && j < |plan.scenarios|
    requires Indexed(plan, cases, states) && !FailedDependency(plan.scenarios[i], states) && DependsOn(plan, i, j)
    ensures j < i && Satisfied(cases[j])
  {
    var id := plan.scenarios[j].id;
    var k :| 0 <= k < |plan.scenarios[i].dependsOn| && plan.scenarios[i].dependsOn[k] == id;
    assert id in states && Satisfied(states[id]);
    var m :| 0 <= m < |cases| && plan.scenarios[m].id == id;
    assert m == j;
  }

  lemma FaithfulStep(plan: Plan, cases: seq<Case>, attempts: seq<Attempt>, tries: seq<seq<Try>>,
                     states: map<string, Case>, c: Case, more: seq<Attempt>, t: seq<Try>)
    requires OrderedPlan(plan.scenarios) && plan.retries >= 0 && |cases| < |plan.scenarios|
    requires Faithful(plan, cases, attempts, tries) && Indexed(plan, cases, states)
    requires Outcome(c, plan.scenarios[|cases|], more, t, plan.retries)
    requires t != [] ==> !FailedDependency(plan.scenarios[|cases|], states)
    ensures Faithful(plan, cases + [c], attempts + more, tries + [t])
    ensures Indexed(plan, cases + [c], states[c.scenarioId := c])
  {
    hide Outcome, Satisfied, FailedDependency, HasOutcome, FaithfulAt, Indexed;
    var n := |cases|;
    OutcomeIds(c, plan.scenarios[n], more, t, plan.retries);
    AttemptIdsSnoc(cases, c, attempts, more);
    forall i | 0 <= i <= n ensures FaithfulAt(plan, cases + [c], tries + [t], i) {
      if i < n { FaithfulLonger(plan, cases, tries, c, t, i); } else { FaithfulNow(plan, cases, tries, states, c, more, t); }
    }
    IndexStep(plan, cases, states, c);
  }

  lemma FaithfulLonger(plan: Plan, cases: seq<Case>, tries: seq<seq<Try>>, c: Case, t: seq<Try>, i: nat)
    requires |cases| < |plan.scenarios| && |tries| == |cases| && plan.retries >= 0 && i < |cases|
    requires FaithfulAt(plan, cases, tries, i)
    ensures FaithfulAt(plan, cases + [c], tries + [t], i)
  {
    hide HasOutcome, Satisfied;
    var longer := cases + [c];
    assert longer[i] == cases[i] && (tries + [t])[i] == tries[i];
    assert forall j :: 0 <= j < i ==> longer[j] == cases[j];
  }

  lemma FaithfulNow(plan: Plan, cases: seq<Case>, tries: seq<seq<Try>>, states: map<string, Case>, c: Case, more: seq<Attempt>, t: seq<Try>)
    requires OrderedPlan(plan.scenarios) && plan.retries >= 0 && |cases| < |plan.scenarios| && |tries| == |cases|
    requires Indexed(plan, cases, states)
    requires Outcome(c, plan.scenarios[|cases|], more, t, plan.retries)
    requires t != [] ==> !FailedDependency(plan.scenarios[|cases|], states)
    ensures FaithfulAt(plan, cases + [c], tries + [t], |cases|)
  {
    hide Outcome, Satisfied, FailedDependency, Indexed;
    var n, longer := |cases|, cases + [c];
    assert longer[n] == c && (tries + [t])[n] == t;
    assert HasOutcome(c, plan.scenarios[n], t, plan.retries);
    if t != [] {
      forall j | 0 <= j < |plan.scenarios| && DependsOn(plan, n, j) ensures j < n && Satisfied(longer[j]) {
        DependenciesMet(plan, cases, states, n, j);
      }
    }
  }

  lemma IndexStep(plan: Plan, cases: seq<Case>, states: map<string, Case>, c: Case)
    requires OrderedPlan(plan.scenarios) && |cases| < |plan.scenarios| && Indexed(plan, cases, states)
    requires c.scenarioId == plan.scenarios[|cases|].id
    ensures Indexed(plan, cases + [c], states[c.scenarioId := c])
  {
    var n, longer, after := |cases|, cases + [c], states[c.scenarioId := c];
    forall id | id in after ensures exists j :: 0 <= j < |longer| && plan.scenarios[j].id == id {
      if id in states {
        var j :| 0 <= j < n && plan.scenarios[j].id == id;
      } else {
        assert plan.scenarios[n].id == id;
      }
    }
  }

  lemma OutcomeIds(c: Case, d: Decision, attempts: seq<Attempt>, tries: seq<Try>, retries: nat)
    requires Outcome(c, d, attempts, tries, retries)
    ensures c.attemptIds == IdsOf(attempts) && c.scenarioId == d.id
  {
  }

  datatype RunResult = RunResult(
    cases: seq<Case>, attempts: seq<Attempt>, ledger: State, residual: seq<string>, error: Option<ContextError>)

  lemma NothingYet(plan: Plan, world: World)
    requires plan.retries >= 0
    ensures Faithful(plan, [], [], []) && Indexed(plan, [], map[]) && Follows(plan, world, [], [], [Start(world, plan.policy)])
    ensures Observed(world, None) && Surfaced(world, [], [], None)
  {
    assert IdsOf([]) == [] && AttemptIdLists([]) == [];
  }

  datatype PlanError = InvalidPlan | NoIdentifier

  predicate ValidPlan(plan: Plan)
  {
    OrderedPlan(plan.scenarios) && plan.retries >= 0 && ValidPolicy(plan.policy)
  }

  /** What a run of a plan amounts to. */
  ghost predicate Executed(plan: Plan, world: World, result: RunResult, tries: seq<seq<Try>>, calls: seq<Call>, moments: seq<Moment>)
    requires plan.retries >= 0
  {
    && |result.cases| == |plan.scenarios|
    && Faithful(plan, result.cases, result.attempts, tries)
    && Follows(plan, world, result.cases, tries, moments)
    && ReceiptsOf(calls) == AllReceipts(tries) && Accounts(result.ledger, calls)
    && Sound(result.ledger, calls) && FromWorld(world, calls) && result.ledger.policy == plan.policy
    && Observed(world, result.error) && Surfaced(world, result.cases, tries, result.error)
  }

  method ExecutePlan(plan: Plan, world: World)
    returns (result: Result<RunResult, PlanError>, ghost tries: seq<seq<Try>>, ghost calls: seq<Call>, ghost moments: seq<Moment>,
             ghost releases: seq<Release>)
    ensures result.Ok? <==> ValidPlan(plan) && world.newId(0).Some?
    ensures result.Ok? ==> Executed(plan, world, result.value, tries, calls, moments)
    ensures result.Ok? ==>
              var last := moments[|plan.scenarios|];
              && |releases| == |plan.finalizers| && Released(last.ledger, world, plan.finalizers, releases)
              && result.value.residual == Residual(releases)
              && result.value.ledger ==
                 SnapshotStep(last.ledger.(cleanupConsumed := Add(ZERO, Charged(releases))), world.clock(last.ticks))
  {
    hide Sound, FromWorld, Outcome, FailedDependency, Add, Faithful, Indexed, Residual, Charged, Released, Surfaced, Observed, Accounts, Sticky;
    hide Follows, Met, OrderedPlan, ScenarioAt;
    tries, calls, moments, releases := [], [], [], [];
    if !ValidPlan(plan) { return Err(InvalidPlan), tries, calls, moments, releases; }
    if world.newId(0).None? { return Err(NoIdentifier), tries, calls, moments, releases; }
    var session := new Session(world, plan.policy);
    var cases: seq<Case>, attempts: seq<Attempt> := [], [];
    var states: map<string, Case> := map[];
    var error: Option<ContextError> := None;
    moments := [session.Now()];
    NothingYet(plan, world);
    for i := 0 to |plan.scenarios|
      invariant fresh(session) && session.Valid() && session.world == world && session.ledger.policy == plan.policy
      invariant session.ledger.cleanupConsumed == ZERO
      invariant |cases| == i && Faithful(plan, cases, attempts, tries) && Indexed(plan, cases, states)
      invariant |moments| == i + 1 && moments[i] == session.Now() && Follows(plan, world, cases, tries, moments)
      invariant ReceiptsOf(session.calls) == AllReceipts(tries)
      invariant |tries| == |cases| && Observed(world, error) && Surfaced(world, cases, tries, error)
    {
      var d := plan.scenarios[i];
      var c, more, stopped;
      ghost var t;
      c, more, stopped, t := OneScenario(session, d, plan.retries, states);
      MetIff(plan, cases, states);
      UnmetNeverRuns(world, moments[i], d, plan.retries);
      FollowsStep(plan, world, cases, tries, moments, c, t, session.Now());
      FaithfulStep(plan, cases, attempts, tries, states, c, more, t);
      OutcomeIds(c, d, more, t, plan.retries);
      SurfacedSnoc(world, cases, tries, error, c, t, if stopped.Some? then stopped else error);
      assert (tries + [t])[..|tries|] == tries;
      cases, attempts, tries, moments := cases + [c], attempts + more, tries + [t], moments + [session.Now()];
      states := states[d.id := c];
      if stopped.Some? { error := stopped; }
    }
    var residual;
    residual, releases := Finalize(session, plan.finalizers);
    calls := session.calls;
    session.Seal();
    result := Ok(RunResult(cases, attempts, session.ledger, residual, error));
  }

  // ----- consequences

  /** If a scenario ran, every scenario it transitively depends on completed with pass or warn. */
  lemma {:induction false} AncestorsSatisfied(plan: Plan, cases: seq<Case>, attempts: seq<Attempt>, tries: seq<seq<Try>>, path: seq<nat>)
    requires plan.retries >= 0 && |cases| == |plan.scenarios| && Faithful(plan, cases, attempts, tries)
    requires path != [] && (forall k :: 0 <= k < |path| ==> path[k] < |cases|)
    requires forall k :: 0 <= k < |path| - 1 ==> DependsOn(plan, path[k], path[k + 1])
    requires tries[path[0]] != []
    ensures forall k :: 1 <= k < |path| ==> Satisfied(cases[path[k]])
    decreases |path|
  {
    hide Outcome;
    if |path| > 1 {
      var i, j := path[0], path[1];
      assert DependsOn(plan, path[0], path[0 + 1]);
      assert FaithfulAt(plan, cases, tries, i);
      assert Satisfied(cases[j]);
      assert FaithfulAt(plan, cases, tries, j);
      CompletedRan(cases[j], plan.scenarios[j], tries[j], plan.retries);
      var rest := path[1..];
      forall k | 0 <= k < |rest| - 1 ensures DependsOn(plan, rest[k], rest[k + 1]) {
        assert rest[k] == path[k + 1] && rest[k + 1] == path[k + 1 + 1];
      }
      AncestorsSatisfied(plan, cases, attempts, tries, rest);
      forall k | 1 <= k < |path| ensures Satisfied(cases[path[k]]) {
        if k > 1 { assert rest[k - 1] == path[k]; }
      }
    }
  }

  lemma CompletedRan(c: Case, d: Decision, tries: seq<Try>, retries: nat)
    requires HasOutcome(c, d, tries, retries) && c.status == Completed
    ensures tries != []
  {
  }

  /** A run ends with nothing reserved exactly when no charge was negative. */
  lemma EndsCleanIff(ledger: State, calls: seq<Call>)
    requires Sound(ledger, calls)
    ensures ledger.reserved == ZERO <==> forall i :: 0 <= i < |calls| ==> Nonnegative(calls[i].charged)
    ensures ledger.open == map[] <==> ledger.reserved == ZERO
  {
    hide Balanced;
    NothingReserved(ledger);
    LeaksZero(calls);
  }

  lemma {:induction false} LeaksZero(calls: seq<Call>)
    ensures Leaks(calls) == 0 <==> forall i :: 0 <= i < |calls| ==> Nonnegative(calls[i].charged)
  {
    if calls != [] {
      var n := |calls| - 1;
      LeaksZero(calls[..n]);
      assert forall i :: 0 <= i < n ==> calls[..n][i] == calls[i];
    }
  }

  /** A runner whose estimates and reports are nonnegative and count at least one request. */
  ghost predicate Honest(world: World)
  {
    && (forall k :: world.estimate(k).Some? ==> Nonnegative(world.estimate(k).value) && world.estimate(k).value.requests >= 1)
    && (forall j :: HonestReply(world.run(j)))
  }

  predicate HonestReply(reply: Reply)
  {
    match reply
    case Reported(_, _, usage, _) => Nonnegative(usage) && usage.requests >= 1
    case Malformed => true
    case Broken(typed, _) =>
      typed.Some? && typed.value.usage.Some? ==> Nonnegative(typed.value.usage.value) && typed.value.usage.value.requests >= 1
  }

  /** With an honest runner nothing stays reserved and Run is called at most maxRequests times. */
  lemma HonestRunsStayWithinBudget(world: World, ledger: State, calls: seq<Call>)
    requires Honest(world) && Sound(ledger, calls) && FromWorld(world, calls)
    ensures ledger.reserved == ZERO && ledger.open == map[]
    ensures |calls| <= ledger.policy.hard.maxRequests
  {
    hide Balanced;
    forall i | 0 <= i < |calls|
      ensures calls[i].estimate.requests >= 1 && Nonnegative(calls[i].charged) && calls[i].charged.requests >= 1
    {
      assert Answers(world, calls[i], i);
      HonestCharge(world, calls[i], i);
    }
    EndsCleanIff(ledger, calls);
  }

  lemma HonestCharge(world: World, call: Call, i: nat)
    requires Honest(world) && Answers(world, call, i)
    ensures call.estimate.requests >= 1 && Nonnegative(call.charged) && call.charged.requests >= 1
  {
    var k :| world.estimate(k) == Some(call.estimate);
    assert HonestReply(world.run(i));
  }

  // ----- when Run is called

  /** A scenario calls Run exactly when the plan wants it, nothing cancelled it, its dependencies are met, its driver
      resolves, both identifiers can be had, and its first reservation is admitted. */
  lemma CallsIff(plan: Plan, world: World, cases: seq<Case>, tries: seq<seq<Try>>, moments: seq<Moment>, i: nat)
    requires plan.retries >= 0 && Follows(plan, world, cases, tries, moments) && i < |cases|
    ensures var m := moments[i];
            tries[i] != [] <==>
              && plan.scenarios[i].disposition == Execute && world.contextError(m.polls).None?
              && Met(plan, cases, i) && world.resolves(m.resolutions)
              && world.newId(m.ids).Some? && world.newId(m.ids + 1).Some? && CanCall(world, m)
  {
    hide AttemptAt, CanCall, Met;
    assert FollowsAt(plan, world, cases, tries, moments, i);
    var first := FirstAttempt(moments[i]);
    AttemptConcludes(world, first.(ids := first.ids + 1));
    CanCallLooks(world, first.(ids := first.ids + 1), moments[i]);
  }

  lemma CanCallLooks(world: World, m: Moment, n: Moment)
    requires m.estimates == n.estimates && m.ticks == n.ticks && m.ledger == n.ledger
    ensures CanCall(world, m) == CanCall(world, n)
  {
  }

  /** The moment before the first attempt of a scenario. */
  function FirstAttempt(m: Moment): Moment
  {
    m.(polls := m.polls + 1, resolutions := m.resolutions + 1, ids := m.ids + 1)
  }

  /** An attempt with a fresh identifier. */
  function NextAttempt(world: World, m: Moment): Tried
  {
    AttemptAt(world, m.(ids := m.ids + 1))
  }

  /** The moment after k attempts. */
  function AfterAttempts(world: World, m: Moment, k: nat): Moment
  {
    if k == 0 then m else NextAttempt(world, AfterAttempts(world, m, k - 1)).after
  }

  lemma {:induction false} AfterAttemptsShift(world: World, m: Moment, k: nat)
    ensures AfterAttempts(world, m, k + 1) == AfterAttempts(world, NextAttempt(world, m).after, k)
  {
    hide NextAttempt;
    if k > 0 { AfterAttemptsShift(world, m, k - 1); }
  }

  predicate CanAttempt(world: World, m: Moment)
  {
    world.newId(m.ids).Some? && CanCall(world, m)
  }

  // ----- what an answer means

  /** A typed error whose reported lists are valid. */
  predicate Sane(typed: Option<RunError>)
  {
    typed.Some? && typed.value.unknown.Some? && typed.value.evidenceValid
  }

  /** A call that may be tried again: a sane transient error that wraps no context error, and no context error at the poll after it. */
  predicate TransientAnswer(reply: Reply, context: Option<ContextError>)
  {
    && reply.Broken? && Sane(reply.typed) && reply.typed.value.kind == Transient
    && reply.cause.None? && context.None?
  }

  /** The context error that explains a broken call: the context's own, or one wrapped in an untyped or sane error. */
  function Blamed(context: Option<ContextError>, typed: Option<RunError>, cause: Option<ContextError>): Option<ContextError>
  {
    if context.Some? then context else if typed.None? || Sane(typed) then cause else None
  }

  predicate Explains(reason: string, context: Option<ContextError>, typed: Option<RunError>, cause: Option<ContextError>)
  {
    match Blamed(context, typed, cause)
    case Some(DeadlineExceeded) => reason == "budget_exhausted"
    case Some(Canceled) => reason == "cancelled_by_user"
    case None =>
      if !Sane(typed) then reason == "harness_error"
      else match typed.value.kind
        case Authentication => reason == "authentication_failed"
        case Permission => reason == "permission_denied"
        case Transient => reason == "transient_error"
        case Driver => reason == "driver_error"
        case Harness => reason == "harness_error"
  }

  /** How a case ends on a call answered at moment `m`. */
  predicate EndsOn(world: World, m: Moment, receipt: Receipt, e: Ending)
  {
    match receipt.reply
    case Reported(verdict, reason, _, _) =>
      e == Ending(Completed, Some(verdict), if receipt.committed then reason else "budget_exhausted")
    case Malformed => e == Ending(Errored, None, "harness_error")
    case Broken(typed, cause) =>
      && e.status == (if world.contextError(m.polls + 1).Some? then Cancelled else Errored) && e.verdict == None
      && Explains(e.reason, world.contextError(m.polls), typed, cause)
  }

  lemma AnswerMeans(world: World, m: Moment, receipt: Receipt)
    ensures var t := AnswerAt(world, m, receipt);
            && t.ran.Some? && (t.ran.value.transient <==> TransientAnswer(receipt.reply, world.contextError(m.polls)))
            && EndsOn(world, m, receipt, t.ending)
  {
  }

  /** A call gets the runner's next answer; it is transient and ends its case as that answer says. */
  lemma AttemptMeans(world: World, m: Moment)
    ensures var t := AttemptAt(world, m);
            && (t.ran.Some? <==> CanCall(world, m))
            && (t.ran.Some? ==>
                  && t.ran.value.receipt.reply == world.run(m.runs)
                  && (t.ran.value.transient <==> TransientAnswer(world.run(m.runs), world.contextError(m.polls)))
                  && EndsOn(world, m, t.ran.value.receipt, t.ending))
            && (t.ran.None? ==>
                  t.ending == if world.estimate(m.estimates).None? then Ending(Errored, None, "harness_error")
                              else Ending(Skipped, None, "budget_exhausted"))
  {
    hide InvokeAt, AnswerAt, CanCall, TransientAnswer, EndsOn, Concludes, SeenBefore, FailedTransiently;
    AttemptConcludes(world, m);
    if world.estimate(m.estimates).Some? {
      var asked, planned := m.(estimates := m.estimates + 1), world.estimate(m.estimates).value;
      var (next, receipt) := InvokeAt(world, asked, planned);
      InvokeKeepsPolls(world, asked, planned);
      InvokeAsks(world, asked, planned);
      if receipt.Some? {
        AnswerMeans(world, next, receipt.value);
        AnswerKeeps(world, next, receipt.value);
        EndsOnLooks(world, next, m, receipt.value, AnswerAt(world, next, receipt.value).ending);
      }
    }
  }

  lemma InvokeAsks(world: World, m: Moment, planned: Usage)
    ensures InvokeAt(world, m, planned).1.Some? ==> InvokeAt(world, m, planned).1.value.reply == world.run(m.runs)
  {
    hide ReserveStep, CommitStep;
  }

  lemma AnswerKeeps(world: World, m: Moment, receipt: Receipt)
    ensures AnswerAt(world, m, receipt).ran.Some? && AnswerAt(world, m, receipt).ran.value.receipt == receipt
  {
  }

  lemma EndsOnLooks(world: World, m: Moment, n: Moment, receipt: Receipt, e: Ending)
    requires m.polls == n.polls
    ensures EndsOn(world, m, receipt, e) == EndsOn(world, n, receipt, e)
  {
  }

  /** What the runner observed, if it reported any usage. */
  function ObservedUsage(reply: Reply): Option<Usage>
  {
    match reply
    case Reported(_, _, usage, _) => Some(usage)
    case Malformed => None
    case Broken(typed, _) => if typed.Some? then typed.value.usage else None
  }

  /** The token counts in which a report is blind: those it lists, or both if its list is invalid. */
  predicate Blind(reply: Reply, c: Component)
  {
    match reply
    case Reported(_, _, _, unknown) => (c == InputTokens && unknown.input) || (c == OutputTokens && unknown.output)
    case Malformed => true
    case Broken(typed, _) =>
      && (c == InputTokens || c == OutputTokens)
      && (typed.Some? && typed.value.unknown.Some? ==>
            if c == InputTokens then typed.value.unknown.value.input else typed.value.unknown.value.output)
  }

  /** A call is charged what was observed, component by component, and its estimate where nothing was. */
  lemma ChargeIs(reply: Reply, estimate: Usage, c: Component)
    ensures Part(Charge(reply, estimate), c) ==
            if ObservedUsage(reply).Some? && !Blind(reply, c) then Part(ObservedUsage(reply).value, c) else Part(estimate, c)
  {
  }

  // ----- when Run is called again

  /** Call k was answered transiently. */
  predicate Flaked(world: World, m: Moment, k: nat)
  {
    var before := AfterAttempts(world, m, k);
    TransientAnswer(world.run(before.runs), world.contextError(before.polls))
  }

  /**
   The retry loop: call k happens exactly when retries allow it, its identifier, estimate and
   reservation can be had, and the call before it happened and was answered transiently; it gets
   the runner's next answer.
   */
  lemma {:induction false} RetriesIff(world: World, m: Moment, left: nat, k: nat)
    ensures var tries, before := RetryFrom(world, m, left).tries, AfterAttempts(world, m, k);
            && (k < |tries| ==> Some(tries[k]) == NextAttempt(world, before).ran && tries[k].receipt.reply == world.run(before.runs))
            && (k < |tries| <==> k < left && CanAttempt(world, before) && (k > 0 ==> k <= |tries| && Flaked(world, m, k - 1)))
    decreases left
  {
    hide AttemptAt, CanCall, TransientAnswer, EndsOn, AfterAttempts, Flaked;
    FirstOfLoop(world, m);
    if left > 0 && world.newId(m.ids).Some? {
      var t, now := NextAttempt(world, m), m.(ids := m.ids + 1);
      AttemptMeans(world, now);
      CanCallLooks(world, now, m);
      if k > 0 {
        AfterAttemptsShift(world, m, k - 1);
        RetriesIff(world, t.after, left - 1, k - 1);
        if k > 1 { FlakedShift(world, m, k - 2); }
      }
    }
  }

  lemma FirstOfLoop(world: World, m: Moment)
    ensures AfterAttempts(world, m, 0) == m
    ensures Flaked(world, m, 0) <==> TransientAnswer(world.run(m.runs), world.contextError(m.polls))
  {
  }

  lemma FlakedShift(world: World, m: Moment, k: nat)
    ensures Flaked(world, m, k + 1) == Flaked(world, NextAttempt(world, m).after, k)
  {
    hide AttemptAt, TransientAnswer;
    AfterAttemptsShift(world, m, k);
  }

  /** A call is followed by another one exactly when its answer was transient, retries are left, and the next call can be made. */
  lemma TransientIsRetried(plan: Plan, world: World, cases: seq<Case>, tries: seq<seq<Try>>, moments: seq<Moment>, i: nat, k: nat)
    requires plan.retries >= 0 && Follows(plan, world, cases, tries, moments) && i < |cases| && k < |tries[i]|
    ensures var first := FirstAttempt(moments[i]);
            var now, next := AfterAttempts(world, first, k), AfterAttempts(world, first, k + 1);
            && tries[i][k].receipt.reply == world.run(now.runs)
            && (k + 1 < |tries[i]| <==>
                  TransientAnswer(world.run(now.runs), world.contextError(now.polls)) && k < plan.retries && CanAttempt(world, next))
  {
    hide RetryFrom, CanAttempt, AfterAttempts, Met, TransientAnswer, NextAttempt;
    assert FollowsAt(plan, world, cases, tries, moments, i);
    RetriesIff(world, FirstAttempt(moments[i]), plan.retries + 1, k);
    RetriesIff(world, FirstAttempt(moments[i]), plan.retries + 1, k + 1);
  }

  /** How the retry loop ends after its calls: on the last call, or on what kept the next one from being made. */
  ghost predicate EndsAfter(world: World, m: Moment, left: nat, p: Played)
  {
    var k := |p.tries|;
    var next := AfterAttempts(world, m, k);
    if k > 0 && (k == left || !Flaked(world, m, k - 1)) then EndsOn(world, AfterAttempts(world, m, k - 1), p.tries[k - 1].receipt, p.ending)
    else if world.newId(next.ids).None? || world.estimate(next.estimates).None? then p.ending == Ending(Errored, None, "harness_error")
    else p.ending == Ending(Skipped, None, "budget_exhausted")
  }

  lemma {:induction false} RetryEnds(world: World, m: Moment, left: nat)
    requires left > 0
    ensures EndsAfter(world, m, left, RetryFrom(world, m, left))
    decreases left
  {
    hide AttemptAt, CanCall, TransientAnswer, EndsOn;
    if world.newId(m.ids).Some? {
      var t, now := NextAttempt(world, m), m.(ids := m.ids + 1);
      AttemptMeans(world, now);
      CanCallLooks(world, now, m);
      assert Flaked(world, m, 0) <==> TransientAnswer(world.run(m.runs), world.contextError(m.polls));
      if t.ran.Some? && t.ran.value.transient && left > 1 {
        var rest := RetryFrom(world, t.after, left - 1);
        RetryEnds(world, t.after, left - 1);
        EndsShift(world, m, left, rest, t.ran.value);
      } else if t.ran.Some? {
        EndsOnLooks(world, now, m, t.ran.value.receipt, t.ending);
      }
    }
  }

  lemma EndsShift(world: World, m: Moment, left: nat, rest: Played, t: Try)
    requires left > 1 && EndsAfter(world, NextAttempt(world, m).after, left - 1, rest) && Flaked(world, m, 0)
    ensures EndsAfter(world, m, left, After([t], rest))
  {
    hide NextAttempt, EndsOn, Flaked, AfterAttempts;
    var p, k := After([t], rest), |rest.tries|;
    AfterAttemptsShift(world, m, k);
    if k > 0 {
      AfterAttemptsShift(world, m, k - 1);
      FlakedShift(world, m, k - 1);
      assert p.tries[k] == rest.tries[k - 1];
    }
  }

  /** How the case of a scenario that was begun ends, in terms of the runner's answers. */
  lemma CaseEnds(plan: Plan, world: World, cases: seq<Case>, tries: seq<seq<Try>>, moments: seq<Moment>, i: nat)
    requires plan.retries >= 0 && Follows(plan, world, cases, tries, moments) && i < |cases|
    ensures var m, d := moments[i], plan.scenarios[i];
            if d.disposition != Execute then EndingOf(cases[i]) == Ending(Skipped, None, d.reason)
            else if world.contextError(m.polls) == Some(DeadlineExceeded) then EndingOf(cases[i]) == Ending(Cancelled, None, "budget_exhausted")
            else if world.contextError(m.polls) == Some(Canceled) then EndingOf(cases[i]) == Ending(Cancelled, None, "cancelled_by_user")
            else if !Met(plan, cases, i) then EndingOf(cases[i]) == Ending(Skipped, None, "harness_error")
            else if !world.resolves(m.resolutions) then EndingOf(cases[i]) == Ending(Errored, None, "driver_error")
            else if world.newId(m.ids).None? then EndingOf(cases[i]) == Ending(Errored, None, "harness_error")
            else exists after :: EndsAfter(world, FirstAttempt(m), plan.retries + 1, Played(tries[i], EndingOf(cases[i]), after))
  {
    hide RetryFrom, EndsAfter, Met;
    assert FollowsAt(plan, world, cases, tries, moments, i);
    RetryEnds(world, FirstAttempt(moments[i]), plan.retries + 1);
    var p := RetryFrom(world, FirstAttempt(moments[i]), plan.retries + 1);
    assert p == Played(p.tries, p.ending, p.after);
  }

  // ----- a run in which nothing fails

  /** The first n estimates together. */
  function Planned(world: World, n: nat): Usage
  {
    if n == 0 then ZERO
    else Add(Planned(world, n - 1), if world.estimate(n - 1).Some? then world.estimate(n - 1).value else ZERO)
  }

  /** Call k is estimated, passes, and costs at most its estimate. */
  predicate Passes(world: World, k: nat)
  {
    && world.estimate(k).Some? && Reservable(world.estimate(k).value)
    && world.run(k).Reported? && (world.run(k).verdict == Pass || world.run(k).verdict == Warn)
    && Nonnegative(Charge(world.run(k), world.estimate(k).value))
    && AtMost(Charge(world.run(k), world.estimate(k).value), world.estimate(k).value)
  }

  ghost predicate Healthy(world: World, policy: Policy)
  {
    && (forall k :: world.newId(k).Some?) && (forall k :: world.contextError(k).None?) && (forall k :: world.resolves(k))
    && (forall k :: world.clock(k) < world.clock(0) + policy.maxDuration) && (forall k :: Passes(world, k))
  }

  /** Every call so far was committed within its estimate. */
  ghost predicate OnTrack(world: World, policy: Policy, m: Moment)
  {
    && m.runs == m.estimates && m.ledger.policy == policy && m.ledger.deadline == world.clock(0) + policy.maxDuration
    && !m.ledger.exhausted && m.ledger.reserved == ZERO && AtMost(m.ledger.consumed, Planned(world, m.runs))
  }

  lemma {:induction false} PlannedGrows(world: World, k: nat, n: nat)
    requires k <= n && forall j :: Passes(world, j)
    ensures AtMost(Planned(world, k), Planned(world, n))
    decreases n - k
  {
    if k < n {
      assert Passes(world, n - 1);
      PlannedGrows(world, k, n - 1);
    }
  }

  lemma FitsLess(u: Usage, v: Usage, limits: Limits)
    requires AtMost(u, v) && Fits(v, limits)
    ensures Fits(u, limits)
  {
  }

  /** Reserving an admitted estimate and committing no more than it leaves nothing reserved. */
  lemma WithinEstimate(s: State, planned: Usage, now: int, charge: Usage, at: int, bound: Usage)
    requires Reservable(planned) && Nonnegative(charge) && AtMost(charge, planned)
    requires s.reserved == ZERO && !s.exhausted && now < s.deadline && at < s.deadline
    requires AtMost(s.consumed, bound) && Fits(Add(bound, planned), s.policy.hard)
    ensures var (held, ticket) := ReserveStep(s, planned, now);
            && ticket.Ok?
            && var (t, error) := CommitStep(held, ticket.value, charge, at);
               && error.None? && t.reserved == ZERO && !t.exhausted && AtMost(t.consumed, Add(bound, planned))
               && t.policy == s.policy && t.deadline == s.deadline
  {
    hide Exceeds, Fits, PositiveDifference;
    FitsIff(Add(Add(s.consumed, s.reserved), planned), s.policy.hard);
    FitsIff(Add(s.consumed, charge), s.policy.hard);
    FitsLess(Add(Add(s.consumed, s.reserved), planned), Add(bound, planned), s.policy.hard);
    FitsLess(Add(s.consumed, charge), Add(bound, planned), s.policy.hard);
  }

  lemma AttemptOnTrack(world: World, policy: Policy, m: Moment, n: nat)
    requires Healthy(world, policy) && OnTrack(world, policy, m) && m.runs < n && Fits(Planned(world, n), policy.hard)
    ensures var t, reply := AttemptAt(world, m), world.run(m.runs);
            && reply.Reported? && t.ran == Some(Try(Receipt(reply, true), false))
            && t.ending == Ending(Completed, Some(reply.verdict), reply.reason)
            && OnTrack(world, policy, t.after) && t.after.runs == m.runs + 1
  {
    hide ReserveStep, CommitStep, Fits, Charge, AtMost, Add, Reservable;
    assert Passes(world, m.runs);
    var planned := world.estimate(m.runs).value;
    PlannedGrows(world, m.runs + 1, n);
    FitsLess(Planned(world, m.runs + 1), Planned(world, n), policy.hard);
    WithinEstimate(m.ledger, planned, world.clock(m.ticks), Charge(world.run(m.runs), planned), world.clock(m.ticks + 1), Planned(world, m.runs));
  }

  lemma ScenarioOnTrack(world: World, policy: Policy, m: Moment, d: Decision, retries: nat, met: bool, n: nat)
    requires Healthy(world, policy) && OnTrack(world, policy, m) && m.runs < n && Fits(Planned(world, n), policy.hard)
    requires d.disposition == Execute ==> met
    ensures var p, reply := ScenarioAt(world, m, d, retries, met), world.run(m.runs);
            && OnTrack(world, policy, p.after) && p.after.runs == m.runs + (if d.disposition == Execute then 1 else 0)
            && (d.disposition == Execute ==>
                  && |p.tries| == 1 && reply.Reported? && (reply.verdict == Pass || reply.verdict == Warn)
                  && p.ending == Ending(Completed, Some(reply.verdict), reply.reason))
  {
    hide AttemptAt, Fits, AtMost, Planned;
    if d.disposition == Execute {
      var first := FirstAttempt(m);
      var begun := first.(ids := first.ids + 1);
      AttemptOnTrack(world, policy, begun, n);
      assert Passes(world, m.runs);
      assert RetryFrom(world, first, retries + 1) == Played([AttemptAt(world, begun).ran.value], AttemptAt(world, begun).ending, AttemptAt(world, begun).after);
    }
  }

  /** How many of the first scenarios the plan wants executed. */
  function Wanted(scenarios: seq<Decision>): nat
  {
    if scenarios == [] then 0
    else Wanted(scenarios[..|scenarios| - 1]) + if scenarios[|scenarios| - 1].disposition == Execute then 1 else 0
  }

  /** Executed scenarios depend on executed ones only. */
  predicate Closed(plan: Plan)
  {
    forall i, j :: 0 <= i < |plan.scenarios| && 0 <= j < |plan.scenarios| && DependsOn(plan, i, j) ==>
      j < i && (plan.scenarios[i].disposition == Execute ==> plan.scenarios[j].disposition == Execute)
  }

  lemma {:induction false} StaysOnTrack(plan: Plan, world: World, cases: seq<Case>, tries: seq<seq<Try>>, moments: seq<Moment>, n: nat, i: nat)
    requires plan.retries >= 0 && Follows(plan, world, cases, tries, moments) && Closed(plan) && i <= |cases|
    requires Healthy(world, plan.policy) && |cases| <= n && Fits(Planned(world, n), plan.policy.hard)
    ensures OnTrack(world, plan.policy, moments[i]) && moments[i].runs == Wanted(plan.scenarios[..i]) <= i
    ensures forall j :: 0 <= j < i && plan.scenarios[j].disposition == Execute ==> CompletedAt(world, cases, tries, moments, j)
    decreases i
  {
    hide ScenarioAt, Fits, OnTrack, Healthy, Satisfied;
    if i == 0 {
      StartsOnTrack(world, plan.policy);
    } else {
      var k := i - 1;
      StaysOnTrack(plan, world, cases, tries, moments, n, k);
      assert FollowsAt(plan, world, cases, tries, moments, k);
      if plan.scenarios[k].disposition == Execute {
        forall j | 0 <= j < |plan.scenarios| && DependsOn(plan, k, j) ensures j < k && Satisfied(cases[j]) {
          assert CompletedAt(world, cases, tries, moments, j);
        }
      }
      ScenarioOnTrack(world, plan.policy, moments[k], plan.scenarios[k], plan.retries, Met(plan, cases, k), n);
      assert plan.scenarios[..i][..k] == plan.scenarios[..k];
      if plan.scenarios[k].disposition == Execute { SatisfiedByPass(cases[k]); }
    }
  }

  lemma StartsOnTrack(world: World, policy: Policy)
    ensures OnTrack(world, policy, Start(world, policy)) && Start(world, policy).runs == 0
  {
  }

  lemma SatisfiedByPass(c: Case)
    ensures c.status == Completed && (c.verdict == Some(Pass) || c.verdict == Some(Warn)) <==> Satisfied(c)
  {
  }

  /** Scenario i made one call and completed with its answer, which passes. */
  ghost predicate CompletedAt(world: World, cases: seq<Case>, tries: seq<seq<Try>>, moments: seq<Moment>, i: nat)
    requires i < |cases| && |tries| == |cases| && |moments| == |cases| + 1
  {
    var reply := world.run(moments[i].runs);
    && |tries[i]| == 1 && Satisfied(cases[i])
    && reply.Reported? && EndingOf(cases[i]) == Ending(Completed, Some(reply.verdict), reply.reason)
  }

  /**
   With nothing failing and a budget that covers the estimates, every scenario the plan wants executed
   runs once and completes with the runner's own answer, in plan order.
   */
  lemma HealthyPlanCompletes(plan: Plan, world: World, result: RunResult, tries: seq<seq<Try>>, calls: seq<Call>, moments: seq<Moment>, i: nat)
    requires plan.retries >= 0 && Executed(plan, world, result, tries, calls, moments)
    requires Closed(plan) && Healthy(world, plan.policy) && Fits(Planned(world, |plan.scenarios|), plan.policy.hard)
    requires i < |plan.scenarios| && plan.scenarios[i].disposition == Execute
    ensures |tries[i]| == 1 && Satisfied(result.cases[i])
    ensures var reply := world.run(Wanted(plan.scenarios[..i]));
            reply.Reported? && EndingOf(result.cases[i]) == Ending(Completed, Some(reply.verdict), reply.reason)
  {
    hide Fits, Healthy, Closed, OnTrack;
    StaysOnTrack(plan, world, result.cases, tries, moments, |plan.scenarios|, |plan.scenarios|);
    StaysOnTrack(plan, world, result.cases, tries, moments, |plan.scenarios|, i);
    assert CompletedAt(world, result.cases, tries, moments, i);
  }

  // ----- a run that leaks

  const OneRequest := ZERO.(requests := 1)

  /** One scenario, always resolved, never cancelled, estimated at one request and reported at minus one. */
  function LeakingPlan(policy: Policy): Plan
  {
    Plan([Decision("s", Execute, "", [])], 0, policy, [])
  }

  function LeakingWorld(verdict: Verdict): World
  {
    World(_ => Some("id"), _ => None, _ => 0, _ => true, _ => Some(OneRequest),
          _ => Reported(verdict, "", ZERO.(requests := -1), Unknown(false, false)), _ => None)
  }

  lemma LeakingScenario(policy: Policy, verdict: Verdict)
    requires ValidPolicy(policy) && policy.maxDuration > 0
    ensures var world := LeakingWorld(verdict);
            var p := ScenarioAt(world, Start(world, policy), LeakingPlan(policy).scenarios[0], 0, true);
            && p.ending == Ending(Completed, Some(verdict), BudgetExhausted)
            && p.after.ledger.open == map[1 := OneRequest] && p.after.ledger.reserved == OneRequest && p.after.ledger.consumed == ZERO
  {
    hide AttemptAt, Open, ValidPolicy;
    var world := LeakingWorld(verdict);
    var m := FirstAttempt(Start(world, policy));
    var t := NextAttempt(world, m);
    LeakingAttempt(policy, verdict, m.(ids := m.ids + 1));
    assert RetryFrom(world, m, 1) == Played([t.ran.value], t.ending, t.after);
  }

  lemma LeakingAttempt(policy: Policy, verdict: Verdict, m: Moment)
    requires ValidPolicy(policy) && policy.maxDuration > 0 && m.ledger == Open(policy, 0)
    ensures var t := AttemptAt(LeakingWorld(verdict), m);
            && t.ending == Ending(Completed, Some(verdict), BudgetExhausted) && t.ran.Some? && !t.ran.value.transient
            && t.after.ledger.open == map[1 := OneRequest] && t.after.ledger.reserved == OneRequest && t.after.ledger.consumed == ZERO
  {
    hide ReserveStep, CommitStep, Charge, ValidPolicy, Open;
    var world := LeakingWorld(verdict);
    var asked := m.(estimates := m.estimates + 1);
    var charge := ZERO.(requests := -1);
    LeakingReserve(policy);
    var (held, ticket) := ReserveStep(asked.ledger, OneRequest, 0);
    LeakingCommit(held, ticket.value, charge);
    assert Charge(world.run(m.runs), OneRequest) == charge by { ChargeKnown(verdict, "", charge, OneRequest); }
    assert InvokeAt(world, asked, OneRequest) ==
           (asked.(ledger := held, ticks := m.ticks + 2, runs := m.runs + 1), Some(Receipt(world.run(m.runs), false)));
  }

  lemma LeakingReserve(policy: Policy)
    requires ValidPolicy(policy) && policy.maxDuration > 0
    ensures var (held, ticket) := ReserveStep(Open(policy, 0), OneRequest, 0);
            ticket == Ok(1) && held.open == map[1 := OneRequest] && held.reserved == OneRequest && held.consumed == ZERO
  {
  }

  lemma LeakingCommit(held: State, ticket: nat, charge: Usage)
    requires !Nonnegative(charge)
    ensures CommitStep(held, ticket, charge, 0) == (held, Some(InvalidConsumption))
  {
  }

  lemma ChargeKnown(verdict: Verdict, reason: Reason, usage: Usage, planned: Usage)
    ensures Charge(Reported(verdict, reason, usage, Unknown(false, false)), planned) == usage
  {
  }

  /** A runner that reports a negative amount leaves its reservation open: the commit is refused, the case
      completes as exhausted, and nothing in the rest of the run releases what was reserved. */
  method NegativeReportLeaks(policy: Policy, verdict: Verdict) returns (result: RunResult)
    requires ValidPolicy(policy) && policy.maxDuration > 0
    ensures |result.cases| == 1 && EndingOf(result.cases[0]) == Ending(Completed, Some(verdict), BudgetExhausted)
    ensures result.ledger.open == map[1 := OneRequest] && result.ledger.reserved == OneRequest && result.ledger.consumed == ZERO
  {
    var plan, world := LeakingPlan(policy), LeakingWorld(verdict);
    var run;
    ghost var tries, calls, moments, releases;
    run, tries, calls, moments, releases := ExecutePlan(plan, world);
    hide ScenarioAt, Faithful, Sound, Accounts, Surfaced;
    assert FollowsAt(plan, world, run.value.cases, tries, moments, 0);
    assert Met(plan, run.value.cases, 0);
    LeakingScenario(policy, verdict);
    result := run.value;
  }
}
