/**
 The budget ledger (internal/budget/ledger.go): reservations, commits that may
 overshoot, cancellations and a separate cleanup account.  Amounts are
 mathematical integers; the clock reading of each call is an argument.
 */
module BudgetLedger {
  import opened Common

  datatype Usage = Usage(
    requests: int,
    requestBytes: int,
    responseBytes: int,
    artifactBytes: int,
    processes: int,
    inputTokens: int,
    outputTokens: int)

  const ZERO := Usage(0, 0, 0, 0, 0, 0, 0)

  function Add(a: Usage, b: Usage): Usage
  {
    Usage(a.requests + b.requests, a.requestBytes + b.requestBytes, a.responseBytes + b.responseBytes,
          a.artifactBytes + b.artifactBytes, a.processes + b.processes,
          a.inputTokens + b.inputTokens, a.outputTokens + b.outputTokens)
  }

  function Subtract(a: Usage, b: Usage): Usage
  {
    Usage(a.requests - b.requests, a.requestBytes - b.requestBytes, a.responseBytes - b.responseBytes,
          a.artifactBytes - b.artifactBytes, a.processes - b.processes,
          a.inputTokens - b.inputTokens, a.outputTokens - b.outputTokens)
  }

  function Clamp(x: int): int { if x < 0 then 0 else x }

  function PositiveDifference(actual: Usage, planned: Usage): Usage
  {
    var d := Subtract(actual, planned);
    Usage(Clamp(d.requests), Clamp(d.requestBytes), Clamp(d.responseBytes), Clamp(d.artifactBytes),
          Clamp(d.processes), Clamp(d.inputTokens), Clamp(d.outputTokens))
  }

  /** Componentwise comparison. */
  predicate AtMost(a: Usage, b: Usage)
  {
    && a.requests <= b.requests && a.requestBytes <= b.requestBytes && a.responseBytes <= b.responseBytes
    && a.artifactBytes <= b.artifactBytes && a.processes <= b.processes
    && a.inputTokens <= b.inputTokens && a.outputTokens <= b.outputTokens
  }

  predicate Nonnegative(a: Usage) { AtMost(ZERO, a) }

  /** A token limit of zero means unlimited. */
  datatype Limits = Limits(
    maxRequests: int,
    maxRequestBytes: int,
    maxResponseBytes: int,
    maxArtifactBytes: int,
    maxProcesses: int,
    maxInputTokens: int,
    maxOutputTokens: int)

  datatype Component = Requests | RequestBytes | ResponseBytes | ArtifactBytes | Processes | InputTokens | OutputTokens

  /** The first exceeded component. */
  function Exceeds(u: Usage, l: Limits): Option<Component>
  {
    if u.requests > l.maxRequests then Some(Requests)
    else if u.requestBytes > l.maxRequestBytes then Some(RequestBytes)
    else if u.responseBytes > l.maxResponseBytes then Some(ResponseBytes)
    else if u.artifactBytes > l.maxArtifactBytes then Some(ArtifactBytes)
    else if u.processes > l.maxProcesses then Some(Processes)
    else if l.maxInputTokens > 0 && u.inputTokens > l.maxInputTokens then Some(InputTokens)
    else if l.maxOutputTokens > 0 && u.outputTokens > l.maxOutputTokens then Some(OutputTokens)
    else None
  }

  /** Every limited component of `u` is within its limit plus `slack`. */
  predicate Within(u: Usage, l: Limits, slack: Usage)
  {
    && u.requests <= l.maxRequests + slack.requests
    && u.requestBytes <= l.maxRequestBytes + slack.requestBytes
    && u.responseBytes <= l.maxResponseBytes + slack.responseBytes
    && u.artifactBytes <= l.maxArtifactBytes + slack.artifactBytes
    && u.processes <= l.maxProcesses + slack.processes
    && (l.maxInputTokens > 0 ==> u.inputTokens <= l.maxInputTokens + slack.inputTokens)
    && (l.maxOutputTokens > 0 ==> u.outputTokens <= l.maxOutputTokens + slack.outputTokens)
  }

  /** Every limited component is within its limit. */
  predicate Fits(u: Usage, l: Limits) { Within(u, l, ZERO) }

  lemma FitsIff(u: Usage, l: Limits)
    ensures Fits(u, l) <==> Exceeds(u, l).None?
  {
  }

  predicate ValidLimits(l: Limits)
  {
    && l.maxRequests > 0 && l.maxRequestBytes > 0 && l.maxResponseBytes > 0 && l.maxArtifactBytes > 0
    && l.maxProcesses > 0 && l.maxInputTokens >= 0 && l.maxOutputTokens >= 0
  }

  /** Hard limits with the reservation's token limits, and cleanup limits, whose tokens are unlimited. */
  datatype Policy = Policy(hard: Limits, cleanup: Limits, maxDuration: int)

  predicate ValidPolicy(p: Policy)
  {
    ValidLimits(p.hard) && ValidLimits(p.cleanup) && p.cleanup.maxInputTokens == p.cleanup.maxOutputTokens == 0
  }

  // ----- the ledger as a value

  datatype State = State(
    policy: Policy,
    deadline: int,
    consumed: Usage,
    reserved: Usage,
    cleanupConsumed: Usage,
    overshoot: Usage,
    exhausted: bool,
    nextId: nat,
    open: map<nat, Usage>)

  datatype Error = InvalidConsumption | EmptyReservation | DurationExhausted | AlreadyExhausted | LimitExceeded(component: Component) | ReservationClosed

  function Open(policy: Policy, startedAt: int): State
  {
    State(policy, startedAt + policy.maxDuration, ZERO, ZERO, ZERO, ZERO, false, 0, map[])
  }

  predicate Reservable(planned: Usage) { Nonnegative(planned) && (planned.requests != 0 || planned.processes != 0) }

  function ReserveStep(s: State, planned: Usage, now: int): (State, Result<nat, Error>)
  {
    if !Nonnegative(planned) then (s, Err(InvalidConsumption))
    else if planned.requests == 0 && planned.processes == 0 then (s, Err(EmptyReservation))
    else if now >= s.deadline then (s.(exhausted := true), Err(DurationExhausted))
    else if s.exhausted then (s, Err(AlreadyExhausted))
    else match Exceeds(Add(Add(s.consumed, s.reserved), planned), s.policy.hard)
      case Some(component) => (s, Err(LimitExceeded(component)))
      case None =>
        var id := s.nextId + 1;
        (s.(nextId := id, open := s.open[id := planned], reserved := Add(s.reserved, planned)), Ok(id))
  }

  function Close(s: State, id: nat): State
    requires id in s.open
  {
    s.(open := s.open - {id}, reserved := Subtract(s.reserved, s.open[id]))
  }

  function CommitStep(s: State, id: nat, actual: Usage, now: int): (State, Option<Error>)
  {
    if !Nonnegative(actual) then (s, Some(InvalidConsumption))
    else if id !in s.open then (s, Some(ReservationClosed))
    else
      var t := Close(s, id).(consumed := Add(s.consumed, actual),
                             overshoot := Add(s.overshoot, PositiveDifference(actual, s.open[id])));
      match Exceeds(t.consumed, s.policy.hard)
      case Some(component) => (t.(exhausted := true), Some(LimitExceeded(component)))
      case None =>
        if now >= s.deadline then (t.(exhausted := true), Some(DurationExhausted)) else (t, None)
  }

  function CancelStep(s: State, id: nat): (State, Option<Error>)
  {
    if id !in s.open then (s, Some(ReservationClosed)) else (Close(s, id), None)
  }

  function CleanupStep(s: State, actual: Usage): (State, Option<Error>)
  {
    if !Nonnegative(actual) then (s, Some(InvalidConsumption))
    else
      var projected := Add(s.cleanupConsumed, actual);
      match Exceeds(projected, s.policy.cleanup)
      case Some(component) => (s, Some(LimitExceeded(component)))
      case None => (s.(cleanupConsumed := projected), None)
  }

  function SnapshotStep(s: State, now: int): State
  {
    if now >= s.deadline then s.(exhausted := true) else s
  }

  // ----- sums

  /** The planned amounts of the open reservations numbered up to `n`. */
  function SumOpen(open: map<nat, Usage>, n: nat): Usage
  {
    if n == 0 then ZERO else Add(SumOpen(open, n - 1), if n in open then open[n] else ZERO)
  }

  function Sum(amounts: seq<Usage>): Usage
  {
    if amounts == [] then ZERO else Add(Sum(amounts[..|amounts| - 1]), amounts[|amounts| - 1])
  }

  lemma {:induction false} SumOpenSame(a: map<nat, Usage>, b: map<nat, Usage>, n: nat)
    requires forall k :: 1 <= k <= n ==> (k in a <==> k in b) && (k in a ==> a[k] == b[k])
    ensures SumOpen(a, n) == SumOpen(b, n)
  {
    if n > 0 { SumOpenSame(a, b, n - 1); }
  }

  lemma {:induction false} SumOpenRemove(open: map<nat, Usage>, id: nat, n: nat)
    requires 1 <= id && id in open
    ensures SumOpen(open - {id}, n) == if id <= n then Subtract(SumOpen(open, n), open[id]) else SumOpen(open, n)
  {
    if n > 0 { SumOpenRemove(open, id, n - 1); }
  }

  lemma {:induction false} SumOpenNonnegative(open: map<nat, Usage>, n: nat)
    requires forall k :: k in open ==> Nonnegative(open[k])
    ensures Nonnegative(SumOpen(open, n))
    ensures forall k :: 1 <= k <= n && k in open ==> AtMost(open[k], SumOpen(open, n))
  {
    if n > 0 { SumOpenNonnegative(open, n - 1); }
  }

  // ----- what every operation keeps

  ghost predicate Balanced(s: State)
  {
    && (forall id :: id in s.open ==> 1 <= id <= s.nextId && Reservable(s.open[id]))
    && s.reserved == SumOpen(s.open, s.nextId)
    && Nonnegative(s.consumed) && Nonnegative(s.overshoot) && Nonnegative(s.cleanupConsumed)
    && Within(Add(s.consumed, s.reserved), s.policy.hard, s.overshoot)
    && Within(s.cleanupConsumed, s.policy.cleanup, ZERO)
    && (Exceeds(s.consumed, s.policy.hard).Some? ==> s.exhausted)
  }

  lemma OpenIsBalanced(policy: Policy, startedAt: int)
    requires ValidPolicy(policy)
    ensures Balanced(Open(policy, startedAt))
  {
    hide SumOpen, Within, Exceeds, AtMost, ValidLimits, Add;
    EmptySum(0);
    ZeroFits(policy.hard);
    ZeroTwiceFits(policy.hard);
    ZeroFits(policy.cleanup);
  }

  lemma ZeroTwiceFits(l: Limits)
    requires ValidLimits(l)
    ensures Within(Add(ZERO, ZERO), l, ZERO)
  {
  }

  lemma ZeroFits(l: Limits)
    requires ValidLimits(l)
    ensures Within(ZERO, l, ZERO) && Exceeds(ZERO, l).None? && AtMost(ZERO, ZERO)
  {
  }

  lemma SumAfterReserve(open: map<nat, Usage>, n: nat, planned: Usage)
    ensures SumOpen(open[n + 1 := planned], n + 1) == Add(SumOpen(open, n), planned)
  {
    SumOpenSame(open, open[n + 1 := planned], n);
  }

  lemma ReserveKeeps(s: State, planned: Usage, now: int)
    requires Balanced(s)
    ensures Balanced(ReserveStep(s, planned, now).0)
  {
    hide SumOpen;
    var (t, r) := ReserveStep(s, planned, now);
    if r.Ok? { SumAfterReserve(s.open, s.nextId, planned); }
  }

  lemma CloseKeepsSum(s: State, id: nat)
    requires Balanced(s) && id in s.open
    ensures var t := Close(s, id); t.reserved == SumOpen(t.open, t.nextId)
  {
    SumOpenRemove(s.open, id, s.nextId);
  }

  lemma CommitKeeps(s: State, id: nat, actual: Usage, now: int)
    requires Balanced(s)
    ensures Balanced(CommitStep(s, id, actual, now).0)
  {
    hide SumOpen;
    if id in s.open { CloseKeepsSum(s, id); }
  }

  lemma CancelKeeps(s: State, id: nat)
    requires Balanced(s)
    ensures Balanced(CancelStep(s, id).0)
  {
    hide SumOpen;
    if id in s.open { CloseKeepsSum(s, id); }
  }

  lemma CleanupKeeps(s: State, actual: Usage)
    requires Balanced(s)
    ensures Balanced(CleanupStep(s, actual).0)
    ensures var t := CleanupStep(s, actual).0; t == s.(cleanupConsumed := t.cleanupConsumed)
  {
    hide SumOpen;
  }

  /** Nothing is reserved exactly when nothing is open. */
  lemma NothingReserved(s: State)
    requires Balanced(s)
    ensures s.reserved == ZERO <==> s.open == map[]
  {
    SumOpenNonnegative(s.open, s.nextId);
    if s.open == map[] {
      EmptySum(s.nextId);
    } else {
      var id :| id in s.open;
      assert AtMost(s.open[id], s.reserved);
    }
  }

  lemma {:induction false} EmptySum(n: nat)
    ensures SumOpen(map[], n) == ZERO
  {
    if n > 0 { EmptySum(n - 1); }
  }

  // ----- whole runs, in any interleaving

  datatype Op =
    | Reserve(planned: Usage, now: int)
    | Commit(id: nat, actual: Usage, now: int)
    | Cancel(id: nat)
    | ConsumeCleanup(actual: Usage)
    | Snapshot(now: int)

  function Apply(s: State, op: Op): State
  {
    match op
    case Reserve(planned, now) => ReserveStep(s, planned, now).0
    case Commit(id, actual, now) => CommitStep(s, id, actual, now).0
    case Cancel(id) => CancelStep(s, id).0
    case ConsumeCleanup(actual) => CleanupStep(s, actual).0
    case Snapshot(now) => SnapshotStep(s, now)
  }

  function RunOps(s: State, ops: seq<Op>): State
  {
    if ops == [] then s else Apply(RunOps(s, ops[..|ops| - 1]), ops[|ops| - 1])
  }

  /** The amounts actually booked: commits of open reservations with valid amounts. */
  function Committed(s: State, ops: seq<Op>): seq<Usage>
  {
    if ops == [] then []
    else
      var n := |ops| - 1;
      var before := RunOps(s, ops[..n]);
      Committed(s, ops[..n]) +
      if ops[n].Commit? && Nonnegative(ops[n].actual) && ops[n].id in before.open then [ops[n].actual] else []
  }

  lemma SumSnoc(amounts: seq<Usage>, amount: Usage)
    ensures Sum(amounts + [amount]) == Add(Sum(amounts), amount)
  {
    assert (amounts + [amount])[..|amounts|] == amounts;
  }

  lemma ApplyKeeps(s: State, op: Op)
    requires Balanced(s)
    ensures Balanced(Apply(s, op))
  {
    hide Balanced, ReserveStep, CommitStep, CancelStep, CleanupStep;
    match op
    case Reserve(planned, now) => ReserveKeeps(s, planned, now);
    case Commit(id, actual, now) => CommitKeeps(s, id, actual, now);
    case Cancel(id) => CancelKeeps(s, id);
    case ConsumeCleanup(actual) => CleanupKeeps(s, actual);
    case Snapshot(now) => SnapshotKeeps(s, now);
  }

  lemma SnapshotKeeps(s: State, now: int)
    requires Balanced(s)
    ensures Balanced(SnapshotStep(s, now))
  {
    hide SumOpen, Within, Exceeds;
  }

  /** What no operation undoes, and the only one that consumes. */
  lemma ApplyMoves(s: State, op: Op)
    ensures Apply(s, op).policy == s.policy
    ensures s.exhausted ==> Apply(s, op).exhausted
    ensures AtMost(s.consumed, Apply(s, op).consumed) && AtMost(s.cleanupConsumed, Apply(s, op).cleanupConsumed)
    ensures Apply(s, op).consumed ==
            if op.Commit? && Nonnegative(op.actual) && op.id in s.open then Add(s.consumed, op.actual) else s.consumed
  {
    hide Exceeds, PositiveDifference;
  }

  /** In every interleaving: the books balance, and consumption is the sum of what was committed. */
  lemma {:induction false} RunsBalance(policy: Policy, startedAt: int, ops: seq<Op>)
    requires ValidPolicy(policy)
    ensures var s := RunOps(Open(policy, startedAt), ops);
            Balanced(s) && s.policy == policy && s.consumed == Sum(Committed(Open(policy, startedAt), ops))
  {
    hide Balanced, Apply;
    var s := Open(policy, startedAt);
    if ops == [] {
      OpenIsBalanced(policy, startedAt);
    } else {
      var n := |ops| - 1;
      RunsBalance(policy, startedAt, ops[..n]);
      ApplyKeeps(RunOps(s, ops[..n]), ops[n]);
      ApplyMoves(RunOps(s, ops[..n]), ops[n]);
      var booked := Committed(s, ops[..n]);
      if ops[n].Commit? { SumSnoc(booked, ops[n].actual); }
      assert booked + [] == booked;
    }
  }

  lemma {:induction false} ExhaustionLasts(s: State, ops: seq<Op>)
    requires Balanced(s) && s.exhausted
    ensures RunOps(s, ops).exhausted && Balanced(RunOps(s, ops))
  {
    hide Balanced, Apply;
    if ops != [] {
      ExhaustionLasts(s, ops[..|ops| - 1]);
      ApplyKeeps(RunOps(s, ops[..|ops| - 1]), ops[|ops| - 1]);
      ApplyMoves(RunOps(s, ops[..|ops| - 1]), ops[|ops| - 1]);
    }
  }

  /** Once exhausted, no later reservation succeeds, whatever happens in between. */
  lemma ExhaustedNeverReserves(s: State, ops: seq<Op>, planned: Usage, now: int)
    requires Balanced(s) && s.exhausted
    ensures ReserveStep(RunOps(s, ops), planned, now).1.Err?
  {
    ExhaustionLasts(s, ops);
  }

  // ----- the ledger and its reservations as objects

  class Ledger {
    const policy: Policy
    const deadline: int
    var consumed: Usage
    var reserved: Usage
    var cleanupConsumed: Usage
    var overshoot: Usage
    var exhausted: bool
    var nextId: nat
    var open: map<nat, Reservation>

    ghost function Model(): State
      reads this
    {
      State(policy, deadline, consumed, reserved, cleanupConsumed, overshoot, exhausted, nextId,
            map id | id in open :: open[id].planned)
    }

    /** The open table holds this ledger's unclosed reservations, under their own numbers. */
    ghost predicate Valid()
      reads this, set id | id in open :: open[id]
    {
      && (forall id :: id in open ==> open[id].ledger == this && open[id].id == id && !open[id].closed)
      && Balanced(Model())
    }

    constructor (policy: Policy, startedAt: int)
      requires ValidPolicy(policy)
      ensures Model() == Open(policy, startedAt) && Valid()
    {
      this.policy, deadline := policy, startedAt + policy.maxDuration;
      consumed, reserved, cleanupConsumed, overshoot := ZERO, ZERO, ZERO, ZERO;
      exhausted, nextId, open := false, 0, map[];
      new;
      assert Model() == Open(policy, startedAt);
      OpenIsBalanced(policy, startedAt);
    }

    method Reserve(planned: Usage, now: int) returns (r: Result<Reservation, Error>)
      requires Valid()
      modifies this
      ensures Valid()
      ensures var (next, outcome) := ReserveStep(old(Model()), planned, now);
              && Model() == next && r.Ok? == outcome.Ok?
              && (r.Ok? ==> fresh(r.value) && r.value.ledger == this && r.value.id == outcome.value &&
                            r.value.planned == planned && r.value.Known())
              && (r.Err? ==> r.error == outcome.error)
      ensures open == if r.Ok? then old(open)[r.value.id := r.value] else old(open)
    {
      hide Balanced, Exceeds, Add;
      ReserveKeeps(Model(), planned, now);
      if !Nonnegative(planned) { return Err(InvalidConsumption); }
      if planned.requests == 0 && planned.processes == 0 { return Err(EmptyReservation); }
      if now >= deadline {
        exhausted := true;
        return Err(DurationExhausted);
      }
      if exhausted { return Err(AlreadyExhausted); }
      var reason := Exceeds(Add(Add(consumed, reserved), planned), policy.hard);
      if reason.Some? { return Err(LimitExceeded(reason.value)); }
      nextId := nextId + 1;
      var reservation := new Reservation(this, nextId, planned);
      open := open[nextId := reservation];
      reserved := Add(reserved, planned);
      assert Model() == ReserveStep(old(Model()), planned, now).0;
      r := Ok(reservation);
    }

    method ConsumeCleanup(actual: Usage) returns (error: Option<Error>)
      requires Valid()
      modifies this
      ensures Valid() && open == old(open)
      ensures (Model(), error) == CleanupStep(old(Model()), actual)
    {
      hide Balanced, Exceeds, Add;
      CleanupKeeps(Model(), actual);
      if !Nonnegative(actual) { return Some(InvalidConsumption); }
      var projected := Add(cleanupConsumed, actual);
      var reason := Exceeds(projected, policy.cleanup);
      if reason.Some? { return Some(LimitExceeded(reason.value)); }
      cleanupConsumed := projected;
      error := None;
    }
  }

  class Reservation {
    const ledger: Ledger
    const id: nat
    const planned: Usage
    var closed: bool

    constructor (ledger: Ledger, id: nat, planned: Usage)
      ensures this.ledger == ledger && this.id == id && this.planned == planned && !closed
    {
      this.ledger, this.id, this.planned, closed := ledger, id, planned, false;
    }

    /** Closed exactly when it has left the ledger's open table. */
    ghost predicate Known()
      reads this, ledger
    {
      && (closed <==> id !in ledger.open) && id <= ledger.nextId
      && (!closed ==> ledger.open[id] == this)
    }

    method Commit(actual: Usage, now: int) returns (error: Option<Error>)
      requires ledger.Valid() && Known()
      modifies this, ledger
      ensures ledger.Valid() && Known()
      ensures (ledger.Model(), error) == CommitStep(old(ledger.Model()), id, actual, now)
      ensures ledger.open == if Nonnegative(actual) then old(ledger.open) - {id} else old(ledger.open)
    {
      hide Balanced, Exceeds, Add, PositiveDifference;
      CommitKeeps(ledger.Model(), id, actual, now);
      if !Nonnegative(actual) { return Some(InvalidConsumption); }
      if closed { return Some(ReservationClosed); }
      Leave();
      ledger.consumed := Add(ledger.consumed, actual);
      ledger.overshoot := Add(ledger.overshoot, PositiveDifference(actual, planned));
      var reason := Exceeds(ledger.consumed, ledger.policy.hard);
      if reason.Some? {
        ledger.exhausted := true;
        return Some(LimitExceeded(reason.value));
      }
      if now >= ledger.deadline {
        ledger.exhausted := true;
        return Some(DurationExhausted);
      }
      error := None;
    }

    method Cancel() returns (error: Option<Error>)
      requires ledger.Valid() && Known()
      modifies this, ledger
      ensures ledger.Valid() && Known()
      ensures (ledger.Model(), error) == CancelStep(old(ledger.Model()), id)
      ensures ledger.open == old(ledger.open) - {id}
    {
      hide Balanced;
      CancelKeeps(ledger.Model(), id);
      if closed { return Some(ReservationClosed); }
      Leave();
      error := None;
    }

    /** Close and leave the open table. */
    method Leave()
      requires ledger.Valid() && Known() && !closed
      modifies this, ledger
      ensures closed && id !in ledger.open && ledger.open == old(ledger.open) - {id}
      ensures ledger.Model() == Close(old(ledger.Model()), id)
      ensures forall k :: k in ledger.open ==> ledger.open[k].ledger == ledger && ledger.open[k].id == k && !ledger.open[k].closed
    {
      hide Balanced;
      closed := true;
      ledger.open := ledger.open - {id};
      ledger.reserved := Subtract(ledger.reserved, planned);
      assert ledger.Model().open == old(ledger.Model()).open - {id};
    }
  }
}
