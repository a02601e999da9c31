/**
 What the ledger's numbers mean, one component at a time and over whole runs:
 which amounts fit, which reservations are open, when the budget is exhausted,
 and what every account adds up to.
 */
module BudgetAccounts {
  import opened Common
  import opened BudgetLedger

  // ----- one component at a time

  function Part(u: Usage, c: Component): int
  {
    match c
    case Requests => u.requests
    case RequestBytes => u.requestBytes
    case ResponseBytes => u.responseBytes
    case ArtifactBytes => u.artifactBytes
    case Processes => u.processes
    case InputTokens => u.inputTokens
    case OutputTokens => u.outputTokens
  }

  /** The limit on a component; tokens may be unlimited. */
  function Cap(l: Limits, c: Component): Option<int>
  {
    match c
    case Requests => Some(l.maxRequests)
    case RequestBytes => Some(l.maxRequestBytes)
    case ResponseBytes => Some(l.maxResponseBytes)
    case ArtifactBytes => Some(l.maxArtifactBytes)
    case Processes => Some(l.maxProcesses)
    case InputTokens => if l.maxInputTokens > 0 then Some(l.maxInputTokens) else None
    case OutputTokens => if l.maxOutputTokens > 0 then Some(l.maxOutputTokens) else None
  }

  predicate Over(u: Usage, l: Limits, c: Component)
  {
    Cap(l, c).Some? && Part(u, c) > Cap(l, c).value
  }

  predicate IsTokens(c: Component) { c == InputTokens || c == OutputTokens }

  /** A policy is valid exactly when every limit is positive, except that token limits may be zero and cleanup's are. */
  lemma ValidIff(p: Policy)
    ensures ValidPolicy(p) <==>
            && (forall c :: !IsTokens(c) ==> Cap(p.hard, c).value >= 1 && Cap(p.cleanup, c).value >= 1)
            && p.hard.maxInputTokens >= 0 && p.hard.maxOutputTokens >= 0
            && p.cleanup.maxInputTokens == 0 && p.cleanup.maxOutputTokens == 0
  {
    if forall c :: !IsTokens(c) ==> Cap(p.hard, c).value >= 1 && Cap(p.cleanup, c).value >= 1 {
      assert !IsTokens(Requests) && !IsTokens(RequestBytes) && !IsTokens(ResponseBytes);
      assert !IsTokens(ArtifactBytes) && !IsTokens(Processes);
    }
  }

  /** The order in which components are checked. */
  function Rank(c: Component): nat
  {
    match c
    case Requests => 0
    case RequestBytes => 1
    case ResponseBytes => 2
    case ArtifactBytes => 3
    case Processes => 4
    case InputTokens => 5
    case OutputTokens => 6
  }

  /** An amount fits exactly when no component is over its limit; otherwise the first one over it is named. */
  lemma ExceedsIff(u: Usage, l: Limits)
    ensures Fits(u, l) <==> forall c :: !Over(u, l, c)
    ensures Exceeds(u, l).None? <==> Fits(u, l)
    ensures forall c :: Exceeds(u, l) == Some(c) <==> FirstOver(u, l, c)
  {
    hide FirstOver;
    if Fits(u, l) {
      forall c ensures !FirstOver(u, l, c) { NoneOver(u, l, c); }
    } else {
      var first := Exceeds(u, l).value;
      FirstIs(u, l);
      forall c | FirstOver(u, l, c) ensures c == first { FirstIsOne(u, l, c, first); }
    }
  }

  lemma NoneOver(u: Usage, l: Limits, c: Component)
    requires Fits(u, l)
    ensures !Over(u, l, c) && !FirstOver(u, l, c)
  {
  }

  lemma FirstIs(u: Usage, l: Limits)
    requires Exceeds(u, l).Some?
    ensures Over(u, l, Exceeds(u, l).value) && FirstOver(u, l, Exceeds(u, l).value)
  {
  }

  lemma FirstIsOne(u: Usage, l: Limits, c: Component, d: Component)
    requires FirstOver(u, l, c) && FirstOver(u, l, d)
    ensures c == d
  {
    assert Rank(c) == Rank(d);
  }

  /** Amounts are added, subtracted and compared component by component. */
  lemma PartLaws(a: Usage, b: Usage)
    ensures forall c :: Part(Add(a, b), c) == Part(a, c) + Part(b, c)
    ensures forall c :: Part(Subtract(a, b), c) == Part(a, c) - Part(b, c)
    ensures forall c :: Part(PositiveDifference(a, b), c) == if Part(a, c) > Part(b, c) then Part(a, c) - Part(b, c) else 0
    ensures AtMost(a, b) <==> forall c :: Part(a, c) <= Part(b, c)
    ensures Nonnegative(a) <==> forall c :: Part(a, c) >= 0
    ensures a == b <==> forall c :: Part(a, c) == Part(b, c)
  {
    hide AtMost, Add, Subtract, PositiveDifference, Part;
    forall c
      ensures Part(Add(a, b), c) == Part(a, c) + Part(b, c)
      ensures Part(Subtract(a, b), c) == Part(a, c) - Part(b, c)
      ensures Part(PositiveDifference(a, b), c) == if Part(a, c) > Part(b, c) then Part(a, c) - Part(b, c) else 0
    {
      PartOf(a, b, c);
    }
    AtMostIff(a, b);
    AtMostIff(b, a);
    AtMostIff(ZERO, a);
    forall c ensures Part(ZERO, c) == 0 { ZeroParts(c); }
    assert AtMost(a, b) && AtMost(b, a) <==> a == b by { AtMostBoth(a, b); }
  }

  lemma PartOf(a: Usage, b: Usage, c: Component)
    ensures Part(Add(a, b), c) == Part(a, c) + Part(b, c)
    ensures Part(Subtract(a, b), c) == Part(a, c) - Part(b, c)
    ensures Part(PositiveDifference(a, b), c) == if Part(a, c) > Part(b, c) then Part(a, c) - Part(b, c) else 0
  {
  }

  lemma AtMostIff(a: Usage, b: Usage)
    ensures AtMost(a, b) <==> forall c :: Part(a, c) <= Part(b, c)
  {
    if forall c :: Part(a, c) <= Part(b, c) {
      assert Part(a, Requests) <= Part(b, Requests) && Part(a, RequestBytes) <= Part(b, RequestBytes);
      assert Part(a, ResponseBytes) <= Part(b, ResponseBytes) && Part(a, ArtifactBytes) <= Part(b, ArtifactBytes);
      assert Part(a, Processes) <= Part(b, Processes) && Part(a, InputTokens) <= Part(b, InputTokens);
      assert Part(a, OutputTokens) <= Part(b, OutputTokens);
    }
  }

  lemma AtMostBoth(a: Usage, b: Usage)
    ensures AtMost(a, b) && AtMost(b, a) <==> a == b
  {
  }

  lemma ZeroParts(c: Component)
    ensures Part(ZERO, c) == 0
  {
  }

  // ----- what a reservation needs

  /** A reservation is granted exactly when it covers a request or a process, is in time, nothing is
      exhausted, and with everything held and spent no component is over its limit. */
  lemma GrantedIff(s: State, planned: Usage, now: int)
    ensures ReserveStep(s, planned, now).1.Ok? <==>
            && (forall c :: Part(planned, c) >= 0) && (Part(planned, Requests) > 0 || Part(planned, Processes) > 0)
            && now < s.deadline && !s.exhausted
            && forall c :: Cap(s.policy.hard, c).Some? ==>
                 Part(s.consumed, c) + Part(s.reserved, c) + Part(planned, c) <= Cap(s.policy.hard, c).value
  {
    hide Exceeds, Cap;
    PartLaws(planned, planned);
    assert Nonnegative(planned) ==> Part(planned, Requests) >= 0 && Part(planned, Processes) >= 0;
    var total := Add(Add(s.consumed, s.reserved), planned);
    PartLaws(s.consumed, s.reserved);
    PartLaws(Add(s.consumed, s.reserved), planned);
    ExceedsIff(total, s.policy.hard);
    assert forall c :: Over(total, s.policy.hard, c) <==>
      Cap(s.policy.hard, c).Some? && Part(s.consumed, c) + Part(s.reserved, c) + Part(planned, c) > Cap(s.policy.hard, c).value;
  }

  /** Which refusal it is: malformed, empty, late, exhausted before, or the first component that would be over. */
  lemma RefusedAs(s: State, planned: Usage, now: int)
    requires ReserveStep(s, planned, now).1.Err?
    ensures var e := ReserveStep(s, planned, now).1.error;
            && (e == InvalidConsumption <==> !Nonnegative(planned))
            && (e == EmptyReservation <==> Nonnegative(planned) && !Reservable(planned))
            && (e == DurationExhausted <==> Reservable(planned) && now >= s.deadline)
            && (e == AlreadyExhausted <==> Reservable(planned) && now < s.deadline && s.exhausted)
            && forall c :: e == LimitExceeded(c) <==>
                 && Reservable(planned) && now < s.deadline && !s.exhausted
                 && FirstOver(Add(Add(s.consumed, s.reserved), planned), s.policy.hard, c)
  {
    hide Exceeds, Add, AtMost;
    ExceedsIff(Add(Add(s.consumed, s.reserved), planned), s.policy.hard);
  }

  ghost predicate FirstOver(u: Usage, l: Limits, c: Component)
  {
    Over(u, l, c) && forall b :: Rank(b) < Rank(c) ==> !Over(u, l, b)
  }

  /** What a commit answers: a negative amount, a settled reservation, the first component now over its
      limit, no time left, or success. */
  lemma CommittedAs(s: State, id: nat, actual: Usage, now: int)
    ensures var e := CommitStep(s, id, actual, now).1;
            var spent := Add(s.consumed, actual);
            && (e == Some(InvalidConsumption) <==> !Nonnegative(actual))
            && (e == Some(ReservationClosed) <==> Nonnegative(actual) && id !in s.open)
            && (forall c :: e == Some(LimitExceeded(c)) <==> Nonnegative(actual) && id in s.open && FirstOver(spent, s.policy.hard, c))
            && (e == Some(DurationExhausted) <==> Nonnegative(actual) && id in s.open && Fits(spent, s.policy.hard) && now >= s.deadline)
            && (e.None? <==> Nonnegative(actual) && id in s.open && Fits(spent, s.policy.hard) && now < s.deadline)
  {
    hide Exceeds, Add, AtMost, PositiveDifference, Fits;
    ExceedsIff(Add(s.consumed, actual), s.policy.hard);
  }

  // ----- what the accounts add up to

  /** What a settled reservation was granted for and what it cost. */
  datatype Booking = Booking(planned: Usage, actual: Usage)

  predicate Books(s: State, op: Op) { op.Commit? && Nonnegative(op.actual) && op.id in s.open }

  function Bookings(s: State, ops: seq<Op>): seq<Booking>
  {
    if ops == [] then []
    else
      var n := |ops| - 1;
      var before := RunOps(s, ops[..n]);
      Bookings(s, ops[..n]) + if Books(before, ops[n]) then [Booking(before.open[ops[n].id], ops[n].actual)] else []
  }

  function TotalActual(bookings: seq<Booking>, c: Component): int
  {
    if bookings == [] then 0
    else TotalActual(bookings[..|bookings| - 1], c) + Part(bookings[|bookings| - 1].actual, c)
  }

  /** By how much costs went beyond their own plans; what was saved elsewhere does not count. */
  function TotalExcess(bookings: seq<Booking>, c: Component): int
  {
    if bookings == [] then 0
    else
      var b := bookings[|bookings| - 1];
      TotalExcess(bookings[..|bookings| - 1], c) +
      if Part(b.actual, c) > Part(b.planned, c) then Part(b.actual, c) - Part(b.planned, c) else 0
  }

  predicate CleansUp(s: State, op: Op)
  {
    && op.ConsumeCleanup? && Nonnegative(op.actual)
    && Fits(Add(s.cleanupConsumed, op.actual), s.policy.cleanup)
  }

  function TotalCleanup(s: State, ops: seq<Op>, c: Component): int
  {
    if ops == [] then 0
    else
      var n := |ops| - 1;
      TotalCleanup(s, ops[..n], c) + if CleansUp(RunOps(s, ops[..n]), ops[n]) then Part(ops[n].actual, c) else 0
  }

  lemma TotalsSnoc(bookings: seq<Booking>, b: Booking, c: Component)
    ensures TotalActual(bookings + [b], c) == TotalActual(bookings, c) + Part(b.actual, c)
    ensures TotalExcess(bookings + [b], c) == TotalExcess(bookings, c) + Part(PositiveDifference(b.actual, b.planned), c)
  {
    assert (bookings + [b])[..|bookings|] == bookings;
    PartLaws(b.actual, b.planned);
  }

  lemma ApplyAccounts(s: State, op: Op)
    ensures var t := Apply(s, op);
            && t.policy == s.policy && t.deadline == s.deadline
            && t.consumed == (if Books(s, op) then Add(s.consumed, op.actual) else s.consumed)
            && t.overshoot == (if Books(s, op) then Add(s.overshoot, PositiveDifference(op.actual, s.open[op.id])) else s.overshoot)
            && t.cleanupConsumed == if CleansUp(s, op) then Add(s.cleanupConsumed, op.actual) else s.cleanupConsumed
  {
    hide Exceeds, PositiveDifference, Add, Nonnegative, Fits;
    if op.ConsumeCleanup? { FitsIff(Add(s.cleanupConsumed, op.actual), s.policy.cleanup); }
  }

  /** After any operations: consumed is what was booked, overshoot is each booking's own excess over its
      plan, and cleanup is what cleanup admitted, in every component. */
  lemma {:induction false} AccountsAddUp(policy: Policy, startedAt: int, ops: seq<Op>, c: Component)
    ensures var start := Open(policy, startedAt);
            var s := RunOps(start, ops);
            && s.policy == policy && s.deadline == startedAt + policy.maxDuration
            && Part(s.consumed, c) == TotalActual(Bookings(start, ops), c)
            && Part(s.overshoot, c) == TotalExcess(Bookings(start, ops), c)
            && Part(s.cleanupConsumed, c) == TotalCleanup(start, ops, c)
  {
    hide Apply, Part, PositiveDifference, Add, Fits, TotalActual, TotalExcess;
    var start := Open(policy, startedAt);
    if ops == [] {
      ZeroParts(c);
      NothingBooked(c);
    } else {
      var n := |ops| - 1;
      var s, op, booked := RunOps(start, ops[..n]), ops[n], Bookings(start, ops[..n]);
      AccountsAddUp(policy, startedAt, ops[..n], c);
      ApplyAccounts(s, op);
      assert booked + [] == booked;
      if Books(s, op) {
        TotalsSnoc(booked, Booking(s.open[op.id], op.actual), c);
        PartLaws(s.consumed, op.actual);
        PartLaws(s.overshoot, PositiveDifference(op.actual, s.open[op.id]));
      }
      if CleansUp(s, op) { PartLaws(s.cleanupConsumed, op.actual); }
    }
  }

  lemma NothingBooked(c: Component)
    ensures TotalActual([], c) == 0 && TotalExcess([], c) == 0
  {
  }

  // ----- when the budget is exhausted

  /** The operation reads the clock at or after the deadline. */
  predicate Late(s: State, op: Op)
  {
    match op
    case Reserve(planned, now) => Reservable(planned) && now >= s.deadline
    case Commit(_, _, now) => Books(s, op) && now >= s.deadline
    case Snapshot(now) => now >= s.deadline
    case _ => false
  }

  /** The operation books an amount that takes the consumption over a limit. */
  predicate Overspends(s: State, op: Op)
  {
    Books(s, op) && !Fits(Add(s.consumed, op.actual), s.policy.hard)
  }

  lemma ApplyExhausts(s: State, op: Op)
    ensures Apply(s, op).exhausted <==> s.exhausted || Late(s, op) || Overspends(s, op)
  {
    hide Exceeds, PositiveDifference, Add, AtMost, Fits;
    if op.Commit? { FitsIff(Add(s.consumed, op.actual), s.policy.hard); }
  }

  ghost predicate Exhausts(s: State, ops: seq<Op>)
  {
    exists i :: 0 <= i < |ops| && ExhaustsAt(s, ops, i)
  }

  predicate ExhaustsAt(s: State, ops: seq<Op>, i: nat)
    requires i < |ops|
  {
    Late(RunOps(s, ops[..i]), ops[i]) || Overspends(RunOps(s, ops[..i]), ops[i])
  }

  /** The budget is exhausted exactly when some operation came too late or overspent. */
  lemma {:induction false} ExhaustedIff(s: State, ops: seq<Op>)
    requires !s.exhausted
    ensures RunOps(s, ops).exhausted <==> Exhausts(s, ops)
  {
    hide Apply, ExhaustsAt, Late, Overspends;
    if ops != [] {
      var n := |ops| - 1;
      ExhaustedIff(s, ops[..n]);
      ApplyExhausts(RunOps(s, ops[..n]), ops[n]);
      assert ExhaustsAt(s, ops, n) <==> Late(RunOps(s, ops[..n]), ops[n]) || Overspends(RunOps(s, ops[..n]), ops[n]) by { ExhaustsNow(s, ops, n); }
      forall i | 0 <= i < n ensures ExhaustsAt(s, ops, i) == ExhaustsAt(s, ops[..n], i) { ExhaustsEarlier(s, ops, n, i); }
      if Exhausts(s, ops[..n]) {
        var i :| 0 <= i < n && ExhaustsAt(s, ops[..n], i);
        assert ExhaustsAt(s, ops, i);
      }
    }
  }

  lemma ExhaustsNow(s: State, ops: seq<Op>, i: nat)
    requires i < |ops|
    ensures ExhaustsAt(s, ops, i) <==> Late(RunOps(s, ops[..i]), ops[i]) || Overspends(RunOps(s, ops[..i]), ops[i])
  {
  }

  lemma ExhaustsEarlier(s: State, ops: seq<Op>, n: nat, i: nat)
    requires i < n <= |ops|
    ensures ExhaustsAt(s, ops, i) == ExhaustsAt(s, ops[..n], i)
  {
    assert ops[..n][..i] == ops[..i] && ops[..n][i] == ops[i];
  }

  // ----- which reservations are open

  /** The operation settles reservation `id`. */
  predicate Settles(op: Op, id: nat)
  {
    (op.Commit? && op.id == id && Nonnegative(op.actual)) || (op.Cancel? && op.id == id)
  }

  predicate Grants(s: State, op: Op, id: nat, planned: Usage)
  {
    op.Reserve? && op.planned == planned && ReserveStep(s, op.planned, op.now).1 == Ok(id)
  }

  lemma ApplyOpens(s: State, op: Op, id: nat, planned: Usage)
    requires forall k :: k in s.open ==> k <= s.nextId
    ensures var t := Apply(s, op);
            && (forall k :: k in t.open ==> k <= t.nextId)
            && (id in t.open && t.open[id] == planned <==>
                  Grants(s, op, id, planned) || (id in s.open && s.open[id] == planned && !Settles(op, id)))
  {
    hide Exceeds, PositiveDifference, Add, AtMost, Subtract;
  }

  ghost predicate Holds(s: State, ops: seq<Op>, id: nat, planned: Usage)
  {
    exists i :: 0 <= i < |ops| && HoldsSince(s, ops, id, planned, i)
  }

  /** Operation i granted the reservation and nothing has settled it since. */
  ghost predicate HoldsSince(s: State, ops: seq<Op>, id: nat, planned: Usage, i: nat)
    requires i < |ops|
  {
    Grants(RunOps(s, ops[..i]), ops[i], id, planned) && forall j :: i < j < |ops| ==> !Settles(ops[j], id)
  }

  lemma HoldsSnoc(s: State, ops: seq<Op>, op: Op, id: nat, planned: Usage)
    ensures Holds(s, ops + [op], id, planned) <==>
            Grants(RunOps(s, ops), op, id, planned) || (Holds(s, ops, id, planned) && !Settles(op, id))
  {
    hide Grants, Settles, RunOps;
    var longer := ops + [op];
    assert longer[..|ops|] == ops && longer[|ops|] == op;
    assert forall j :: 0 <= j < |ops| ==> longer[j] == ops[j];
    if Holds(s, longer, id, planned) {
      var i :| 0 <= i < |longer| && HoldsSince(s, longer, id, planned, i);
      if i < |ops| {
        assert longer[..i] == ops[..i];
        assert HoldsSince(s, ops, id, planned, i);
      }
    }
    if Grants(RunOps(s, ops), op, id, planned) { assert HoldsSince(s, longer, id, planned, |ops|); }
    if Holds(s, ops, id, planned) && !Settles(op, id) {
      var i :| 0 <= i < |ops| && HoldsSince(s, ops, id, planned, i);
      assert longer[..i] == ops[..i];
      assert HoldsSince(s, longer, id, planned, i);
    }
  }

  /** A reservation is open exactly when some operation granted it and none has settled it since. */
  lemma {:induction false} OpenIff(policy: Policy, startedAt: int, ops: seq<Op>, id: nat, planned: Usage)
    ensures var s := RunOps(Open(policy, startedAt), ops);
            && (forall k :: k in s.open ==> k <= s.nextId)
            && (id in s.open && s.open[id] == planned <==> Holds(Open(policy, startedAt), ops, id, planned))
  {
    hide Apply, Holds, Grants, Settles;
    var start := Open(policy, startedAt);
    if ops == [] {
      NothingHeld(start, id, planned);
    } else {
      var n := |ops| - 1;
      OpenIff(policy, startedAt, ops[..n], id, planned);
      ApplyOpens(RunOps(start, ops[..n]), ops[n], id, planned);
      HoldsSnoc(start, ops[..n], ops[n], id, planned);
      assert ops[..n] + [ops[n]] == ops;
    }
  }

  lemma NothingHeld(s: State, id: nat, planned: Usage)
    ensures !Holds(s, [], id, planned)
  {
  }
}
