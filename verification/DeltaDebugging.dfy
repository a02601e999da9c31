/**
 Bounded delta debugging (internal/minimizer/minimizer.go).  The predicate is an
 arbitrary oracle: its k-th call on a candidate may match, miss or fail, so every
 flaky, adaptive or failing predicate is covered.
 */
module DeltaDebugging {
  import opened Common

  datatype Answer = Match | Miss | Broken

  type Oracle<!T> = (nat, seq<T>) -> Answer

  datatype Options = Options(attempts: int, requiredPasses: int, maxEvaluations: int)

  predicate ValidOptions(o: Options)
  {
    1 <= o.requiredPasses <= o.attempts && 1 <= o.maxEvaluations
  }

  function Normalize(o: Options): (r: Option<Options>)
    ensures r.Some? ==> ValidOptions(r.value)
  {
    var attempts := if o.attempts == 0 then 1 else o.attempts;
    var required := if o.requiredPasses == 0 then attempts else o.requiredPasses;
    var budget := if o.maxEvaluations == 0 then 1000 else o.maxEvaluations;
    if attempts < 1 || required < 1 || required > attempts || budget < 1 then None
    else Some(Options(attempts, required, budget))
  }

  /** Unset options mean one attempt, all attempts required and a thousand evaluations; negative ones and
      more passes than attempts are refused. */
  lemma DefaultsAre(o: Options)
    ensures var attempts := if o.attempts == 0 then 1 else o.attempts;
            Normalize(o).None? <==> o.attempts < 0 || o.requiredPasses < 0 || o.maxEvaluations < 0 || o.requiredPasses > attempts
    ensures Normalize(o).Some? ==>
              var r := Normalize(o).value;
              && (if o.attempts == 0 then r.attempts == 1 else r.attempts == o.attempts)
              && (if o.requiredPasses == 0 then r.requiredPasses == r.attempts else r.requiredPasses == o.requiredPasses)
              && (if o.maxEvaluations == 0 then r.maxEvaluations == 1000 else r.maxEvaluations == o.maxEvaluations)
  {
  }

  // ----- k-of-n over the whole sample

  /** How many of the `n` calls from number `start` on give the answer. */
  function Tally<T>(oracle: Oracle<T>, candidate: seq<T>, start: nat, n: nat, answer: Answer): (count: nat)
    ensures count <= n
  {
    if n == 0 then 0
    else Tally(oracle, candidate, start, n - 1, answer) +
         if oracle(start + n - 1, candidate) == answer then 1 else 0
  }

  datatype Verdict = Reproduced | Rejected | Unsettled | OutOfBudget

  /** What the first `n` answers from call `start` on decide. */
  function DecidedBy<T>(oracle: Oracle<T>, options: Options, candidate: seq<T>, start: nat, n: nat): Verdict
    requires ValidOptions(options)
  {
    if Tally(oracle, candidate, start, n, Match) >= options.requiredPasses then Reproduced
    else if Tally(oracle, candidate, start, n, Miss) > options.attempts - options.requiredPasses then Rejected
    else Unsettled
  }

  /** The verdict of counting all attempts. */
  function KOfN<T>(oracle: Oracle<T>, options: Options, candidate: seq<T>, start: nat): Verdict
    requires ValidOptions(options)
  {
    DecidedBy(oracle, options, candidate, start, options.attempts)
  }

  lemma {:induction false} TallyGrows<T>(oracle: Oracle<T>, candidate: seq<T>, start: nat, m: nat, n: nat, answer: Answer)
    requires m <= n
    ensures Tally(oracle, candidate, start, m, answer) <= Tally(oracle, candidate, start, n, answer)
    decreases n - m
  {
    if m < n { TallyGrows(oracle, candidate, start, m, n - 1, answer); }
  }

  lemma {:induction false} TallyExclusive<T>(oracle: Oracle<T>, candidate: seq<T>, start: nat, n: nat)
    ensures Tally(oracle, candidate, start, n, Match) + Tally(oracle, candidate, start, n, Miss) +
            Tally(oracle, candidate, start, n, Broken) == n
  {
    if n > 0 { TallyExclusive(oracle, candidate, start, n - 1); }
  }

  lemma {:induction false} NoBrokenAnswers<T>(oracle: Oracle<T>, candidate: seq<T>, start: nat, n: nat)
    requires forall k, c :: oracle(k, c) != Broken
    ensures Tally(oracle, candidate, start, n, Broken) == 0
  {
    if n > 0 { NoBrokenAnswers(oracle, candidate, start, n - 1); }
  }

  /** A predicate that never fails always settles. */
  lemma KOfNSettles<T>(oracle: Oracle<T>, options: Options, candidate: seq<T>, start: nat)
    requires ValidOptions(options) && forall k, c :: oracle(k, c) != Broken
    ensures KOfN(oracle, options, candidate, start) != Unsettled
  {
    TallyExclusive(oracle, candidate, start, options.attempts);
    NoBrokenAnswers(oracle, candidate, start, options.attempts);
  }

  /** One candidate check: what was checked, with which predicate calls, and the verdict. */
  datatype Check<T> = Check(candidate: seq<T>, start: nat, used: nat, verdict: Verdict)

  /** The check stopped at its first decisive answer, after all attempts, or at the end of the budget. */
  ghost predicate Sampled<T>(check: Check<T>, oracle: Oracle<T>, options: Options)
    requires ValidOptions(options)
  {
    var decision := DecidedBy(oracle, options, check.candidate, check.start, check.used);
    && check.used <= options.attempts
    && (forall n: nat :: n < check.used ==> DecidedBy(oracle, options, check.candidate, check.start, n) == Unsettled)
    && match check.verdict
       case OutOfBudget => decision == Unsettled && check.used < options.attempts && check.start + check.used == options.maxEvaluations
       case Unsettled => decision == Unsettled && check.used == options.attempts
       case _ => decision == check.verdict
  }

  /** Stopping early never changes the verdict of the whole sample. */
  lemma SampledIsKOfN<T>(check: Check<T>, oracle: Oracle<T>, options: Options)
    requires ValidOptions(options) && Sampled(check, oracle, options) && check.verdict != OutOfBudget
    ensures check.verdict == KOfN(oracle, options, check.candidate, check.start)
  {
    TallyGrows(oracle, check.candidate, check.start, check.used, options.attempts, Match);
    TallyGrows(oracle, check.candidate, check.start, check.used, options.attempts, Miss);
    TallyExclusive(oracle, check.candidate, check.start, options.attempts);
  }

  /** The predicate calls of a run of checks. */
  function CallsMade<T>(log: seq<Check<T>>): nat
  {
    if log == [] then 0 else CallsMade(log[..|log| - 1]) + log[|log| - 1].used
  }

  ghost predicate TruthfulAt<T>(log: seq<Check<T>>, i: nat, oracle: Oracle<T>, options: Options)
    requires ValidOptions(options) && i < |log|
  {
    log[i].start == CallsMade(log[..i]) && Sampled(log[i], oracle, options)
  }

  /** The log is the run: each check starts with the call after the previous check's last one. */
  ghost predicate Truthful<T>(log: seq<Check<T>>, oracle: Oracle<T>, options: Options)
    requires ValidOptions(options)
  {
    forall i :: 0 <= i < |log| ==> TruthfulAt(log, i, oracle, options)
  }

  lemma TruthfulSnoc<T>(log: seq<Check<T>>, check: Check<T>, oracle: Oracle<T>, options: Options)
    requires ValidOptions(options) && Truthful(log, oracle, options)
    requires check.start == CallsMade(log) && Sampled(check, oracle, options)
    ensures Truthful(log + [check], oracle, options) && CallsMade(log + [check]) == CallsMade(log) + check.used
  {
    hide Sampled;
    var longer := log + [check];
    assert longer[..|log|] == log;
    forall i | 0 <= i < |longer| ensures TruthfulAt(longer, i, oracle, options) {
      assert longer[..i] == log[..i];
      if i < |log| { assert TruthfulAt(log, i, oracle, options); } else { assert log[..i] == log; }
    }
  }

  lemma TruthfulIsKOfN<T>(log: seq<Check<T>>, i: nat, oracle: Oracle<T>, options: Options)
    requires ValidOptions(options) && Truthful(log, oracle, options) && i < |log| && log[i].verdict != OutOfBudget
    ensures log[i].verdict == KOfN(oracle, options, log[i].candidate, log[i].start)
  {
    assert TruthfulAt(log, i, oracle, options);
    SampledIsKOfN(log[i], oracle, options);
  }

  /** Some check of the run settled nothing. */
  ghost predicate Unclear<T>(log: seq<Check<T>>)
  {
    exists i :: 0 <= i < |log| && log[i].verdict == Unsettled
  }

  lemma UnclearOne<T>(check: Check<T>)
    ensures Unclear([check]) <==> check.verdict == Unsettled
  {
    assert [check][0] == check;
  }

  lemma UnclearSnoc<T>(log: seq<Check<T>>, check: Check<T>)
    ensures Unclear(log + [check]) <==> Unclear(log) || check.verdict == Unsettled
  {
    var longer := log + [check];
    assert longer[|log|] == check;
    if Unclear(log) { var i :| 0 <= i < |log| && log[i].verdict == Unsettled; assert longer[i] == log[i]; }
  }

  class Evaluator<!T(==)> {
    const oracle: Oracle<T>
    const options: Options
    var count: nat
    ghost var log: seq<Check<T>>

    ghost predicate Valid()
      reads this
    {
      && ValidOptions(options)
      && Truthful(log, oracle, options)
      && count == CallsMade(log) <= options.maxEvaluations
      && count <= options.attempts * |log|
    }

    constructor (oracle: Oracle<T>, options: Options)
      requires ValidOptions(options)
      ensures this.oracle == oracle && this.options == options
      ensures Valid() && count == 0 && log == []
    {
      this.oracle, this.options, count, log := oracle, options, 0, [];
    }

    /** The attempt loop: early exit never changes the verdict of the whole sample. */
    method Sample(candidate: seq<T>) returns (verdict: Verdict)
      requires ValidOptions(options) && count <= options.maxEvaluations
      modifies this`count
      ensures old(count) <= count <= options.maxEvaluations && count <= old(count) + options.attempts
      ensures Sampled(Check(candidate, old(count), count - old(count), verdict), oracle, options)
      ensures verdict != OutOfBudget ==> verdict == KOfN(oracle, options, candidate, old(count))
    {
      var passes, failures := 0, 0;
      ghost var start := count;
      var attempt := 0;
      while attempt < options.attempts
        invariant 0 <= attempt <= options.attempts
        invariant count == start + attempt <= options.maxEvaluations
        invariant passes == Tally(oracle, candidate, start, attempt, Match) < options.requiredPasses
        invariant failures == Tally(oracle, candidate, start, attempt, Miss) <= options.attempts - options.requiredPasses
        invariant forall n: nat :: n <= attempt ==> DecidedBy(oracle, options, candidate, start, n) == Unsettled
      {
        if count >= options.maxEvaluations { return OutOfBudget; }
        var answer := oracle(count, candidate);
        count := count + 1;
        attempt := attempt + 1;
        if answer == Match { passes := passes + 1; }
        if answer == Miss { failures := failures + 1; }
        if passes >= options.requiredPasses {
          SampledIsKOfN(Check(candidate, start, attempt, Reproduced), oracle, options);
          return Reproduced;
        }
        if failures > options.attempts - options.requiredPasses {
          SampledIsKOfN(Check(candidate, start, attempt, Rejected), oracle, options);
          return Rejected;
        }
      }
      verdict := Unsettled;
    }

    method Evaluate(candidate: seq<T>) returns (verdict: Verdict)
      requires Valid()
      modifies this
      ensures Valid()
      ensures count >= old(count) && log == old(log) + [Check(candidate, old(count), count - old(count), verdict)]
      ensures verdict == OutOfBudget ==> options.maxEvaluations < options.attempts * |log|
    {
      hide KOfN, Truthful, DecidedBy;
      verdict := Sample(candidate);
      ghost var check := Check(candidate, old(count), count - old(count), verdict);
      assert options.attempts * (|log| + 1) == options.attempts * |log| + options.attempts;
      TruthfulSnoc(log, check, oracle, options);
      log := log + [check];
    }
  }

  // ----- candidates

  /** `s` without the elements from `start` up to `end`. */
  function Without<T>(s: seq<T>, start: nat, end: nat): seq<T>
    requires start <= end <= |s|
  {
    s[..start] + s[end..]
  }

  function RemoveAt<T>(s: seq<T>, i: nat): seq<T>
    requires i < |s|
  {
    Without(s, i, i + 1)
  }

  /** `part` is `whole` at the strictly increasing positions `kept`. */
  ghost predicate Selects<T>(kept: seq<nat>, part: seq<T>, whole: seq<T>)
  {
    && |kept| == |part|
    && (forall i :: 0 <= i < |kept| ==> kept[i] < |whole| && part[i] == whole[kept[i]])
    && (forall i, j :: 0 <= i < j < |kept| ==> kept[i] < kept[j])
  }

  ghost predicate Subsequence<T>(part: seq<T>, whole: seq<T>)
  {
    exists kept :: Selects(kept, part, whole)
  }

  lemma WithoutIsSubsequence<T>(part: seq<T>, whole: seq<T>, start: nat, end: nat)
    requires Subsequence(part, whole) && start <= end <= |part|
    ensures Subsequence(Without(part, start, end), whole)
  {
    var kept :| Selects(kept, part, whole);
    assert Selects(Without(kept, start, end), Without(part, start, end), whole);
  }

  lemma WholeIsSubsequence<T>(whole: seq<T>)
    ensures Subsequence(whole, whole)
  {
    assert Selects(seq(|whole|, i requires 0 <= i => i), whole, whole);
  }

  /** Some check gave this candidate this verdict. */
  ghost predicate Checked<T>(log: seq<Check<T>>, candidate: seq<T>, verdict: Verdict)
  {
    exists i :: 0 <= i < |log| && log[i].candidate == candidate && log[i].verdict == verdict
  }

  lemma CheckedLater<T>(log: seq<Check<T>>, more: seq<Check<T>>, candidate: seq<T>, verdict: Verdict)
    requires Checked(log, candidate, verdict)
    ensures Checked(log + more, candidate, verdict)
  {
    var i :| 0 <= i < |log| && log[i].candidate == candidate && log[i].verdict == verdict;
    assert (log + more)[i] == log[i];
  }

  lemma CheckedLast<T>(log: seq<Check<T>>, check: Check<T>)
    ensures Checked(log + [check], check.candidate, check.verdict)
  {
    assert (log + [check])[|log|] == check;
  }

  /** Every removal of one element was conclusively rejected. */
  ghost predicate OneMinimal<T>(log: seq<Check<T>>, items: seq<T>, upTo: nat)
    requires upTo <= |items|
  {
    forall i :: 0 <= i < upTo ==> Checked(log, RemoveAt(items, i), Rejected)
  }

  lemma OneMinimalLater<T>(log: seq<Check<T>>, more: seq<Check<T>>, items: seq<T>, upTo: nat)
    requires upTo <= |items| && OneMinimal(log, items, upTo)
    ensures OneMinimal(log + more, items, upTo)
  {
    forall i | 0 <= i < upTo ensures Checked(log + more, RemoveAt(items, i), Rejected) {
      CheckedLater(log, more, RemoveAt(items, i), Rejected);
    }
  }

  // ----- one pass over the partitions

  datatype Sweep = Reduced(start: nat, end: nat) | Irreducible | Exhausted

  lemma PartitionCount(k: nat, chunk: nat, length: nat, granularity: nat)
    requires k * chunk < length <= granularity * chunk
    ensures k < granularity
  {
    assert granularity * chunk - k * chunk == (granularity - k) * chunk;
  }

  /** The partition loop.  A partition is smaller than the whole, so the
      source's skip of an empty candidate never happens. */
  method TryPartitions<T(==)>(ev: Evaluator<T>, current: seq<T>, chunk: nat, ghost granularity: nat)
    returns (sweep: Sweep, inconclusive: bool)
    requires ev.Valid() && 1 <= chunk < |current| <= granularity * chunk
    modifies ev
    ensures ev.Valid() && old(ev.log) <= ev.log && |ev.log| <= |old(ev.log)| + granularity
    ensures sweep.Reduced? ==>
              sweep.start < sweep.end <= |current| && sweep.end - sweep.start <= chunk && Without(current, sweep.start, sweep.end) != [] &&
              Checked(ev.log, Without(current, sweep.start, sweep.end), Reproduced)
    ensures sweep == Irreducible && !inconclusive && chunk == 1 ==> OneMinimal(ev.log, current, |current|)
    ensures sweep == Exhausted ==> ev.options.maxEvaluations < ev.options.attempts * |ev.log| && RanOut(ev.log)
    ensures Unclear(ev.log) <==> Unclear(old(ev.log)) || inconclusive
  {
    hide Checked, KOfN, Truthful, Unclear, CallsMade, ValidOptions;
    inconclusive := false;
    var start := 0;
    ghost var k := 0;
    while start < |current|
      invariant ev.Valid() && old(ev.log) <= ev.log && |ev.log| == |old(ev.log)| + k
      invariant start == k * chunk && (k > 0 ==> k - 1 < granularity)
      invariant !inconclusive && chunk == 1 ==> OneMinimal(ev.log, current, if start <= |current| then start else |current|)
      invariant chunk == 1 ==> start <= |current|
      invariant Unclear(ev.log) <==> Unclear(old(ev.log)) || inconclusive
      decreases |current| - start
    {
      PartitionCount(k, chunk, |current|, granularity);
      var end := if start + chunk <= |current| then start + chunk else |current|;
      var candidate := Without(current, start, end);
      ghost var before, from := ev.log, ev.count;
      var verdict := ev.Evaluate(candidate);
      ghost var check := Check(candidate, from, ev.count - from, verdict);
      CheckedLast(before, check);
      UnclearSnoc(before, check);
      if verdict == OutOfBudget { return Exhausted, inconclusive; }
      if verdict == Reproduced { return Reduced(start, end), inconclusive; }
      if verdict == Unsettled {
        inconclusive := true;
      } else if !inconclusive && chunk == 1 {
        OneMinimalLater(before, [check], current, start);
      }
      assert (k + 1) * chunk == k * chunk + chunk;
      start := start + chunk;
      k := k + 1;
    }
    sweep := Irreducible;
  }

  /** A check settles nothing only if one of its own predicate calls failed. */
  lemma UnsettledMeansBroken<T>(oracle: Oracle<T>, options: Options, log: seq<Check<T>>, i: nat)
    requires ValidOptions(options) && Truthful(log, oracle, options) && i < |log| && log[i].verdict == Unsettled
    ensures exists k :: log[i].start <= k < log[i].start + log[i].used && oracle(k, log[i].candidate) == Broken
  {
    assert TruthfulAt(log, i, oracle, options);
    TallyExclusive(oracle, log[i].candidate, log[i].start, options.attempts);
    BrokenAmong(oracle, log[i].candidate, log[i].start, options.attempts);
  }

  lemma {:induction false} BrokenAmong<T>(oracle: Oracle<T>, candidate: seq<T>, start: nat, n: nat)
    requires Tally(oracle, candidate, start, n, Broken) > 0
    ensures exists k :: start <= k < start + n && oracle(k, candidate) == Broken
  {
    if oracle(start + n - 1, candidate) != Broken { BrokenAmong(oracle, candidate, start, n - 1); }
  }

  /** The last check stopped at the end of the budget. */
  ghost predicate RanOut<T>(log: seq<Check<T>>)
  {
    log != [] && log[|log| - 1].verdict == OutOfBudget
  }

  // ----- the minimizer

  datatype Status = Minimized | Unchanged | Inconclusive

  datatype Reason = NoReason | InsufficientSamples | BudgetExhausted | FlakyDetected

  datatype Minimization<T> = Minimization(
    items: seq<T>, status: Status, reason: Reason, evaluations: nat, attempts: int, required: int)

  datatype Error = InvalidOptions | EvaluationBudgetExhausted | DoesNotReproduce | Cancelled

  /** The proven bound on candidate checks for an input of `n` items. */
  function CheckBound(n: nat): nat { 1 + 2 * n * (if n == 0 then 0 else n - 1) }

  /** The candidate's partition size at a granularity. */
  function ChunkSize(length: nat, granularity: nat): (chunk: nat)
    requires 2 <= granularity && 2 <= length
    ensures 1 <= chunk < length <= granularity * chunk
    ensures granularity >= length ==> chunk == 1
    ensures granularity <= length ==> length - chunk >= granularity - 1
  {
    var chunk := (length + granularity - 1) / granularity;
    ChunkSizeFacts(length, granularity, chunk);
    chunk
  }

  lemma ChunkSizeFacts(length: nat, granularity: nat, chunk: int)
    requires 2 <= granularity && 2 <= length && chunk == (length + granularity - 1) / granularity
    ensures 1 <= chunk < length <= granularity * chunk
    ensures granularity >= length ==> chunk == 1
    ensures granularity <= length ==> length - chunk >= granularity - 1
  {
    var slack := (length + granularity - 1) % granularity;
    assert length + granularity - 1 == granularity * chunk + slack;
    assert granularity * chunk == granularity + granularity * (chunk - 1);
    MulSign(granularity, chunk);
    MulSign(granularity, chunk - 1);
    MulSign(granularity - 2, chunk);
    assert granularity * chunk == 2 * chunk + (granularity - 2) * chunk;
    if granularity <= length {
      ShrinkKeepsRoom(length, granularity, chunk);
    }
  }

  lemma MulSign(a: nat, b: int)
    ensures b >= 0 ==> a * b >= 0
    ensures a > 0 ==> (a * b > 0 <==> b > 0)
    ensures a > 0 && b > 0 ==> a * b >= a
  {
    if b > 0 {
      assert a * b == a + a * (b - 1);
    }
  }

  lemma MulLess(g: nat, a: int, b: int)
    requires g * a < g * b
    ensures a < b
  {
    assert g * b - g * a == g * (b - a);
    MulSign(g, b - a);
  }

  /** Removing one partition leaves room for one partition fewer. */
  lemma ShrinkKeepsRoom(length: nat, granularity: nat, chunk: int)
    requires 2 <= granularity <= length && granularity * chunk <= length + granularity - 1
    ensures length - chunk >= granularity - 1
  {
    var x := length - granularity;
    MulSign(granularity - 1, x);
    assert granularity * x == x + (granularity - 1) * x;
    assert granularity * (x + 2) == granularity * x + 2 * granularity;
    MulLess(granularity, chunk, x + 2);
  }

  /** Everything a caller may conclude from a result. */
  ghost predicate Justified<T(!new)>(m: Minimization<T>, input: seq<T>, oracle: Oracle<T>, options: Options, log: seq<Check<T>>)
    requires ValidOptions(options)
  {
    && Truthful(log, oracle, options) && m.evaluations == CallsMade(log)
    && |log| <= CheckBound(|input|)
    && m.evaluations <= options.attempts * |log| && m.evaluations <= options.maxEvaluations
    && StartsWith(log, input, if m.reason == InsufficientSamples then Unsettled else Reproduced)
    && Subsequence(m.items, input)
    && (if m.reason == InsufficientSamples then m.items == input else Checked(log, m.items, Reproduced))
    && (m.status != Inconclusive && |m.items| >= 2 ==> OneMinimal(log, m.items, |m.items|))
    && (m.status == Minimized ==> |m.items| < |input|)
    && (m.status == Unchanged ==> |m.items| == |input|)
    && (m.status == Inconclusive <==> m.reason != NoReason)
    && (m.reason == BudgetExhausted ==> RanOut(log) && options.maxEvaluations < options.attempts * CheckBound(|input|))
    && (m.reason == NoReason ==> !Unclear(log))
    && (m.reason == FlakyDetected || m.reason == InsufficientSamples ==> Unclear(log))
  }

  /** The first check was of this candidate. */
  ghost predicate StartsWith<T>(log: seq<Check<T>>, candidate: seq<T>, verdict: Verdict)
  {
    log != [] && log[0].candidate == candidate && log[0].verdict == verdict
  }

  lemma BoundStep(n: nat, log: int, spent: int, more: int, next: int)
    requires log <= 1 + n * spent && more <= n && next >= spent + 1
    ensures log + more <= 1 + n * next
  {
    assert n * (spent + 1) == n * spent + n;
    MulSign(n, next - spent - 1);
    assert n * next == n * (spent + 1) + n * (next - spent - 1);
  }

  lemma BoundTotal(n: nat, spent: int)
    requires n >= 1 && spent <= 2 * n - 2
    ensures 1 + n * spent <= CheckBound(n)
  {
    MulSign(n, 2 * n - 2 - spent);
    assert n * (2 * n - 2) == n * spent + n * (2 * n - 2 - spent);
    assert n * (2 * n - 2) == 2 * n * (n - 1);
  }

  lemma BudgetBound(attempts: nat, log: nat, bound: nat, budget: int)
    requires budget < attempts * log && log <= bound
    ensures budget < attempts * bound
  {
    MulSign(attempts, bound - log);
    assert attempts * bound == attempts * log + attempts * (bound - log);
  }

  method DDMin<T(==, !new)>(input: seq<T>, oracle: Oracle<T>, cancelled: nat -> bool, options: Options)
    returns (result: Result<Minimization<T>, Error>, ghost log: seq<Check<T>>)
    ensures result == Err(InvalidOptions) <==> Normalize(options).None?
    ensures result.Ok? ==> Normalize(options).Some? && Justified(result.value, input, oracle, Normalize(options).value, log)
    ensures result == Err(DoesNotReproduce) ==>
              Normalize(options).Some? && KOfN(oracle, Normalize(options).value, input, 0) == Rejected
    ensures result == Err(EvaluationBudgetExhausted) ==>
              Normalize(options).Some? && Normalize(options).value.maxEvaluations < Normalize(options).value.attempts
    ensures result.Ok? || result.error == Cancelled ==> Normalize(options).Some? && KOfN(oracle, Normalize(options).value, input, 0) != Rejected
    ensures result == Err(Cancelled) ==> exists k :: cancelled(k)
  {
    hide KOfN, Checked, Truthful, CallsMade, Unclear, OneMinimal;
    log := [];
    var normalized := Normalize(options);
    if normalized.None? { return Err(InvalidOptions), log; }
    var ev := new Evaluator(oracle, normalized.value);
    var verdict := ev.Evaluate(input);
    log := ev.log;
    assert log == [Check(input, 0, ev.count, verdict)];
    if verdict == OutOfBudget { return Err(EvaluationBudgetExhausted), log; }
    TruthfulIsKOfN(log, 0, oracle, normalized.value);
    UnclearOne(log[0]);
    WholeIsSubsequence(input);
    if verdict == Unsettled {
      return Ok(ResultOf(ev, input, Inconclusive, InsufficientSamples)), log;
    }
    if verdict == Rejected { return Err(DoesNotReproduce), log; }
    CheckedLast([], log[0]);
    assert [] + [log[0]] == log;
    if |input| < 2 { return Ok(ResultOf(ev, input, Unchanged, NoReason)), log; }
    var outcome := Minimize(ev, input, cancelled);
    log := ev.log;
    result := outcome;
  }

  function ResultOf<T>(ev: Evaluator<T>, items: seq<T>, status: Status, reason: Reason): Minimization<T>
    reads ev
  {
    Minimization(items, status, reason, ev.count, ev.options.attempts, ev.options.requiredPasses)
  }

  /** What the reduction loop has established about the current items. */
  ghost predicate Good<T>(ev: Evaluator<T>, current: seq<T>, input: seq<T>)
    reads ev
  {
    && ev.Valid() && Checked(ev.log, current, Reproduced) && Subsequence(current, input) && 1 <= |current| <= |input|
    && StartsWith(ev.log, input, Reproduced)
  }

  datatype Round<T> = Stop | Shrunk(items: seq<T>) | Stuck

  /** One round at a granularity. */
  method TryGranularity<T(==)>(ev: Evaluator<T>, current: seq<T>, granularity: nat, ghost input: seq<T>)
    returns (round: Round<T>, unsettled: bool)
    requires Good(ev, current, input) && 2 <= granularity <= |current|
    modifies ev
    ensures Good(ev, current, input) && |ev.log| <= |old(ev.log)| + granularity
    ensures round.Shrunk? ==> Good(ev, round.items, input) && granularity - 1 <= |round.items| < |current|
    ensures round == Stuck && !unsettled && granularity >= |current| ==> OneMinimal(ev.log, current, |current|)
    ensures round == Stop ==> ev.options.maxEvaluations < ev.options.attempts * |ev.log| && RanOut(ev.log)
    ensures Unclear(ev.log) <==> Unclear(old(ev.log)) || unsettled
  {
    hide KOfN, Checked, Truthful, OneMinimal, Subsequence, Unclear;
    var chunk := ChunkSize(|current|, granularity);
    ghost var before := ev.log;
    var sweep;
    sweep, unsettled := TryPartitions(ev, current, chunk, granularity);
    assert before + ev.log[|before|..] == ev.log;
    CheckedLater(before, ev.log[|before|..], current, Reproduced);
    match sweep {
      case Exhausted => round := Stop;
      case Irreducible => round := Stuck;
      case Reduced(start, end) =>
        WithoutIsSubsequence(current, input, start, end);
        round := Shrunk(Without(current, start, end));
    }
  }

  /** The reduction loop. */
  method Minimize<T(==, !new)>(ev: Evaluator<T>, input: seq<T>, cancelled: nat -> bool)
    returns (result: Result<Minimization<T>, Error>)
    requires Good(ev, input, input) && |input| >= 2 && |ev.log| == 1 && !Unclear(ev.log)
    modifies ev
    ensures ev.Valid()
    ensures result.Ok? ==> Justified(result.value, input, ev.oracle, ev.options, ev.log)
    ensures result.Err? ==> result.error == Cancelled && exists k :: cancelled(k)
  {
    hide KOfN, Checked, Truthful, OneMinimal, Subsequence, Unclear;
    var n := |input|;
    var current := input;
    var granularity := 2;
    var inconclusive := false;
    var round := 0;
    ghost var spent := 0;
    while |current| >= 2
      invariant Good(ev, current, input)
      invariant 2 <= granularity && (|current| >= 2 ==> granularity <= |current|) && (|current| == 1 ==> granularity == 2)
      invariant spent <= 2 * n - 2 - (2 * |current| - granularity)
      invariant |ev.log| <= 1 + n * spent
      invariant Unclear(ev.log) <==> inconclusive
      decreases 2 * |current| - granularity
    {
      if cancelled(round) { return Err(Cancelled); }
      round := round + 1;
      ghost var before := |ev.log|;
      var step, unsettled := TryGranularity(ev, current, granularity, input);
      BoundStep(n, before, spent, |ev.log| - before, spent + 1);
      spent := spent + 1;
      inconclusive := inconclusive || unsettled;
      if step == Stop {
        BoundTotal(n, spent);
        BudgetBound(ev.options.attempts, |ev.log|, CheckBound(n), ev.options.maxEvaluations);
        return Ok(ResultOf(ev, current, Inconclusive, BudgetExhausted));
      }
      if step.Shrunk? {
        current := step.items;
        granularity := if granularity - 1 >= 2 then granularity - 1 else 2;
      } else if granularity >= |current| {
        BoundTotal(n, spent);
        result := Conclude(ev, input, current, inconclusive);
        return;
      } else {
        granularity := if |current| <= granularity * 2 then |current| else granularity * 2;
      }
    }
    BoundTotal(n, spent);
    result := Conclude(ev, input, current, inconclusive);
  }

  method Conclude<T(==, !new)>(ev: Evaluator<T>, input: seq<T>, current: seq<T>, inconclusive: bool)
    returns (result: Result<Minimization<T>, Error>)
    requires Good(ev, current, input) && |ev.log| <= CheckBound(|input|)
    requires Unclear(ev.log) <==> inconclusive
    requires !inconclusive && |current| >= 2 ==> OneMinimal(ev.log, current, |current|)
    ensures result.Ok? && Justified(result.value, input, ev.oracle, ev.options, ev.log)
  {
    hide KOfN, Checked, Truthful, OneMinimal, Subsequence, Unclear;
    if inconclusive {
      result := Ok(ResultOf(ev, current, Inconclusive, FlakyDetected));
    } else {
      result := Ok(ResultOf(ev, current, if |current| == |input| then Unchanged else Minimized, NoReason));
    }
  }

  // ----- consequences for callers

  ghost predicate Pure<T(!new)>(oracle: Oracle<T>, p: seq<T> -> bool)
  {
    forall k, c :: oracle(k, c) == if p(c) then Match else Miss
  }

  lemma {:induction false} PureTally<T(!new)>(oracle: Oracle<T>, p: seq<T> -> bool, candidate: seq<T>, start: nat, n: nat)
    requires Pure(oracle, p)
    ensures Tally(oracle, candidate, start, n, Match) == if p(candidate) then n else 0
    ensures Tally(oracle, candidate, start, n, Miss) == if p(candidate) then 0 else n
  {
    if n > 0 { PureTally(oracle, p, candidate, start, n - 1); }
  }

  lemma PureVerdict<T(!new)>(oracle: Oracle<T>, p: seq<T> -> bool, options: Options, log: seq<Check<T>>, candidate: seq<T>, verdict: Verdict)
    requires ValidOptions(options) && Truthful(log, oracle, options) && Pure(oracle, p)
    requires Checked(log, candidate, verdict) && verdict != OutOfBudget
    ensures verdict == if p(candidate) then Reproduced else Rejected
  {
    var i :| 0 <= i < |log| && log[i].candidate == candidate && log[i].verdict == verdict;
    TruthfulIsKOfN(log, i, oracle, options);
    PureTally(oracle, p, candidate, log[i].start, options.attempts);
  }

  lemma PureIsClear<T(!new)>(oracle: Oracle<T>, p: seq<T> -> bool, options: Options, log: seq<Check<T>>)
    requires ValidOptions(options) && Truthful(log, oracle, options) && Pure(oracle, p)
    ensures !Unclear(log)
  {
    hide Truthful;
    forall i | 0 <= i < |log| ensures log[i].verdict != Unsettled {
      if log[i].verdict == Unsettled { UnsettledMeansBroken(oracle, options, log, i); }
    }
  }

  /** With a deterministic predicate and the proven budget, minimization always
      concludes, the result satisfies the predicate, and no single element of a
      result of two or more can be spared. */
  lemma PurePredicateIsMinimized<T(!new)>(
    m: Minimization<T>, input: seq<T>, oracle: Oracle<T>, options: Options, log: seq<Check<T>>, p: seq<T> -> bool)
    requires ValidOptions(options) && Justified(m, input, oracle, options, log) && Pure(oracle, p)
    requires options.maxEvaluations >= options.attempts * CheckBound(|input|)
    ensures m.status != Inconclusive && p(m.items)
    ensures |m.items| >= 2 ==> forall i :: 0 <= i < |m.items| ==> !p(RemoveAt(m.items, i))
  {
    hide Truthful, Checked, Subsequence, KOfN, CheckBound;
    PureIsClear(oracle, p, options, log);
    PureVerdict(oracle, p, options, log, m.items, Reproduced);
    if |m.items| >= 2 {
      forall i | 0 <= i < |m.items| ensures !p(RemoveAt(m.items, i)) {
        assert Checked(log, RemoveAt(m.items, i), Rejected);
        PureVerdict(oracle, p, options, log, RemoveAt(m.items, i), Rejected);
      }
    }
  }

  // ----- minimizing a JSON object by its keys

  function Retain<V>(whole: map<string, V>, keys: seq<string>): map<string, V>
  {
    map key | key in keys && key in whole :: whole[key]
  }

  datatype KeyError = MissingKey(key: string) | DuplicateKey(key: string) | Failed(error: Error)

  /** The predicate on key lists that a predicate on objects induces. */
  function KeyOracle<V>(whole: map<string, V>, oracle: (nat, map<string, V>) -> Answer): Oracle<string>
  {
    (k: nat, keys: seq<string>) => oracle(k, Retain(whole, keys))
  }

  ghost predicate UsableKeys<V>(whole: map<string, V>, keys: seq<string>)
  {
    Distinct(keys) && forall i :: 0 <= i < |keys| ==> keys[i] in whole
  }

  method CheckKeys<V>(whole: map<string, V>, keys: seq<string>) returns (error: Option<KeyError>)
    ensures error.None? <==> UsableKeys(whole, keys)
    ensures error.Some? ==> !error.value.Failed?
  {
    var seen: set<string> := {};
    for i := 0 to |keys|
      invariant forall key :: key in seen <==> exists j :: 0 <= j < i && keys[j] == key
      invariant forall j, k :: 0 <= j < k < i ==> keys[j] != keys[k]
      invariant forall j :: 0 <= j < i ==> keys[j] in whole
    {
      var key := keys[i];
      if key !in whole { return Some(MissingKey(key)); }
      if key in seen { return Some(DuplicateKey(key)); }
      seen := seen + {key};
    }
    error := None;
  }

  method RemoveJSONObjectKeys<V(!new)>(
    whole: map<string, V>, orderedKeys: seq<string>, oracle: (nat, map<string, V>) -> Answer,
    cancelled: nat -> bool, options: Options)
    returns (result: Result<(map<string, V>, Minimization<string>), KeyError>, ghost log: seq<Check<string>>)
    ensures result.Ok? ==>
              var (output, m) := result.value;
              && Normalize(options).Some?
              && Justified(m, orderedKeys, KeyOracle(whole, oracle), Normalize(options).value, log)
              && output == Retain(whole, m.items) && output.Keys == (set key | key in m.items)
    ensures (result.Err? && !result.error.Failed?) <==> !UsableKeys(whole, orderedKeys)
  {
    hide Justified;
    log := [];
    var error := CheckKeys(whole, orderedKeys);
    if error.Some? { return Err(error.value), log; }
    var outcome;
    outcome, log := DDMin(orderedKeys, KeyOracle(whole, oracle), cancelled, options);
    if outcome.Err? { return Err(Failed(outcome.error)), log; }
    var m := outcome.value;
    JustifiedElements(m, orderedKeys, KeyOracle(whole, oracle), Normalize(options).value, log);
    assert forall key :: key in m.items ==> key in whole;
    result := Ok((Retain(whole, m.items), m));
  }

  lemma JustifiedElements<T(!new)>(m: Minimization<T>, input: seq<T>, oracle: Oracle<T>, options: Options, log: seq<Check<T>>)
    requires ValidOptions(options) && Justified(m, input, oracle, options, log)
    ensures forall x :: x in m.items ==> x in input
  {
    SubsequenceElements(m.items, input);
  }

  lemma SubsequenceElements<T>(part: seq<T>, whole: seq<T>)
    requires Subsequence(part, whole)
    ensures forall x :: x in part ==> x in whole
  {
    var kept :| Selects(kept, part, whole);
  }
}
