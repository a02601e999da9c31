# AgentAPI Doctor: a verified model

AgentAPI Doctor judges streaming LLM endpoints. It assembles server-sent-event
bytes into events, decodes provider events into a typed lifecycle, judges that
lifecycle, runs a budgeted plan of scenarios, minimizes failing inputs, and
stores hash-bound evidence, run records and signed provenance. This project
models those parts and proves what they promise for every input, every
interleaving and every crash point.

How the modules fit together:

- **Stream pipeline.** `SseFraming` describes a whole byte string; `SseAssembler`
  is the incremental assembler; `SseChunking` proves that they agree however the
  bytes were divided into reads, and `SseRendering` that reading inverts writing.
  `Lifecycle` is the response state machine, `LifecycleGrammar` the declarative
  grammar that it accepts and `LifecycleViolations` what each violation code means.
  `StreamDecoder` holds the provider decoders, `WireFormats` the encoders they
  invert and `StreamCounters` the counters beside them; `StreamTheorems`,
  `BlockMirror`, `ChatAcceptance`, `ChatStreams`, `AnthropicStreams` and
  `ResponsesStreams` say which streams are accepted. `StreamOracle` is the verdict,
  and `BytesToVerdict` goes from written bytes to acceptance.
- **Delta debugging.** `DeltaDebugging`.
- **Plan, execute, report.** `BudgetLedger` and `BudgetAccounts`, `Planner`, `Executor`, `Report`.
- **Storage.** `EvidenceGraph` and `EvidenceStore` (content-addressed evidence),
  `RunStore` (publish, then repoint).
- **Provenance.** `Journal` (hash chain) and `Dsse` (signed envelopes).
- **Statistics and registry.** `Statistics`, `RegistryAuth`, `Disputes`, `Ingest`, `Purge`.
- `Common`, `Sorting` and `Decimal` are shared vocabulary.

Stateful parts of the system are classes whose methods are proved against step
functions on values; the theorems about whole runs are lemmas about those
functions. Digests, signatures, base64, JSON canonicalisation and field syntax
are function parameters: what is assumed of them (no collisions, decoding inverts
encoding, a key's own signatures verify, no signature present in an envelope is
forged) is written as a predicate that the lemmas using it require. The last of
these, `Dsse.Unforged`, speaks of one envelope and a set of signings on record,
and holds of every envelope that `Sign` and `AddSignature` make, for whoever lists
the signing key under its own identifier or not at all. Everything an operation asks
of the outside world (clock, identifiers, cancellation, the runner) is an arbitrary
answer, so results hold for all of them. Amounts and counters are mathematical
integers; times are numbers whose zero means unset; floating-point values are reals.

Where code and documentation differ the model follows the code: only LF ends a
line, one trailing CR is stripped, and an event without data is still dispatched,
unlike sections 9.2.5 and 9.2.6 of the WHATWG HTML Living Standard.

Check everything with `dafny verify dfyconfig.toml`.

## What turned out not to hold

Four properties one might expect are false of the code; each has a witness and
the exact condition under which it holds.

- A dispute snapshot taken from a live dispute need not restore: it does exactly
  when the recorded times never ran backwards (`Disputes.ReachableRestores`,
  witness `Disputes.BackwardClockIsNotRestorable`).
- Restoring a dispute does not replay its journal, so a creator can come back as
  reviewer (`Disputes.RestoreTrustsTheStatus`); a state is one that the operations
  can produce exactly when its journal replays to it (`Disputes.ReachableIffGood`).
- Restoring an ingest session does not compare digests (`Ingest.RestoreTrustsTheDigest`);
  what comes back is a possible session exactly when the staged digest is absent or
  the expected one (`Ingest.RestoredIsReachable`).
- A run can end with budget still reserved: exactly when some call's charge, after
  the estimate has replaced token counts that were not observed, has a negative
  component, so that its commit is refused (`Executor.EndsCleanIff`, witness
  `Executor.NegativeReportLeaks`).

## Model

| member | source | states |
|---|---|---|
| `SseChunking.FeedAllIsReading` | internal/recorder/sse.go:70-207 | for every stream, of any length, and every division into nonempty reads: feeding succeeds exactly when every read fits (beside the unterminated bytes within the buffer limit, with no block of the stream so far over the size or field limit and the open block with its unterminated line within it); it fails on the first read that does not, naming a limit that is broken there; otherwise the events are those of the one-pass description of the whole byte string, with exact chunk provenance |
| `SseChunking.BoundedIsReading` | internal/recorder/sse.go:70-207 | a stream no longer than the buffer limit is read, or refused exactly for its fields |
| `SseChunking.AcceptedDivisionsAgree` | internal/recorder/sse.go:70-139 | any two divisions of the same bytes that are both accepted, of whatever length, give the same events and the same tail byte and field counts |
| `SseAssembler.AdmitIff` | internal/recorder/sse.go:73-95 | which read is refused and how, each exactly when it applies: out of turn, malformed, out of place, too large for the buffer; a refused read adds nothing to the buffer |
| `SseChunking.RechunkingIsInvisible` | internal/recorder/sse.go:70-139 | two divisions of the same bytes, no longer than the buffer limit, both fail on the field limit, or give the same events (sequence, offset, fields, data, id, retry, issues) and the same tail byte and field counts |
| `SseChunking.ProvenanceCovers` | internal/recorder/sse.go:203-207 | the chunk list of an event, a contiguous ascending range, names every read that carried one of its bytes |
| `SseChunking.LimitIsPrefixClosed` | internal/recorder/sse.go:141-159 | a stream within the field limit has only prefixes within the limit, so an early failure is a failure of the whole |
| `SseChunking.ContentsIgnoreChunks` | internal/recorder/sse.go:161-201 | what an event says does not depend on the reads |
| `SseFraming.CutIsLossless` | internal/recorder/sse.go:95-128 | cutting into lines loses no byte and leaves no separator in the rest |
| `SseRendering.WritingIsRead` | internal/recorder/sse.go:70-207 | reading is the inverse of writing: for every list of blocks of fields (`name: value`, `name:value` or `name`) and comments with LF or CRLF endings, and every division into reads that is accepted, one event per block with a field, numbered, at the offset of its first field, with exactly the written fields and their meaning, and no byte left over; within the buffer limit it is refused exactly when a block has more than 1024 fields |
| `SseRendering.ParsePair` | internal/recorder/sse.go:151-157 | the name ends at the first colon and one space after it is dropped |
| `SseRendering.InterpretMeans` | internal/recorder/sse.go:161-201 | what an event says of its fields: cutting its data at LF gives back the `data` values; name, id and retry are those of the last `event`, the last `id` without NUL and the last `retry` that is a numeral below 2^63; one issue per offending field, in order |
| `SseAssembler.Assembler.Feed` | internal/recorder/sse.go:73-128 | the in-place assembler performs exactly the feed step: admission errors, line loop, emitted events and new state |
| `SseAssembler.Assembler.Consume` | internal/recorder/sse.go:141-159 | one line against the current event: blank dispatches, comment is skipped, field is parsed (as `SseRendering.ParsePair` says) and kept |
| `SseAssembler.Assembler.Dispatch` | internal/recorder/sse.go:161-201 | a dispatch emits the current fields as one event, numbers it and clears them; nothing is emitted without fields |
| `SseAssembler.ReadFields` | internal/recorder/sse.go:161-201 | the field loop computes joined data, last event name, last id without NUL, last valid retry and the issues, in order |
| `SseChunking.FinishReportsTheTail` | internal/recorder/sse.go:133-139 | after any division into reads, finishing reports the number of the stream's unterminated bytes, the number of fields of its open block, and the reads since the one that ended the last event |
| `LifecycleGrammar.AcceptedIffGrammatical` | internal/statemachine/response.go:75-284 | successive `Apply` plus `Finish` accept a trace if and only if it is in the grammar: created first and once, in_progress once and before items, fresh ids, indexes and call ids, arguments.done equal to the deltas, items closed after it, one result per closed call, one terminal, last, with no open item on completed |
| `LifecycleGrammar.EffectIffFits` | internal/statemachine/response.go:142-284 | every single transition succeeds exactly when the event fits the history |
| `LifecycleViolations.TransitionNames` | internal/statemachine/response.go:75-284 | every violation code has a condition on the events so far, and the machine reports exactly the first code, in order of precedence, whose condition holds |
| `LifecycleViolations.RunNames` | internal/statemachine/response.go:75-284 | a run fails with a code exactly when its first illegal event earns that code |
| `LifecycleGrammar.RunRemembers` | internal/statemachine/response.go:44-71 | the items, index, call and result tables, with their values, and the flags always agree with the accepted history |
| `LifecycleGrammar.ArgumentsAreDeltas` | internal/statemachine/response.go:119-125 | the arguments kept for an item are its deltas in order |
| `LifecycleGrammar.CountTerminals` | internal/statemachine/response.go:271-284 | a grammatical trace has exactly one terminal event |
| `Lifecycle.Machine.Apply` | internal/statemachine/response.go:75-108 | the machine makes exactly the specified transition, and a rejected event leaves the whole state unchanged |
| `Lifecycle.Machine.Finish` | internal/statemachine/response.go:110-115 | on a machine that applied a trace, finishing succeeds exactly when that trace is accepted, and otherwise names the missing terminal event |
| `StreamDecoder.ParseFrames` | internal/rawdriver/evaluate.go:167-233 | the event loop: decoded trace, terminal count, bounded terminal trace with its omission count, and post-terminal count |
| `StreamDecoder.Decoder.ConsumeFrame` | internal/rawdriver/evaluate.go:784-982 | the mutable decoder performs exactly the specified decoding step of its protocol, on objects read as the `WireFormats` round trips say |
| `WireFormats.ResponsesRoundTrip` | internal/rawdriver/evaluate.go:820-882 | every Responses event, encoded without reference to the reader, is read back from any object that says at least as much (empty texts may be left out); objects with any other type name are ignored |
| `WireFormats.ChatRoundTrip` | internal/rawdriver/evaluate.go:884-926 | a Chat chunk is read as the tool calls and the finish reason of its first choice, whatever else it carries, and as nothing without a choice |
| `WireFormats.AnthropicRoundTrip` | internal/rawdriver/evaluate.go:928-982 | every Anthropic event is read back under its name; exactly other names and deltas of other types are ignored |
| `WireFormats.DecodedAreLean` | internal/rawdriver/evaluate.go:784-982 | every decoded event is numbered by its position and holds only what its kind can say |
| `StreamCounters.FactsCount` | internal/rawdriver/evaluate.go:186-220 | the counters of a parsed stream: the number of marked frames, the number of data-bearing frames after one that ends the stream, and a trace of the marked frames in order, all of them or the first eight |
| `StreamCounters.MarkerIff` | internal/rawdriver/evaluate.go:394-424 | which frame is marked and how: `[DONE]`, a decodable message_stop, or a typed terminal event under its own name |
| `StreamTheorems.CountersAgree` | internal/rawdriver/evaluate.go:394-424 | for every protocol and stream the separate terminal counter equals the number of terminal events decoded |
| `StreamTheorems.NeverMismatch` | internal/rawdriver/evaluate.go:884-982 | for Chat and Anthropic the first violation is never an arguments mismatch |
| `StreamTheorems.AlwaysInOrder` | internal/rawdriver/evaluate.go:784-787 | for no protocol is the first violation a sequence-number violation |
| `ChatAcceptance.AcceptedIffWellFormed` | internal/rawdriver/evaluate.go:884-926 | a Chat stream decodes to an accepted trace if and only if every native event is in place: a tool opens at a fresh nonnegative index with a fresh id before the end, text goes to an open tool under its own id or none, a finish finds every tool open (or no tool at all), and one `[DONE]` finds every tool closed; fragments without text for known tools say nothing. The arguments kept are the fragments in order |
| `ChatAcceptance.CloseIff` | internal/rawdriver/evaluate.go:914-926 | closing the tools in ascending order is accepted exactly while the message goes on and none of them is closed |
| `ChatStreams.WellFormedChatIsAccepted` | internal/rawdriver/evaluate.go:884-926 | every Chat stream whose tools open at distinct nonnegative indexes with fresh ids, repeat or omit that id, and end with one finish_reason and one `[DONE]`, decodes to an accepted trace whose arguments are the native fragments concatenated |
| `ChatAcceptance.CarriedAreRead` | internal/rawdriver/evaluate.go:884-926 | the native Chat events that acceptance speaks of are those that the frames carry on the wire |
| `ResponsesStreams.AcceptedIffWellFormed` | internal/rawdriver/evaluate.go:789-882 | a Responses stream is accepted if and only if its typed events, in order, are a grammatical lifecycle and there is no sentinel, or a lone `[DONE]` is all it says; and those events are the ones its frames carry on the wire |
| `AnthropicStreams.AcceptedIffWellFormed` | internal/rawdriver/evaluate.go:928-982 | an Anthropic stream decodes to an accepted trace if and only if it is well formed in the protocol's own terms: one message_start first, blocks at fresh nonnegative indexes with fresh call ids for tools only, deltas for open tool blocks, each block stopped once, one message_stop last, or a lone `[DONE]` in place of both; deltas and stops at indexes where no block started are in place anywhere; the arguments kept are the block's deltas in order |
| `AnthropicStreams.RunIffInPlace` | internal/rawdriver/evaluate.go:928-982 | the run stays good exactly as long as every native event is in place, with the machine's tables and the decoder's items equal to the native blocks |
| `AnthropicStreams.CarriedAreRead` | internal/rawdriver/evaluate.go:928-982 | the native Anthropic events that acceptance speaks of are those that the frames carry on the wire |
| `StreamOracle.EvaluateStateMachine` | internal/oracle/state_machine.go:9-34 | pass exactly on usable, complete, grammatical evidence; target failure exactly on usable evidence of a violation; the reason is the preflight's, the first violation, the missing terminal event or the incomplete evidence, each exactly when it applies |
| `StreamOracle.PassingStreamEndsOnce` | internal/rawdriver/evaluate.go:186-204 | a stream that the oracle passes was counted as ending exactly once |
| `StreamOracle.VerdictIgnoresChunking` | internal/rawdriver/evaluate.go:167-233 | from bytes to trace: every division of the same bytes gives the same trace to judge, or none exactly when the field limit is broken |
| `BytesToVerdict.MessagesAreJudged` | internal/rawdriver/evaluate.go:167-233 | a stream of messages with or without event names, written with LF or CRLF and read in any division, gives the decoder exactly those names and data |
| `BytesToVerdict.ResponsesBytesAccepted` | internal/rawdriver/evaluate.go:167-233 | from bytes to acceptance: a Responses stream is accepted exactly when what its messages carry is well formed |
| `BytesToVerdict.AnthropicBytesAccepted` | internal/rawdriver/evaluate.go:167-233 | the same for Anthropic messages |
| `BytesToVerdict.ChatBytesAccepted` | internal/rawdriver/evaluate.go:167-233 | the same for Chat messages |
| `DeltaDebugging.DDMin` | internal/minimizer/minimizer.go:64-138 | the log is the run: consecutive predicate calls from the first, each check stopped at its first decisive answer, all calls accounted for in the result. The input was the first check; the result is a subsequence that one of these checks saw reproduce; a conclusive result of two or more elements had every single removal rejected by one of them; at most 1 + 2n(n-1) checks; budget exhaustion only below attempts times that bound; a result without a reason means that every check settled, and flakiness or insufficient samples that some check did not |
| `DeltaDebugging.DefaultsAre` | internal/minimizer/minimizer.go:45-62 | unset options mean one attempt, all attempts required and a thousand evaluations; refused exactly for negative options or more passes than attempts |
| `DeltaDebugging.PurePredicateIsMinimized` | internal/minimizer/minimizer.go:64-138 | with a deterministic predicate and the proven budget the run concludes, the result satisfies the predicate and no element of a result of two or more can be spared |
| `DeltaDebugging.UnsettledMeansBroken` | internal/minimizer/minimizer.go:140-165 | a check settles nothing only if one of its own predicate calls failed |
| `DeltaDebugging.SampledIsKOfN` | internal/minimizer/minimizer.go:140-165 | a check that stopped early has the verdict of counting all attempts |
| `DeltaDebugging.KOfNSettles` | internal/minimizer/minimizer.go:140-165 | a predicate that never errors always settles k of n |
| `DeltaDebugging.Evaluator.Sample` | internal/minimizer/minimizer.go:140-165 | the attempt loop uses consecutive calls, stops at the first decisive answer or at the end of the budget, and gives the verdict of counting all attempts |
| `DeltaDebugging.TryPartitions` | internal/minimizer/minimizer.go:99-124 | one sweep: the first reproducing complement, or every partition rejected |
| `DeltaDebugging.ShrinkKeepsRoom` | internal/minimizer/minimizer.go:92-118 | after a reduction the new granularity fits the shorter input, so 2*length - granularity falls |
| `DeltaDebugging.RemoveJSONObjectKeys` | internal/minimizer/minimizer.go:173-202 | the minimized object holds exactly the surviving keys with their values, with every guarantee of `DDMin`; refused exactly for missing or repeated keys |
| `BudgetLedger.RunsBalance` | internal/budget/ledger.go:112-243 | over every interleaving of reserve, commit, cancel, cleanup and snapshot: reserved is the sum of open plans, consumed the sum of committed actuals, consumed + reserved <= limit + overshoot for each limited component, cleanup within its own limits |
| `BudgetAccounts.AccountsAddUp` | internal/budget/ledger.go:112-243 | after any operations, in every component: consumed is what was booked, overshoot is each booking's own excess over its plan, and cleanup is what cleanup admitted |
| `BudgetAccounts.OpenIff` | internal/budget/ledger.go:112-172 | a reservation is open exactly when some operation granted it and none has settled it since |
| `BudgetAccounts.ExhaustedIff` | internal/budget/ledger.go:112-212 | the budget is exhausted exactly when some operation read the clock at or after the deadline or booked beyond a limit |
| `BudgetAccounts.ExceedsIff` | internal/budget/ledger.go:214-233 | an amount fits exactly when no component is over its limit (a token limit of zero is none), and otherwise the first one over is named |
| `BudgetAccounts.GrantedIff` | internal/budget/ledger.go:112-136 | a reservation is granted exactly when it covers a request or process, is in time, nothing is exhausted, and with everything held and spent no component goes over its limit |
| `BudgetAccounts.RefusedAs` | internal/budget/ledger.go:112-129 | which refusal a reservation gets, each exactly when it applies |
| `BudgetAccounts.CommittedAs` | internal/budget/ledger.go:138-159 | which answer a commit gets, each exactly when it applies |
| `BudgetLedger.ExhaustedNeverReserves` | internal/budget/ledger.go:112-136 | once exhausted, no later reservation succeeds whatever happens in between |
| `BudgetLedger.NothingReserved` | internal/budget/ledger.go:138-172 | nothing is reserved exactly when nothing is open |
| `BudgetLedger.ReserveKeeps` | internal/budget/ledger.go:112-136 | reserving keeps the books balanced |
| `BudgetLedger.CommitKeeps` | internal/budget/ledger.go:138-159 | committing any actual amount, above or below plan, keeps the books balanced |
| `BudgetLedger.CancelKeeps` | internal/budget/ledger.go:161-172 | cancelling keeps the books balanced |
| `BudgetLedger.CleanupKeeps` | internal/budget/ledger.go:177-189 | cleanup keeps the books balanced and never touches the run budget |
| `BudgetLedger.Ledger.Reserve` | internal/budget/ledger.go:112-136 | the ledger object makes exactly the reserve step and hands out an open reservation of that amount; every other reservation keeps its place in the open table |
| `BudgetLedger.Reservation.Commit` | internal/budget/ledger.go:138-159 | the reservation object makes exactly the commit step, once; only it leaves the open table, and it stays there after a negative amount |
| `BudgetLedger.Reservation.Cancel` | internal/budget/ledger.go:161-172 | the reservation object makes exactly the cancel step, once; only it leaves the open table |
| `Planner.BuildIntent` | internal/planner/planner.go:63-98 | succeeds exactly for nonempty candidates with distinct nonempty ids; the denominator digests the sorted ids, and the branches authorize exactly what candidates list, each capability once |
| `Planner.Resolve` | internal/planner/planner.go:158-224 | decision i answers candidate i with the disposition that its capabilities earn from exactly the observed facts; the denominator digests the applicable ids; planned candidates are never refused as unauthorized; succeeds exactly when the observations are usable and every branch was planned |
| `Planner.Dispose` | internal/planner/planner.go:169-196 | the running disposition over the capability loop is the order-free one, and refusal is exactly for an unauthorized branch |
| `Planner.DispositionIgnoresOrder` | internal/planner/planner.go:169-188 | reordering or repeating capabilities never changes a disposition |
| `Planner.DispositionMeans` | internal/planner/planner.go:169-188 | executed exactly when every capability is known to be supported, not applicable exactly when one is known not to be, and the reason code says which |
| `Planner.CollectFacts` | internal/planner/planner.go:237-253 | succeeds exactly when every observation belongs here and none contradict each other; the facts are then exactly those observed |
| `Planner.AllowedBranches` | internal/planner/planner.go:226-235 | the lookup table holds exactly what the intent authorizes |
| `Executor.ExecutePlan` | internal/executor/executor.go:104-190 | for every plan, runner and cancellation point: it runs exactly when the plan is valid and the run gets an identifier; one case per scenario in order, each of which, its Run calls and the moment it ends at are what the world's answers from its own moment on make of it; attempts are the concatenation of the cases' ids; the runner's i-th answer goes to the i-th call, and a completed case carries the answer of its last call, with the runner's reason, or budget exhausted if that call's commit failed (a negative charge, spending beyond a limit, or no time left); a cancelled scenario surfaces as an error of the run, also when it was cancelled while it ran if the context's error lasts; `Run` only after all dependencies completed with pass or warn; the ledger is sound; finalizers in reverse order, each charged what it reported if cleanup admits it and residual otherwise |
| `Executor.CallsIff` | internal/executor/executor.go:131-255 | in every run, a scenario calls `Run` exactly when the plan wants it executed, its poll sees no context error, every dependency completed with pass or warn, its driver resolves, both identifiers can be had, the runner gives an estimate and the ledger admits it |
| `Executor.TransientIsRetried` | internal/executor/executor.go:239-294 | in every run, a call is followed by another one exactly when the runner answered it with a valid transient error that wraps no context error, the poll after it sees none, retries are left, and the next identifier, estimate and reservation can be had |
| `Executor.RetriesIff` | internal/executor/executor.go:239-294 | call k of the retry loop happens exactly when retries allow it, it can be made at the moment after k attempts, and call k - 1 was answered transiently; it gets the runner's next answer |
| `Executor.CaseEnds` | internal/executor/executor.go:131-330 | how every case ends: planned only, cancelled with the context's reason, unmet dependency, unresolved driver, no identifier, or on the last call or what kept the next one from being made |
| `Executor.AttemptMeans` | internal/executor/executor.go:257-390 | a call gets the runner's next answer, is transient exactly for a sane transient error without any context error, and ends its case with the status and the reason code of that answer: one code per error class, the context's first |
| `Executor.ChargeIs` | internal/executor/executor.go:257-320 | a call is charged what was observed, component by component, and its estimate where nothing was observed |
| `Executor.HealthyPlanCompletes` | internal/executor/executor.go:104-190 | if nothing fails, every call passes within its estimate and the limits cover the estimates, every wanted scenario is called once and completes with the runner's answer, in plan order |
| `Executor.RunScenario` | internal/executor/executor.go:230-330 | the retry loop: its calls, case and new state are those of the recursive description; at most retries + 1 calls, all but the last transient, and the last one that was not transient decides the case; a cancelled case called `Run` and saw a context error |
| `Executor.TryOnce` | internal/executor/executor.go:246-327 | one attempt: `Run` is called exactly when there is an estimate and the ledger admits it, and another attempt may follow exactly when that call failed transiently and retries are left; record, case and new state |
| `Executor.Finalize` | internal/executor/executor.go:209-228 | reverse order; each lease is charged its reported usage within the cleanup budget or is residual |
| `Executor.AncestorsSatisfied` | internal/executor/executor.go:337-345 | if a scenario ran, every scenario that it transitively depends on completed with pass or warn |
| `Executor.EndsCleanIff` | internal/executor/executor.go:246-327 | a run ends with nothing reserved and nothing open exactly when no charge was negative |
| `Executor.NegativeReportLeaks` | internal/executor/executor.go:104-190 | under any valid policy, the run of a one-scenario plan whose runner reports minus one request completes as exhausted and ends with its reservation open and its estimate still reserved |
| `Executor.CommitResult` | internal/executor/executor.go:317-325 | committing succeeds exactly when the charge is not negative, the spending so far is within every limit and time remains |
| `Executor.HonestRunsStayWithinBudget` | internal/executor/executor.go:246-327 | with nonnegative reports of at least one request, nothing stays reserved and `Run` is called at most MaxRequests times |
| `Executor.CallEffect` | internal/budget/ledger.go:112-159 | what one reservation and its commit do to the open table and the request counts |
| `Report.BuildReport` | internal/productrun/execute.go:291-324 | refused exactly when a recomputed denominator differs; the three tallies are those of the cases, and outcome and exit code mean what `Aggregate` says |
| `Report.Aggregate` | internal/productrun/execute.go:392-438 | undecided exactly when something stands in the way of a verdict, incompatible exactly when decided with a failure, degraded exactly when decided with a warning and no failure; the exit code exactly by precedence 130, 5, 3, 4, 1, 0 |
| `Report.CompatibleMeansPassed` | internal/productrun/execute.go:392-438 | compatible exactly when nothing was exhausted or denied and every case was executed, completed, passed and not exhausted |
| `Report.DeniedIff` | internal/productrun/execute.go:392-399 | access was denied exactly when some scenario failed to authenticate or lacked permission, and then the exit code is 5 unless the run was cancelled |
| `Executor.OneScenario` | internal/executor/executor.go:131-180 | per scenario: a cancelled context cancels it with the context's reason, then an unmet dependency skips it, then an unresolved driver fails it, and otherwise its attempts are made; calls, case and new state |
| `Report.DenominatorsAgree` | internal/productrun/execute.go:291-323 | for any resolved plan and any execution of it the applicable denominator agrees; the candidate one agrees if the resolved candidates are the planned ones up to order, and only if so when digests do not collide; executed <= applicable <= candidate |
| `Report.MembersNest` | internal/executor/executor.go:332-361 | executed ids are among the applicable ones and those among the candidates, repetitions included |
| `Report.ProductRun` | internal/productrun/plan.go:166-200 | plan, execute and report over one candidate list never end in a denominator mismatch; not planned exactly for inadmissible candidates, and not resolved exactly for unusable observations of admissible ones |
| `EvidenceGraph.ReachableIsSound` | internal/cas/store.go:316-406 | if reading succeeds, everything reachable through relations is stored, valid, has its payload and dangles nowhere, and no path repeats a reference, despite memoisation |
| `EvidenceGraph.GetAccepts` | internal/cas/store.go:300-406 | reading accepts only sound relation graphs, and every one at most 32 relations deep, whatever is shared and in whatever order |
| `EvidenceGraph.ReadIff` | internal/cas/store.go:316-382 | a reference reads as an envelope exactly when the reference file and the stored envelope agree, decode to it, name this reference, are sealed, and its payload is stored, each under its own digest and within bounds |
| `EvidenceGraph.LongChainsAreRefused` | internal/cas/store.go:316-322 | a sound chain of more than 32 relations is refused |
| `EvidenceGraph.ListingOrderDecides` | internal/cas/store.go:316-328 | beyond the bound the listing order decides: of two records with the same two relations into one chain, the one that lists the middle first is readable and the other is not |
| `EvidenceGraph.Traversal.GetEvidence` | internal/cas/store.go:316-381 | the recursive traversal with its visiting and loaded maps computes the specified visit and restores the visiting set on every path |
| `EvidenceGraph.Traversal.ResolveRelations` | internal/cas/store.go:383-406 | the relation loop, with its early exits |
| `EvidenceStore.GetGrows` | internal/cas/store.go:300-421 | what can be read stays readable with the same contents however the store grows |
| `EvidenceStore.StepKeeps` | internal/cas/store.go:195-282 | every atomic step of every client, and every crash, keeps every linked reference readable in full and only adds to the store |
| `EvidenceStore.ReturnedRefsLast` | internal/cas/store.go:195-282 | over every interleaving of clients and crashes from an empty store, a returned reference reads as the same evidence and bytes in every later state |
| `EvidenceStore.PutAloneSucceeds` | internal/cas/store.go:195-282 | an undisturbed put succeeds exactly when its demands are met and the reference is free or holds the same bytes; then it reads back |
| `EvidenceStore.Cas.PutEvidence` | internal/cas/store.go:195-282 | the store object performs exactly those steps |
| `EvidenceStore.Cas.GetEvidence` | internal/cas/store.go:300-314 | reading with a fresh traversal is the specified read |
| `RunStore.PutKeeps` | internal/runstore/store.go:170-304 | at every crash point: published records never change, a new one decodes to exactly the bundle and plan put, and `latest` names a complete record or did not move |
| `RunStore.LatestReadsTheRun` | internal/runstore/store.go:306-406 | `latest` resolves to the named run and reads exactly what that run's id reads |
| `RunStore.LatestExists` | internal/runstore/store.go:353-406 | in every good store `latest` is readable exactly when the pointer exists |
| `RunStore.StoredIsLatest` | internal/runstore/store.go:285-304 | a put that reports success left its record as the latest run |
| `RunStore.UndisturbedPutIsRead` | internal/runstore/store.go:170-305 | a put of a new run that meets the demands and is not disturbed succeeds, and both its identifier and latest then read the bundle and plan that were put |
| `RunStore.PutIff` | internal/runstore/store.go:170-305 | how far a put gets at every crash point: rejection, existence and success exactly, what was published and whether latest was repointed |
| `RunStore.ReadsIff` | internal/runstore/store.go:455-541 | on any disk a run reads as a record exactly when its file holds it, of the current schema with its plan or of the legacy one; missing exactly without a file |
| `RunStore.LatestIff` | internal/runstore/store.go:353-455 | latest reads as a record exactly when its file gives the digest and schema of a run that reads as it |
| `RunStore.EveryRecordWasPut` | internal/runstore/store.go:487-523 | everything readable in a store grown by puts and crashes is the bundle and plan of some put, under its id |
| `RunStore.RecordsAreForever` | internal/runstore/store.go:170-304 | a published record reads the same in every later state |
| `RunStore.Runs.Put` | internal/runstore/store.go:170-304 | the step-by-step procedure, stopped anywhere, leaves exactly the specified disk |
| `RunStore.Runs.ReplaceLatest` | internal/runstore/store.go:578-640 | the pointer is replaced whole or not at all |
| `Journal.StatusesAreLifecycles` | internal/provenance/journal.go:209-220 | the status sequences of verified journals are exactly the prefixes of planned, running once or more, one terminal |
| `Journal.VerifiedIff` | internal/provenance/journal.go:103-132 | a journal verifies exactly when every event is numbered, chained to the one before, no earlier than it, proper and under its own digest, and the statuses are a lifecycle |
| `Journal.AdmitsIff` | internal/provenance/journal.go:64-94 | an input is admitted exactly when the journal with its event still verifies, and the event carries the input |
| `Journal.LastDigestFixesJournal` | internal/provenance/journal.go:103-132 | without collisions, two verified nonempty journals with the same last digest are equal event by event |
| `Journal.RoundTrips` | internal/provenance/journal.go:134-192 | a verified journal survives encoding and decoding exactly when it has an event and every encoded event is below the scanner's limit, and decoding gives nothing else |
| `Journal.RunJournal.Append` | internal/provenance/journal.go:64-94 | appends exactly one chained event exactly when it is admissible, and keeps verification |
| `Journal.RunJournal.Verify` | internal/provenance/journal.go:103-132 | the loop accepts exactly the verified chains |
| `Journal.RunJournal.EncodeJSONL` | internal/provenance/journal.go:134-148 | one line per event, only for a verified journal |
| `Journal.DecodeJournal` | internal/provenance/journal.go:150-192 | succeeds exactly for fitting lines that parse to a nonempty verified journal of a valid run, and returns it |
| `Dsse.PaeInjective` | internal/provenance/envelope.go:131-133 | different (payload type, payload) pairs have different pre-authentication encodings, for all byte strings |
| `Dsse.Verify` | internal/provenance/envelope.go:76-111 | accepts exactly a readable envelope with one signature per key, none malformed, every trusted one valid and bound, and at least threshold trusted; returns the statement |
| `Dsse.AcceptsIff` | internal/provenance/envelope.go:76-130 | acceptance spelled out: version and payload, one signature per key, 64-byte signatures, and every trusted one by a 32-byte key under its own identifier that verifies; at least threshold of those |
| `Dsse.AcceptanceNeedsSigners` | internal/provenance/envelope.go:76-111 | if no signature in the envelope is forged, acceptance means at least threshold pairwise distinct trusted keys, each of which signed exactly this payload type and payload |
| `Dsse.SignIsUnforged` | internal/provenance/envelope.go:36-50 | a freshly signed envelope holds no forged signature: the one signing on record is its own |
| `Dsse.AddSignatureIsUnforged` | internal/provenance/envelope.go:54-71 | adding a signature keeps an envelope free of forged ones once the new signing is on record |
| `Dsse.SignedAndAccepted` | internal/provenance/envelope.go:36-111 | whoever trusts the key accepts the fresh envelope, and the signing key is the only one that vouches for it |
| `Dsse.SignIsAccepted` | internal/provenance/envelope.go:36-50 | a freshly signed statement is accepted by whoever trusts its key, as its canonical form |
| `Dsse.AddSignatureIsAccepted` | internal/provenance/envelope.go:54-71 | another signature keeps acceptance and the statement, and raises the threshold met by one when its key is trusted |
| `Statistics.WilsonBounds` | internal/statistics/statistics.go:23-46 | without the clamps 0 <= lower <= estimate <= upper <= 1, for all counts and z > 0 |
| `Statistics.WilsonIff` | internal/statistics/statistics.go:23-46 | an interval is given exactly for at least one sample, a possible count and a positive z, and its estimate is the observed proportion |
| `Statistics.WilsonIsScoreInterval` | internal/statistics/statistics.go:33-38 | x lies in the interval exactly when (p - x)^2 <= z^2 x (1 - x) / n |
| `Statistics.WilsonMirrors` | internal/statistics/statistics.go:23-46 | swapping successes with failures mirrors the interval |
| `Statistics.WilsonNests` | internal/statistics/statistics.go:23-46 | a larger z gives a wider interval |
| `Statistics.Quantile` | internal/statistics/statistics.go:50-75 | the R-7 computation on a sorted copy: given exactly for some values and a probability in [0, 1], with the value that `QuantileAtRank` and `QuantileIsLinear` fix |
| `Statistics.QuantileRises` | internal/statistics/statistics.go:50-75 | the quantile is monotone in the probability |
| `Statistics.QuantileEnds` | internal/statistics/statistics.go:50-75 | at 0 and 1 it is a least and a greatest value of the sample |
| `Statistics.QuantileBetween` | internal/statistics/statistics.go:50-75 | every quantile lies between them |
| `Statistics.QuantileIgnoresOrder` | internal/statistics/statistics.go:50-75 | the order of the sample does not matter |
| `Statistics.QuantileAtRank` | internal/statistics/statistics.go:64-74 | at k / (n - 1) the quantile is a sample value with at most k values below it and more than k at or below it |
| `Statistics.QuantileIsLinear` | internal/statistics/statistics.go:67-74 | between neighbouring ranks the quantile is linear in the probability |
| `Disputes.ReachableIffGood` | internal/registry/dispute.go:135-325 | a state is reachable exactly when its status and reviewer are the fold of a lawful journal; a reviewer is never creator or owner |
| `Disputes.StepKeeps` | internal/registry/dispute.go:194-325 | every command keeps that, appends at most one event and rewrites none |
| `Disputes.EventsAreAuthored` | internal/registry/dispute.go:194-325 | every event of a run was written by one of its commands, with that command's author, time and words, and the author held the scopes that the event needs |
| `Disputes.ReviewIsExclusive` | internal/registry/dispute.go:225-247 | a started review belongs to its reviewer: starting it again changes nothing and no one else can start one |
| `Disputes.JournaledIff` | internal/registry/dispute.go:103-128 | a snapshot's journal is accepted exactly when it is numbered from 1 with set, never falling times, proper authors and statements, and replacements on supersessions only |
| `Disputes.SettledIsFinal` | internal/registry/dispute.go:249-298 | a resolved or superseded dispute never changes again |
| `Disputes.ReachableRestores` | internal/registry/dispute.go:77-133 | a reachable snapshot is accepted exactly when its recorded times never ran backwards |
| `Disputes.BackwardClockIsNotRestorable` | internal/registry/dispute.go:107-112 | a clock that goes back between two calls yields a snapshot that cannot be restored |
| `Disputes.RestoreTrustsTheStatus` | internal/registry/dispute.go:90-133 | restoring accepts a status and reviewer that no sequence of operations can produce |
| `Disputes.Restore` | internal/registry/dispute.go:77-133 | accepts exactly the structurally valid snapshots and returns them unchanged |
| `Disputes.NewDispute` | internal/registry/dispute.go:135-175 | opens exactly under the stated demands, with the first journal event |
| `Disputes.Dispute.AddOwnerResponse` | internal/registry/dispute.go:194-223 | accepted exactly for the current owner of an unsettled dispute; refused calls change nothing |
| `Disputes.Dispute.BeginReview` | internal/registry/dispute.go:225-247 | accepted exactly for an independent reviewer, once |
| `Disputes.Dispute.Resolve` | internal/registry/dispute.go:249-267 | only the assigned reviewer settles |
| `Disputes.Dispute.Supersede` | internal/registry/dispute.go:269-298 | only the assigned reviewer supersedes, with another observation |
| `Ingest.ReachableIffGood` | internal/registry/ingest.go:83-231 | exactly the states whose staged digest is the prepared one from staging on, and only quarantine has a class, are reachable; published is never quarantined |
| `Ingest.CommitReplays` | internal/registry/ingest.go:158-179 | a successful commit can be replayed at any later time and point and changes nothing |
| `Ingest.EndIsFinal` | internal/registry/ingest.go:198-231 | published and quarantined sessions never change |
| `Ingest.StepAdvances` | internal/registry/ingest.go:132-231 | the lifecycle advances one stage at a time and identity is fixed |
| `Ingest.StagesWereEarned` | internal/registry/ingest.go:132-231 | every stage of a session was reached from the one before by an entitled command in time: staged and committed only before the expiry, by the owner with the scope for it and the expected digest |
| `Ingest.OutcomeIff` | internal/registry/ingest.go:132-235 | a command succeeds exactly when it is entitled and either comes from the stage before, in time, or repeats what was done; only the former changes anything |
| `Ingest.ReachableRestores` | internal/registry/ingest.go:49-81 | every reachable session restores, given a set expiry |
| `Ingest.RestoredIsReachable` | internal/registry/ingest.go:49-81 | a restored session is a possible one exactly when its staged digest is absent or the expected one |
| `Ingest.RestoreTrustsTheDigest` | internal/registry/ingest.go:66-81 | restoring accepts a published session with another digest |
| `Ingest.Restore` | internal/registry/ingest.go:49-81 | accepts exactly the snapshots that pass its field checks and returns them unchanged |
| `Ingest.Session.StageUpload` | internal/registry/ingest.go:132-153 | staging, its idempotence, expiry and refusals |
| `Ingest.Session.CommitUpload` | internal/registry/ingest.go:158-179 | committing, its idempotence, expiry and refusals |
| `Ingest.Session.Validate` | internal/registry/ingest.go:184-196 | validation starts once and from committed only |
| `Ingest.Session.PublishUpload` | internal/registry/ingest.go:198-210 | publication only from validating |
| `Ingest.Session.QuarantineUpload` | internal/registry/ingest.go:212-231 | quarantine only from validating, with one class |
| `Purge.RunKeeps` | internal/registry/purge.go:135-211 | in every reachable state the journal replays to the state, and the purge is completed exactly when all five targets are terminal |
| `Purge.RunContinues` | internal/registry/purge.go:155-196 | no run of commands changes a terminal target, a finished purge or a written event |
| `Purge.MarkedOnce` | internal/registry/purge.go:186-195 | a pending target was never marked, any other exactly once with the status it has |
| `Purge.AnyOrderFinishes` | internal/registry/purge.go:135-211 | whatever the order and the outcomes, marking all five targets finishes a started purge, and marking fewer does not |
| `Purge.MarkIff` | internal/registry/purge.go:155-196 | a target is marked exactly when a moderator brings it from pending to a terminal status during the purge; marking it alike again changes nothing and any other mark is refused |
| `Purge.OpensIff` | internal/registry/purge.go:100-127 | a request opens exactly for a moderator with a known reason at a set time, due in a day, with all five targets pending |
| `Purge.NewPurgeRequest` | internal/registry/purge.go:100-127 | opens exactly under the stated demands with all targets pending |
| `Purge.PurgeRequest.StartPurge` | internal/registry/purge.go:135-153 | starting, its idempotence and refusals |
| `Purge.PurgeRequest.Complete` | internal/registry/purge.go:155-196 | marking a target, completion with the last one, idempotence and conflicts |
| `Purge.PurgeRequest.AllTargetsTerminal` | internal/registry/purge.go:204-211 | the loop over the target map |

## Left out

- Command line, completion, terminal, JUnit, SARIF and HTML rendering, transports, demo servers and secret resolution.
- SHA-256, Ed25519, base64, RFC 8785 canonicalisation, JSON parsing, identifier and reason syntax: parameters with stated laws.
- Fixed-width integers: offsets, sequence numbers and budget amounts do not wrap around.
- NaN, infinities and floating-point rounding in the statistics.
- File identity, symbolic link, permission and fsync checks of both stores: only the atomic create, link and rename steps are kept, and no outside writer interferes.
- StreamDecoder.ParseFrames: does not model usage, argument types, finish reasons, tool call counts, retained documents and normalized items, because they only copy fields out of a frame.
- StreamOracle.VerdictIgnoresChunking: takes the conversion of event bytes to strings as an arbitrary function.
- StreamOracle.EvaluateStateMachine: does not model the expected and observed texts of an outcome.
- Scenario checks, envelope checks, usage checks and the combination of outcomes in the raw driver: finite case tables.
- Executor.ExecutePlan: does not model evidence references, assertion results, findings, invocation identifiers and consumption records of attempts.
- Executor.RunScenario: a context error is polled where the source polls it, but cancellation inside a running call is only its answer.
- Report.BuildReport: does not model the condition messages and the artifact pins of a bundle, nor the refusal of a bundle that fails its own field validation.
- Planner.BuildIntent: does not model the other fields, the sealing and the field validation of a plan.
- EvidenceGraph.Traversal.GetEvidence: one traversal reads one state of the store, and context cancellation during it is not modelled.
- EvidenceGraph.GetAccepts: for graphs deeper than 32 relations only soundness is proved, because acceptance then depends on the order in which relations are listed (`EvidenceGraph.ListingOrderDecides`).
- EvidenceStore.Cas.PutEvidence: temporary files of an object write are not modelled, since the link that publishes them is atomic.
- RunStore.Runs.Put: puts are serialized, as the mutex of one process does; listing runs is not modelled.
- Journal.DecodeJournal: takes the whole input and the line splitting of the scanner, not its incremental reads.
- Dsse.AddSignatureIsAccepted: keys are byte strings with an abstract validity test.
- Flakiness measurement, supersession and tombstone records, ownership management and registry persistence: field checks and counts.
- Redaction detectors, catalog generation, support checks and the release tooling.
