/** The state-machine oracle (internal/oracle/state_machine.go) over decoder output. */
module StreamOracle {
  import opened Common
  import opened Lifecycle
  import opened LifecycleGrammar
  import SseFraming
  import SseAssembler
  import SseChunking
  import StreamDecoder
  import StreamTheorems

  /** The evidence an oracle is given, reduced to what its preflight looks at. */
  datatype Input = Input(value: seq<Event>, harnessError: bool, refsValid: seq<bool>, complete: bool)

  datatype Verdict = Pass | Fail | Inconclusive

  datatype Reason =
    | Satisfied
    | Violated(violation: Violation)
    | HarnessPreconditionFailed
    | MissingEvidence
    | InvalidEvidenceReference
    | IncompleteStreamEvidence

  datatype Outcome = Outcome(verdict: Verdict, reason: Reason, targetFailure: bool)

  function Preflight(input: Input): Option<Outcome>
  {
    if input.harnessError then Some(Outcome(Inconclusive, HarnessPreconditionFailed, false))
    else if input.refsValid == [] then Some(Outcome(Inconclusive, MissingEvidence, false))
    else if false in input.refsValid then Some(Outcome(Inconclusive, InvalidEvidenceReference, false))
    else None
  }

  lemma {:induction false} RunPrefixFails(trace: seq<Event>, i: nat)
    requires i <= |trace| && Run(trace[..i]).Err?
    ensures Run(trace) == Run(trace[..i])
    decreases |trace|
  {
    if i == |trace| {
      assert trace[..i] == trace;
    } else {
      var n := |trace| - 1;
      assert trace[..n][..i] == trace[..i];
      RunPrefixFails(trace[..n], i);
    }
  }

  /**
   The target fails exactly when there is usable evidence of a violation, and
   passes exactly when the evidence is usable, complete and grammatical.
   */
  method EvaluateStateMachine(input: Input) returns (outcome: Outcome)
    ensures outcome.verdict == Pass <==> Preflight(input).None? && input.complete && Grammatical(input.value)
    ensures outcome.verdict == Fail <==>
            Preflight(input).None? && (Run(input.value).Err? || (input.complete && !Accepted(input.value)))
    ensures outcome.targetFailure <==> outcome.verdict == Fail
    ensures Preflight(input).None? && Run(input.value).Err? ==> outcome.reason == Violated(Run(input.value).error)
    ensures Preflight(input).None? && Run(input.value).Ok? ==>
              outcome.reason == if !input.complete then IncompleteStreamEvidence
                                else if Accepted(input.value) then Satisfied else Violated(MissingTerminalEvent)
    ensures Preflight(input).Some? ==> outcome == Preflight(input).value
    ensures Preflight(input).None? <==> !input.harnessError && input.refsValid != [] && forall ok :: ok in input.refsValid ==> ok
    ensures outcome.reason == HarnessPreconditionFailed <==> input.harnessError
    ensures outcome.reason == MissingEvidence <==> !input.harnessError && input.refsValid == []
    ensures outcome.reason == InvalidEvidenceReference <==> !input.harnessError && false in input.refsValid
    ensures outcome.reason in {HarnessPreconditionFailed, MissingEvidence, InvalidEvidenceReference, IncompleteStreamEvidence} <==>
            outcome.verdict == Inconclusive
  {
    hide Grammatical, Transition;
    AcceptedIffGrammatical(input.value);
    var blocked := Preflight(input);
    if blocked.Some? { return blocked.value; }
    var machine := new Machine();
    for i := 0 to |input.value|
      invariant fresh(machine) && machine.Valid()
      invariant Run(input.value[..i]) == Ok(machine.Model())
    {
      assert input.value[..i + 1][..i] == input.value[..i];
      var violation := machine.Apply(input.value[i]);
      if violation.Some? {
        RunPrefixFails(input.value, i + 1);
        return Outcome(Fail, Violated(violation.value), true);
      }
    }
    assert input.value[..|input.value|] == input.value;
    if !input.complete { return Outcome(Inconclusive, IncompleteStreamEvidence, false); }
    var missing := machine.Finish();
    if missing.Some? { return Outcome(Fail, Violated(missing.value), true); }
    outcome := Outcome(Pass, Satisfied, false);
  }

  /** A stream that passes the oracle was counted as ending exactly once. */
  lemma PassingStreamEndsOnce(protocol: StreamDecoder.Protocol, frames: seq<StreamDecoder.Frame>, decode: StreamDecoder.Decode)
    requires Accepted(StreamDecoder.DecodeAll(protocol, frames, decode).events)
    ensures StreamDecoder.CountMarkers(protocol, frames, decode) == 1
  {
    hide Accepted, Grammatical;
    var events := StreamDecoder.DecodeAll(protocol, frames, decode).events;
    StreamTheorems.CountersAgree(protocol, frames, decode);
    AcceptedIffGrammatical(events);
    CountTerminals(events);
  }

  // ----- from bytes to verdict

  /** The frames that assembled events hand to the decoder; `text` turns bytes into a string. */
  function FramesOf(contents: seq<SseFraming.Content>, text: Bytes -> string): (frames: seq<StreamDecoder.Frame>)
    ensures |frames| == |contents|
  {
    seq(|contents|, i requires 0 <= i < |contents| => StreamDecoder.Frame(text(contents[i].event), text(contents[i].data)))
  }

  /** The lifecycle trace of a stream read in some division into chunks, unless its framing is refused. */
  function TraceOf(protocol: StreamDecoder.Protocol, limit: int, chunks: seq<Bytes>, text: Bytes -> string, decode: StreamDecoder.Decode): Option<seq<Event>>
  {
    match SseChunking.FeedAll(limit, 0, chunks)
    case Err(_) => None
    case Ok(fed) => Some(StreamDecoder.DecodeAll(protocol, FramesOf(SseFraming.Contents(fed.events), text), decode).events)
  }

  /**
   From bytes to verdict: however the stream was divided into reads, the oracle
   judges the same trace, and a stream it passes held exactly one terminal marker.
   */
  lemma VerdictIgnoresChunking(protocol: StreamDecoder.Protocol, limit: int, chunks: seq<Bytes>, others: seq<Bytes>,
                               text: Bytes -> string, decode: StreamDecoder.Decode)
    requires forall i :: 0 <= i < |chunks| ==> chunks[i] != []
    requires forall i :: 0 <= i < |others| ==> others[i] != []
    requires Flatten(chunks) == Flatten(others) && |Flatten(chunks)| <= SseAssembler.Initial(limit).maxBufferBytes
    ensures TraceOf(protocol, limit, chunks, text, decode) == TraceOf(protocol, limit, others, text, decode)
    ensures TraceOf(protocol, limit, chunks, text, decode).None? <==> !SseFraming.WithinFieldLimit(Flatten(chunks), 0)
    ensures var trace := TraceOf(protocol, limit, chunks, text, decode);
            trace.Some? && Accepted(trace.value) ==>
              StreamDecoder.CountMarkers(protocol, FramesOf(SseFraming.Contents(SseFraming.Events(Flatten(chunks), 0, chunks)), text), decode) == 1
  {
    hide Accepted, Grammatical, FramesOf;
    SseChunking.RechunkingIsInvisible(limit, 0, chunks, others);
    SseChunking.BoundedIsReading(limit, 0, chunks);
    var trace := TraceOf(protocol, limit, chunks, text, decode);
    if trace.Some? && Accepted(trace.value) {
      PassingStreamEndsOnce(protocol, FramesOf(SseFraming.Contents(SseFraming.Events(Flatten(chunks), 0, chunks)), text), decode);
    }
  }
}
