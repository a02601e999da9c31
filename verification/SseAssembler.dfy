/**
 The incremental assembler (internal/recorder/sse.go): bytes arrive in read
 chunks, completed lines are consumed as they appear, and an event leaves when
 its blank line does.
 */
module SseAssembler {
  import opened Common
  import opened SseFraming

  const DEFAULT_MAX_BUFFER_BYTES := 0x10_0000

  datatype ReadChunk = ReadChunk(sequence: nat, byteOffset: int, data: Bytes)

  datatype FeedError =
    | WrongSequence
    | MalformedChunk
    | WrongOffset
    | BufferTooLarge
    | EventTooLarge
    | TooManyFields

  datatype State = State(
    maxBufferBytes: nat,
    buffer: Bytes,
    nextChunkSequence: nat,
    nextByteOffset: int,
    started: bool,
    processedOffset: int,
    nextEventSequence: nat,
    currentOffset: int,
    currentBytes: nat,
    currentFields: seq<Field>,
    currentChunks: seq<nat>)

  datatype Tail = Tail(bufferedBytes: nat, pendingFieldCount: nat, chunks: seq<nat>)

  datatype Step = Step(state: State, outcome: Result<seq<LogicalEvent>, FeedError>)

  function Initial(maxBufferBytes: int): State
  {
    State(if maxBufferBytes <= 0 then DEFAULT_MAX_BUFFER_BYTES else maxBufferBytes,
          [], 1, 0, false, 0, 1, 0, 0, [], [])
  }

  function AddChunk(chunks: seq<nat>, sequence: nat): seq<nat>
  {
    if chunks == [] || chunks[|chunks| - 1] != sequence then chunks + [sequence] else chunks
  }

  /** Consuming lines leaves the bookkeeping of reads alone. */
  predicate SameHeader(s: State, t: State)
  {
    && s.maxBufferBytes == t.maxBufferBytes && s.nextChunkSequence == t.nextChunkSequence
    && s.nextByteOffset == t.nextByteOffset && s.started == t.started
  }

  /** The state and the event, if any, after one nonempty or blank line. */
  function ConsumeLine(s: State, text: Bytes, lineStart: int): (r: (State, seq<LogicalEvent>))
    ensures r.0.buffer == s.buffer && SameHeader(r.0, s)
  {
    if text == [] then
      if s.currentFields == [] then (s.(currentBytes := 0, currentChunks := []), [])
      else (s.(nextEventSequence := s.nextEventSequence + 1, currentBytes := 0, currentFields := [], currentChunks := []),
            [LogicalEvent(Interpret(s.nextEventSequence, s.currentOffset, s.currentFields), s.currentChunks)])
    else if IsComment(text) then (s, [])
    else (s.(currentOffset := if s.currentFields == [] then lineStart else s.currentOffset,
             currentFields := s.currentFields + [ParseField(text)]), [])
  }

  /** Removing the line that ends at `newline` from the buffer. */
  function TakeLine(s: State, newline: nat): State
    requires newline < |s.buffer|
  {
    var text := StripCR(s.buffer[..newline]);
    s.(buffer := s.buffer[newline + 1..],
       processedOffset := s.processedOffset + newline + 1,
       currentBytes := s.currentBytes + if text == [] then 0 else |text| + 1)
  }

  /** The limits checked before a line is consumed. */
  function LineError(s: State, text: Bytes): Option<FeedError>
  {
    if text == [] then None
    else if s.currentBytes > s.maxBufferBytes then Some(EventTooLarge)
    else if !IsComment(text) && |s.currentFields| >= MAX_FIELDS_PER_EVENT then Some(TooManyFields)
    else None
  }

  /** Consuming the first completed line of the buffer. */
  function LineStep(s: State, newline: nat): (step: Step)
    requires newline < |s.buffer|
    ensures step.state.buffer == s.buffer[newline + 1..] && SameHeader(step.state, s)
  {
    var text := StripCR(s.buffer[..newline]);
    var taken := TakeLine(s, newline);
    match LineError(taken, text)
    case Some(e) => Step(taken, Err(e))
    case None =>
      var (next, events) := ConsumeLine(taken, text, s.processedOffset);
      Step(next, Ok(events))
  }

  function Prepend(events: seq<LogicalEvent>, step: Step): Step
  {
    match step.outcome
    case Err(_) => step
    case Ok(more) => Step(step.state, Ok(events + more))
  }

  /** Consuming every completed line of the buffer. */
  function Drain(s: State, sequence: nat): (step: Step)
    ensures SameHeader(step.state, s)
    decreases |s.buffer|
  {
    var newline := IndexOf(s.buffer, LF);
    var marked := s.(currentChunks := AddChunk(s.currentChunks, sequence));
    if newline == -1 then
      if s.currentBytes + |s.buffer| > s.maxBufferBytes then Step(s, Err(EventTooLarge))
      else Step(marked, Ok([]))
    else
      var first := LineStep(marked, newline);
      match first.outcome
      case Err(_) => first
      case Ok(events) => Prepend(events, Drain(first.state, sequence))
  }

  /** Accepting a chunk into the buffer. */
  function Admit(s: State, chunk: ReadChunk): (State, Option<FeedError>)
  {
    if chunk.sequence != s.nextChunkSequence then (s, Some(WrongSequence))
    else if chunk.byteOffset < 0 || chunk.data == [] then (s, Some(MalformedChunk))
    else
      var begun := if s.started then s
                   else s.(started := true, nextByteOffset := chunk.byteOffset, processedOffset := chunk.byteOffset);
      if chunk.byteOffset != begun.nextByteOffset then (begun, Some(WrongOffset))
      else if |begun.buffer| + |chunk.data| > begun.maxBufferBytes then (begun, Some(BufferTooLarge))
      else (begun.(buffer := begun.buffer + chunk.data,
                   nextChunkSequence := begun.nextChunkSequence + 1,
                   nextByteOffset := begun.nextByteOffset + |chunk.data|), None)
  }

  /** Where the next read must begin; the first one may begin anywhere. */
  predicate InPlace(s: State, chunk: ReadChunk) { !s.started || chunk.byteOffset == s.nextByteOffset }

  /** Which read is refused and how: out of turn, malformed, out of place, or too large for the buffer. */
  lemma AdmitIff(s: State, chunk: ReadChunk)
    ensures var (t, error) := Admit(s, chunk);
            var wellFormed := chunk.byteOffset >= 0 && chunk.data != [];
            && (error == Some(WrongSequence) <==> chunk.sequence != s.nextChunkSequence)
            && (error == Some(MalformedChunk) <==> chunk.sequence == s.nextChunkSequence && !wellFormed)
            && (error == Some(WrongOffset) <==> chunk.sequence == s.nextChunkSequence && wellFormed && !InPlace(s, chunk))
            && (error == Some(BufferTooLarge) <==>
                  && chunk.sequence == s.nextChunkSequence && wellFormed && InPlace(s, chunk)
                  && |s.buffer| + |chunk.data| > s.maxBufferBytes)
            && (error != Some(EventTooLarge) && error != Some(TooManyFields))
            && t.buffer == (if error.None? then s.buffer + chunk.data else s.buffer)
            && t.nextChunkSequence == (if error.None? then s.nextChunkSequence + 1 else s.nextChunkSequence)
            && (error.None? ==> t.nextByteOffset == chunk.byteOffset + |chunk.data|)
  {
  }

  function FeedStep(s: State, chunk: ReadChunk): Step
  {
    var (admitted, error) := Admit(s, chunk);
    match error
    case Some(e) => Step(admitted, Err(e))
    case None => Drain(admitted, chunk.sequence)
  }

  function FinishTail(s: State): Tail
  {
    Tail(|s.buffer|, |s.currentFields|, s.currentChunks)
  }

  /** The assembler object, updated in place. */
  class Assembler {
    const maxBufferBytes: nat
    var buffer: Bytes
    var nextChunkSequence: nat
    var nextByteOffset: int
    var started: bool
    var processedOffset: int
    var nextEventSequence: nat
    var currentOffset: int
    var currentBytes: nat
    var currentFields: seq<Field>
    var currentChunks: seq<nat>

    ghost function Model(): State
      reads this
    {
      State(maxBufferBytes, buffer, nextChunkSequence, nextByteOffset, started, processedOffset,
            nextEventSequence, currentOffset, currentBytes, currentFields, currentChunks)
    }

    constructor (limit: int)
      ensures Model() == Initial(limit)
    {
      maxBufferBytes := if limit <= 0 then DEFAULT_MAX_BUFFER_BYTES else limit;
      buffer, nextChunkSequence, nextByteOffset, started, processedOffset := [], 1, 0, false, 0;
      nextEventSequence, currentOffset, currentBytes, currentFields, currentChunks := 1, 0, 0, [], [];
    }

    method AddCurrentChunk(sequence: nat)
      modifies this`currentChunks
      ensures currentChunks == AddChunk(old(currentChunks), sequence)
    {
      if |currentChunks| == 0 || currentChunks[|currentChunks| - 1] != sequence {
        currentChunks := currentChunks + [sequence];
      }
    }

    method Dispatch() returns (event: Option<LogicalEvent>)
      modifies this
      ensures var (next, events) := ConsumeLine(old(Model()), [], 0);
              Model() == next && events == if event.Some? then [event.value] else []
    {
      hide Interpret;
      if |currentFields| == 0 {
        currentBytes, currentChunks := 0, [];
        return None;
      }
      var content := ReadFields(nextEventSequence, currentOffset, currentFields);
      event := Some(LogicalEvent(content, currentChunks));
      nextEventSequence := nextEventSequence + 1;
      currentBytes, currentFields, currentChunks := 0, [], [];
    }

    method Consume(text: Bytes, lineStart: int) returns (event: Option<LogicalEvent>)
      modifies this
      ensures var (next, events) := ConsumeLine(old(Model()), text, lineStart);
              Model() == next && events == if event.Some? then [event.value] else []
    {
      hide Interpret, ParseField;
      if text == [] {
        event := Dispatch();
        return;
      }
      if text[0] == COLON { return None; }
      if |currentFields| == 0 { currentOffset := lineStart; }
      currentFields := currentFields + [ParseField(text)];
      event := None;
    }

    method AdmitChunk(chunk: ReadChunk) returns (error: Option<FeedError>)
      modifies this
      ensures (Model(), error) == Admit(old(Model()), chunk)
    {
      if chunk.sequence != nextChunkSequence { return Some(WrongSequence); }
      if chunk.byteOffset < 0 || |chunk.data| == 0 { return Some(MalformedChunk); }
      if !started {
        started, nextByteOffset, processedOffset := true, chunk.byteOffset, chunk.byteOffset;
      }
      if chunk.byteOffset != nextByteOffset { return Some(WrongOffset); }
      if |buffer| + |chunk.data| > maxBufferBytes { return Some(BufferTooLarge); }
      buffer := buffer + chunk.data;
      nextChunkSequence := nextChunkSequence + 1;
      nextByteOffset := nextByteOffset + |chunk.data|;
      error := None;
    }

    /** Cut the line that ends at `newline` off the buffer. */
    method CutLine(newline: nat) returns (line: Bytes)
      requires newline < |buffer|
      modifies this
      ensures line == StripCR(old(buffer)[..newline])
      ensures Model() == TakeLine(old(Model()), newline)
    {
      line := StripCR(buffer[..newline]);
      buffer := buffer[newline + 1..];
      processedOffset := processedOffset + newline + 1;
      if |line| > 0 { currentBytes := currentBytes + |line| + 1; }
    }

    method NextLine(newline: nat) returns (outcome: Result<seq<LogicalEvent>, FeedError>)
      requires newline < |buffer|
      modifies this
      ensures Step(Model(), outcome) == LineStep(old(Model()), newline)
    {
      hide ConsumeLine, Interpret, TakeLine, StripCR;
      var lineStart := processedOffset;
      var line := CutLine(newline);
      if |line| > 0 {
        if currentBytes > maxBufferBytes { return Err(EventTooLarge); }
        if line[0] != COLON && |currentFields| >= MAX_FIELDS_PER_EVENT { return Err(TooManyFields); }
      }
      var event := Consume(line, lineStart);
      outcome := Ok(if event.Some? then [event.value] else []);
    }

    method Feed(chunk: ReadChunk) returns (outcome: Result<seq<LogicalEvent>, FeedError>)
      modifies this
      ensures Step(Model(), outcome) == FeedStep(old(Model()), chunk)
    {
      var error := AdmitChunk(chunk);
      if error.Some? { return Err(error.value); }
      outcome := DrainBuffer(chunk.sequence);
    }

    /** The line loop of Feed. */
    method DrainBuffer(sequence: nat) returns (outcome: Result<seq<LogicalEvent>, FeedError>)
      modifies this
      ensures Step(Model(), outcome) == Drain(old(Model()), sequence)
    {
      var events: seq<LogicalEvent> := [];
      PrependNothing(Drain(Model(), sequence));
      while LF in buffer
        invariant Drain(old(Model()), sequence) == Prepend(events, Drain(Model(), sequence))
        decreases |buffer|
      {
        var newline := IndexOf(buffer, LF);
        ghost var before := Model();
        AddCurrentChunk(sequence);
        var emitted := NextLine(newline);
        DrainOnce(before, sequence, Model(), emitted);
        if emitted.Err? { return emitted; }
        PrependTwice(events, emitted.value, Drain(Model(), sequence));
        events := events + emitted.value;
      }
      if currentBytes + |buffer| > maxBufferBytes { return Err(EventTooLarge); }
      AddCurrentChunk(sequence);
      assert events + [] == events;
      outcome := Ok(events);
    }

    method Finish() returns (tail: Tail)
      ensures tail == FinishTail(Model())
    {
      tail := Tail(|buffer|, |currentFields|, currentChunks);
    }
  }

  lemma DrainOnce(s: State, sequence: nat, next: State, emitted: Result<seq<LogicalEvent>, FeedError>)
    requires LF in s.buffer
    requires Step(next, emitted) ==
             LineStep(s.(currentChunks := AddChunk(s.currentChunks, sequence)), IndexOf(s.buffer, LF))
    ensures Drain(s, sequence) == if emitted.Err? then Step(next, emitted) else Prepend(emitted.value, Drain(next, sequence))
  {
  }

  lemma PrependNothing(step: Step)
    ensures Prepend([], step) == step
  {
    if step.outcome.Ok? {
      assert [] + step.outcome.value == step.outcome.value;
    }
  }

  lemma PrependTwice(first: seq<LogicalEvent>, second: seq<LogicalEvent>, step: Step)
    ensures Prepend(first, Prepend(second, step)) == Prepend(first + second, step)
  {
    if step.outcome.Ok? {
      assert first + (second + step.outcome.value) == (first + second) + step.outcome.value;
    }
  }

  /** The field loop of dispatch, read back as whole-list facts. */
  method ReadFields(sequence: nat, offset: int, fields: seq<Field>) returns (content: Content)
    ensures content == Interpret(sequence, offset, fields)
  {
    hide ReadingOf, KindOf, RetryValue, Join;
    var r := Reading([], [], [], None, []);
    NothingToRead();
    for i := 0 to |fields|
      invariant r == ReadingOf(fields[..i])
    {
      var field := fields[i];
      ReadingSnoc(fields[..i], field);
      assert fields[..i + 1] == fields[..i] + [field];
      match KindOf(field.name) {
        case EventField => r := r.(event := field.value);
        case DataField => r := r.(data := r.data + [field.value]);
        case IdField =>
          if NUL in field.value { r := r.(issues := r.issues + [IdContainsNul]); } else { r := r.(id := field.value); }
        case RetryField =>
          var value := RetryValue(field.value);
          if value.None? { r := r.(issues := r.issues + [InvalidRetry]); } else { r := r.(retryMillis := value); }
        case OtherField =>
      }
    }
    assert fields[..|fields|] == fields;
    content := Content(sequence, offset, r.event, Join(r.data), r.id, r.retryMillis, fields, r.issues);
  }

  lemma NothingToRead()
    ensures ReadingOf([]) == Reading([], [], [], None, [])
  {
  }

  /** The effect of one more field on the reading. */
  function ReadOne(r: Reading, field: Field): Reading
  {
    match KindOf(field.name)
    case EventField => r.(event := field.value)
    case DataField => r.(data := r.data + [field.value])
    case IdField =>
      if NUL in field.value then r.(issues := r.issues + [IdContainsNul]) else r.(id := field.value)
    case RetryField =>
      if RetryValue(field.value).None? then r.(issues := r.issues + [InvalidRetry])
      else r.(retryMillis := RetryValue(field.value))
    case OtherField => r
  }

  lemma ReadingSnoc(fields: seq<Field>, field: Field)
    ensures ReadingOf(fields + [field]) == ReadOne(ReadingOf(fields), field)
  {
    hide KindOf, RetryValue, Values, CleanIds, LastRetry;
    assert (fields + [field])[..|fields|] == fields;
    ValuesSnoc(fields, field, EventField);
    ValuesSnoc(fields, field, DataField);
    ValuesSnoc(fields, field, IdField);
    ValuesSnoc(fields, field, RetryField);
    CleanIdsSnoc(Values(fields, IdField), field.value);
    CleanIdsSnoc(Values(fields, RetryField), field.value);
  }

  lemma ValuesSnoc(fields: seq<Field>, field: Field, kind: FieldKind)
    ensures Values(fields + [field], kind) ==
            if KindOf(field.name) == kind then Values(fields, kind) + [field.value] else Values(fields, kind)
  {
    assert (fields + [field])[..|fields|] == fields;
  }

  lemma CleanIdsSnoc(values: seq<Bytes>, value: Bytes)
    ensures CleanIds(values + [value]) == CleanIds(values) + if NUL in value then [] else [value]
    ensures LastRetry(values + [value]) == if RetryValue(value).Some? then RetryValue(value) else LastRetry(values)
  {
    assert (values + [value])[..|values|] == values;
  }
}
