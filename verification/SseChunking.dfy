/**
 Chunk boundaries do not matter: feeding any division of a byte stream into
 nonempty reads yields the events of the whole-stream reading, and the
 provenance list of each event is an exact range of read numbers.
 */
module SseChunking {
  import opened Common
  import opened SseFraming
  import opened SseAssembler

  datatype Fed = Fed(state: State, events: seq<LogicalEvent>)

  /** Feeding the chunks in order with consecutive numbers and offsets. */
  function FeedAll(limit: int, base: nat, chunks: seq<Bytes>): Result<Fed, FeedError>
  {
    if chunks == [] then Ok(Fed(Initial(limit), []))
    else
      var n := |chunks| - 1;
      match FeedAll(limit, base, chunks[..n])
      case Err(e) => Err(e)
      case Ok(fed) =>
        var step := FeedStep(fed.state, ReadChunk(n + 1, base + |Flatten(chunks[..n])|, chunks[n]));
        match step.outcome
        case Err(e) => Err(e)
        case Ok(events) => Ok(Fed(step.state, fed.events + events))
  }

  // ----- one more line

  function NextLine(done: Bytes, text: Bytes, base: int): Line
  {
    Line(StripCR(text), base + |done|, base + |done| + |text| + 1)
  }

  lemma LinesOfSnoc(groups: seq<Bytes>, last: Bytes, base: int)
    requires last != [] && forall i :: 0 <= i < |groups| ==> groups[i] != []
    ensures LinesOf(groups + [last], base) ==
            var start := base + |Flatten(groups)|;
            LinesOf(groups, base) + [Line(StripCR(last[..|last| - 1]), start, start + |last|)]
  {
    assert (groups + [last])[..|groups|] == groups;
  }

  lemma CutAtLine(done: Bytes, text: Bytes)
    requires Unterminated(done) == [] && LF !in text
    ensures Cut(done + text + [LF], IsLF) == Pieces(Cut(done, IsLF).groups + [text + [LF]], [])
  {
    CutPlain(done, text, IsLF);
    assert [] + text == text;
    CutSnoc(done + text, LF, IsLF);
  }

  lemma LinesSnoc(done: Bytes, text: Bytes, base: int)
    requires Unterminated(done) == [] && LF !in text
    ensures Unterminated(done + text + [LF]) == []
    ensures Lines(done + text + [LF], base) == Lines(done, base) + [NextLine(done, text, base)]
  {
    hide Cut, LinesOf, StripCR;
    CutAtLine(done, text);
    CutIsLossless(done, IsLF);
    assert Flatten(Cut(done, IsLF).groups) == done;
    LinesOfSnoc(Cut(done, IsLF).groups, text + [LF], base);
    assert (text + [LF])[..|text|] == text;
  }

  /** Bytes after the last LF complete no line. */
  lemma LinesPlain(done: Bytes, text: Bytes, base: int)
    requires Unterminated(done) == [] && LF !in text
    ensures Unterminated(done + text) == text
    ensures Lines(done + text, base) == Lines(done, base)
  {
    CutPlain(done, text, IsLF);
    assert [] + text == text;
  }

  lemma FieldLinesSnoc(block: seq<Line>, line: Line)
    ensures FieldLines(block + [line]) == FieldLines(block) + if IsField(line) then [line] else []
  {
    assert (block + [line])[..|block|] == block;
  }

  lemma EventsOfSnoc(blocks: seq<seq<Line>>, block: seq<Line>, base: int, chunks: seq<Bytes>)
    requires block != [] && forall i :: 0 <= i < |blocks| ==> blocks[i] != []
    ensures EventsOf(blocks + [block], base, chunks) ==
            var before := EventsOf(blocks, base, chunks);
            if FieldLines(block) == [] then before
            else before + [LogicalEvent(Interpret(|before| + 1, FieldLines(block)[0].start, Fields(block)),
                                        BlockChunks(block, base, chunks))]
  {
    hide Interpret, Fields, FieldLines, BlockChunks;
    var longer := blocks + [block];
    assert longer[..|blocks|] == blocks && longer[|blocks|] == block;
  }

  // ----- the field limit only gets harder to meet

  lemma {:induction false} LimitIsPrefixClosed(lines: seq<Line>, more: seq<Line>)
    requires WithinLimit(Cut(lines + more, IsBlank))
    ensures WithinLimit(Cut(lines, IsBlank))
  {
    if more == [] {
      assert lines + more == lines;
    } else {
      var n := |more| - 1;
      var shorter := lines + more[..n];
      assert lines + more == shorter + [more[n]];
      CutSnoc(shorter, more[n], IsBlank);
      var p, q := Cut(shorter, IsBlank), Cut(lines + more, IsBlank);
      FieldLinesSnoc(p.rest, more[n]);
      assert BlockWithinLimit(p.rest) by {
        if IsBlank(more[n]) { assert q.groups[|p.groups|] == p.rest + [more[n]]; }
      }
      forall i | 0 <= i < |p.groups| ensures BlockWithinLimit(p.groups[i]) {
        assert q.groups[i] == p.groups[i];
      }
      LimitIsPrefixClosed(lines, more[..n]);
    }
  }

  lemma {:induction false} MoreBytesMoreLines(done: Bytes, more: Bytes, base: int) returns (extra: seq<Line>)
    ensures Lines(done + more, base) == Lines(done, base) + extra
  {
    hide Lines;
    if more == [] {
      assert done + more == done;
      extra := [];
    } else {
      var n := |more| - 1;
      var before := MoreBytesMoreLines(done, more[..n], base);
      var last := OneMoreByte(done + more[..n], more[n], base);
      assert done + more == (done + more[..n]) + [more[n]];
      extra := before + last;
      assert (Lines(done, base) + before) + last == Lines(done, base) + extra;
    }
  }

  lemma OneMoreByte(done: Bytes, b: Byte, base: int) returns (extra: seq<Line>)
    ensures Lines(done + [b], base) == Lines(done, base) + extra
  {
    hide Cut, LinesOf;
    CutSnoc(done, b, IsLF);
    var p := Cut(done, IsLF);
    extra := [];
    if b == LF {
      LinesOfSnoc(p.groups, p.rest + [b], base);
      extra := [LinesOf(p.groups + [p.rest + [b]], base)[|p.groups|]];
    }
  }

  // ----- the invariant between line steps

  /** Closed blocks and open block after one more line. */
  function Advance(p: Pieces<Line>, line: Line): Pieces<Line>
  {
    if IsBlank(line) then Pieces(p.groups + [p.rest + [line]], []) else Pieces(p.groups, p.rest + [line])
  }

  ghost predicate Nonempty(p: Pieces<Line>)
  {
    forall i :: 0 <= i < |p.groups| ==> p.groups[i] != []
  }

  /** The offset, from the start of the stream, of the first byte of the open block. */
  function BlockStart(p: Pieces<Line>, position: int, base: int): int
  {
    if p.rest == [] then position else p.rest[0].start - base
  }

  ghost predicate FieldsTracked(s: State, p: Pieces<Line>)
  {
    var open := FieldLines(p.rest);
    s.currentFields == ParseAll(open) && (open != [] ==> s.currentOffset == open[0].start)
  }

  ghost predicate ChunksTracked(s: State, p: Pieces<Line>, position: nat, base: int, chunks: seq<Bytes>)
  {
    AddChunk(s.currentChunks, |chunks|) == Range(ChunkAt(chunks, Before(BlockStart(p, position, base))), |chunks|)
  }

  /** `s` has consumed exactly the `position` bytes whose lines form the blocks
      `p`, while reading chunk number |chunks|. */
  ghost predicate Tracks(s: State, p: Pieces<Line>, position: nat, base: int, chunks: seq<Bytes>)
  {
    && Nonempty(p)
    && s.processedOffset == base + position
    && s.currentBytes == BlockBytes(p.rest)
    && s.nextEventSequence == |EventsOf(p.groups, base, chunks)| + 1
    && FieldsTracked(s, p)
    && ChunksTracked(s, p, position, base, chunks)
  }

  /** What TakeLine leaves of the state once the line's bytes are gone. */
  function AfterTake(s: State, line: Line, sequence: nat): State
  {
    s.(currentChunks := AddChunk(s.currentChunks, sequence),
       processedOffset := s.processedOffset + (line.end - line.start),
       currentBytes := s.currentBytes + if line.text == [] then 0 else |line.text| + 1)
  }

  lemma BlockBytesSnoc(block: seq<Line>, line: Line)
    ensures BlockBytes(block + [line]) == BlockBytes(block) + if line.text == [] then 0 else |line.text| + 1
  {
    assert (block + [line])[..|block|] == block;
  }

  lemma SizeAdvance(p: Pieces<Line>, line: Line, max: int)
    requires WithinSize(p, max)
    ensures WithinSize(Advance(p, line), max) <==> IsBlank(line) || BlockBytes(p.rest) + |line.text| + 1 <= max
  {
    BlockBytesSnoc(p.rest, line);
    if IsBlank(line) {
      var q := Advance(p, line);
      assert forall i :: 0 <= i < |p.groups| ==> q.groups[i] == p.groups[i];
    }
  }

  lemma LimitAdvance(p: Pieces<Line>, line: Line)
    requires WithinLimit(p)
    ensures WithinLimit(Advance(p, line)) <==> !(IsField(line) && |FieldLines(p.rest)| >= MAX_FIELDS_PER_EVENT)
  {
    FieldLinesSnoc(p.rest, line);
  }

  /** Consuming a comment or a field. */
  lemma OpenFields(s: State, p: Pieces<Line>, line: Line, sequence: nat)
    requires FieldsTracked(s, p) && !IsBlank(line) && line.start == s.processedOffset
    ensures FieldsTracked(ConsumeLine(AfterTake(s, line, sequence), line.text, s.processedOffset).0, Advance(p, line))
  {
    hide AddChunk, ParseField, IsComment;
    FieldLinesSnoc(p.rest, line);
    var open := FieldLines(p.rest);
    if IsField(line) {
      assert ParseAll(open + [line]) == ParseAll(open) + [ParseField(line.text)];
    }
  }

  lemma OpenBlockStart(p: Pieces<Line>, position: int, line: Line, base: int)
    requires !IsBlank(line) && line.start == base + position
    ensures BlockStart(Advance(p, line), line.end - base, base) == BlockStart(p, position, base)
  {
    assert p.rest != [] ==> (p.rest + [line])[0] == p.rest[0];
  }

  lemma ConsumeOpen(s: State, p: Pieces<Line>, position: nat, line: Line, base: int, chunks: seq<Bytes>)
    requires Tracks(s, p, position, base, chunks) && !IsBlank(line)
    requires line.start == base + position && |line.text| + 1 <= line.end - line.start
    ensures var taken := AfterTake(s, line, |chunks|);
            var (next, events) := ConsumeLine(taken, line.text, s.processedOffset);
            events == [] && Tracks(next, Advance(p, line), line.end - base, base, chunks)
  {
    hide FieldsTracked, BlockStart, EventsOf, ChunkAt, Range, AddChunk, ParseField, BlockBytes;
    OpenFields(s, p, line, |chunks|);
    BlockBytesSnoc(p.rest, line);
    OpenBlockStart(p, position, line, base);
    AddChunkTwice(s.currentChunks, |chunks|);
  }

  lemma AddChunkTwice(chunks: seq<nat>, sequence: nat)
    ensures AddChunk(AddChunk(chunks, sequence), sequence) == AddChunk(chunks, sequence)
  {
  }

  /** A blank line closes the block; an event leaves exactly when the block holds a field. */
  lemma BlankEmits(s: State, p: Pieces<Line>, position: nat, line: Line, base: int, chunks: seq<Bytes>)
    requires Tracks(s, p, position, base, chunks) && IsBlank(line)
    requires line.start == base + position
    requires ChunkAt(chunks, line.end - 1 - base) == |chunks|
    ensures EventsOf(Advance(p, line).groups, base, chunks) ==
            EventsOf(p.groups, base, chunks) +
            ConsumeLine(AfterTake(s, line, |chunks|), line.text, s.processedOffset).1
  {
    hide Interpret, FieldLines, EventsOf, ChunkAt, Range;
    var block := p.rest + [line];
    FieldLinesSnoc(p.rest, line);
    EventsOfSnoc(p.groups, block, base, chunks);
    assert FieldLines(block) == FieldLines(p.rest);
    var before := EventsOf(p.groups, base, chunks);
    if FieldLines(block) == [] {
      assert before + [] == before;
    } else {
      assert block[0].start - base == BlockStart(p, position, base);
      assert BlockChunks(block, base, chunks) == AddChunk(s.currentChunks, |chunks|);
    }
  }

  lemma NoLinesNoFields()
    ensures FieldLines([]) == [] && ParseAll([]) == []
  {
  }

  lemma ConsumeBlank(s: State, p: Pieces<Line>, position: nat, line: Line, base: int, chunks: seq<Bytes>)
    requires Tracks(s, p, position, base, chunks) && IsBlank(line)
    requires line.start == base + position && line.start < line.end
    requires ChunkAt(chunks, line.end - 1 - base) == |chunks|
    ensures var (next, events) := ConsumeLine(AfterTake(s, line, |chunks|), line.text, s.processedOffset);
            var q := Advance(p, line);
            EventsOf(q.groups, base, chunks) == EventsOf(p.groups, base, chunks) + events &&
            Tracks(next, q, line.end - base, base, chunks)
  {
    hide Interpret, ChunkAt, FieldLines, EventsOf, ParseAll;
    BlankEmits(s, p, position, line, base, chunks);
    var (next, events) := ConsumeLine(AfterTake(s, line, |chunks|), line.text, s.processedOffset);
    NoLinesNoFields();
    assert BlockBytes([]) == 0;
    assert FieldsTracked(next, Advance(p, line));
    assert Before(line.end - base) == line.end - 1 - base;
    assert AddChunk([], |chunks|) == [|chunks|] == Range(|chunks|, |chunks|);
  }

  // ----- the line loop

  /** `s` has consumed the completed lines `done` of the stream Flatten(chunks). */
  ghost predicate Scanned(s: State, done: Bytes, base: int, chunks: seq<Bytes>)
  {
    && chunks != []
    && Unterminated(done) == []
    && Flatten(chunks) == done + s.buffer != []
    && WithinLimits(done, base, s.maxBufferBytes)
    && Tracks(s, BlocksOf(done, base), |done|, base, chunks)
  }

  lemma PiecesSnoc(done: Bytes, text: Bytes, base: int)
    requires Unterminated(done) == [] && LF !in text
    ensures Unterminated(done + text + [LF]) == []
    ensures BlocksOf(done + text + [LF], base) == Advance(BlocksOf(done, base), NextLine(done, text, base))
  {
    LinesSnoc(done, text, base);
    CutSnoc(Lines(done, base), NextLine(done, text, base), IsBlank);
  }

  /** Every LF still in the buffer came with the last chunk. */
  ghost predicate FreshLines(done: Bytes, chunks: seq<Bytes>)
    requires chunks != []
  {
    forall i :: |done| <= i < |Flatten(chunks)| && Flatten(chunks)[i] == LF ==>
                  |Flatten(chunks[..|chunks| - 1])| <= i
  }

  lemma ConsumeIgnoresBuffer(s: State, text: Bytes, lineStart: int, buffer: Bytes)
    ensures ConsumeLine(s.(buffer := buffer), text, lineStart) ==
            var (next, events) := ConsumeLine(s, text, lineStart);
            (next.(buffer := buffer), events)
  {
    hide Interpret, ParseField, IsComment;
  }

  lemma TracksIgnoresBuffer(s: State, p: Pieces<Line>, position: nat, base: int, chunks: seq<Bytes>, buffer: Bytes)
    requires Tracks(s, p, position, base, chunks)
    ensures Tracks(s.(buffer := buffer), p, position, base, chunks)
  {
  }

  /** A line is rejected for the size or the fields of its block. */
  lemma LineErrorIsLimit(s: State, p: Pieces<Line>, line: Line, sequence: nat)
    requires FieldsTracked(s, p) && s.currentBytes == BlockBytes(p.rest)
    ensures LineError(AfterTake(s, line, sequence), line.text) ==
            if !IsBlank(line) && BlockBytes(p.rest) + |line.text| + 1 > s.maxBufferBytes then Some(EventTooLarge)
            else if IsField(line) && |FieldLines(p.rest)| >= MAX_FIELDS_PER_EVENT then Some(TooManyFields)
            else None
  {
  }

  /** One line of the stream, whichever it is. */
  lemma ConsumeTracked(s: State, p: Pieces<Line>, position: nat, line: Line, base: int, chunks: seq<Bytes>, buffer: Bytes)
    requires Tracks(s, p, position, base, chunks)
    requires line.start == base + position && |line.text| + 1 <= line.end - line.start
    requires ChunkAt(chunks, line.end - 1 - base) == |chunks|
    ensures var (next, events) := ConsumeLine(AfterTake(s, line, |chunks|).(buffer := buffer), line.text, s.processedOffset);
            var q := Advance(p, line);
            Nonempty(q) &&
            EventsOf(q.groups, base, chunks) == EventsOf(p.groups, base, chunks) + events &&
            Tracks(next, q, line.end - base, base, chunks)
  {
    hide Interpret, ChunkAt, FieldLines, EventsOf, ParseAll, ConsumeLine, Tracks;
    ConsumeIgnoresBuffer(AfterTake(s, line, |chunks|), line.text, s.processedOffset, buffer);
    var next := ConsumeLine(AfterTake(s, line, |chunks|), line.text, s.processedOffset).0;
    if IsBlank(line) {
      ConsumeBlank(s, p, position, line, base, chunks);
    } else {
      ConsumeOpen(s, p, position, line, base, chunks);
    }
    TracksIgnoresBuffer(next, Advance(p, line), line.end - base, base, chunks, buffer);
  }

  /** The error names a limit that the bytes break. */
  predicate Blames(bytes: Bytes, base: int, max: int, e: FeedError)
  {
    (e == EventTooLarge && !WithinSize(BlocksOf(bytes, base), max)) || (e == TooManyFields && !WithinFieldLimit(bytes, base))
  }

  lemma StepLine(s: State, done: Bytes, base: int, chunks: seq<Bytes>, newline: nat)
    requires Scanned(s, done, base, chunks) && FreshLines(done, chunks)
    requires newline < |s.buffer| && s.buffer[newline] == LF && LF !in s.buffer[..newline]
    ensures var marked := s.(currentChunks := AddChunk(s.currentChunks, |chunks|));
            var step := LineStep(marked, newline);
            var longer := done + s.buffer[..newline + 1];
            if WithinLimits(longer, base, s.maxBufferBytes)
            then step.outcome.Ok? && Scanned(step.state, longer, base, chunks) && FreshLines(longer, chunks) &&
                 Events(longer, base, chunks) == Events(done, base, chunks) + step.outcome.value
            else step.outcome.Err? && Blames(longer, base, s.maxBufferBytes, step.outcome.error)
  {
    hide Interpret, ChunkAt, FieldLines, EventsOf, ConsumeLine, ParseAll, Lines, Cut, Flatten, IsComment, Advance, WithinLimit, WithinSize, BlockBytes, ChunksTracked;
    var text := s.buffer[..newline];
    var line := NextLine(done, text, base);
    var longer := done + s.buffer[..newline + 1];
    assert s.buffer[..newline + 1] == text + [LF];
    assert longer == done + text + [LF];
    PiecesSnoc(done, text, base);
    var p := BlocksOf(done, base);
    LimitAdvance(p, line);
    SizeAdvance(p, line, s.maxBufferBytes);
    var stream := Flatten(chunks);
    assert stream == longer + s.buffer[newline + 1..];
    assert stream[|done| + newline] == LF;
    LastChunk(chunks, |done| + newline);
    ConsumeTracked(s, p, |done|, line, base, chunks, s.buffer[newline + 1..]);
    var marked := s.(currentChunks := AddChunk(s.currentChunks, |chunks|));
    assert TakeLine(marked, newline) == AfterTake(s, line, |chunks|).(buffer := s.buffer[newline + 1..]);
    LineErrorIsLimit(s, p, line, |chunks|);
  }

  lemma LastChunk(chunks: seq<Bytes>, position: int)
    requires chunks != [] && |Flatten(chunks[..|chunks| - 1])| <= position
    ensures ChunkAt(chunks, position) == |chunks|
  {
  }

  /** `s` is at rest after the whole stream: no LF is left in the buffer. */
  ghost predicate Settled(s: State, base: int, chunks: seq<Bytes>)
  {
    var stream := Flatten(chunks);
    && |s.buffer| <= |stream| && LF !in s.buffer
    && Scanned(s, stream[..|stream| - |s.buffer|], base, chunks)
    && AddChunk(s.currentChunks, |chunks|) == s.currentChunks
  }

  /** The events and limit of a stream depend on its completed lines only. */
  lemma PlainTail(done: Bytes, text: Bytes, base: int)
    requires Unterminated(done) == [] && LF !in text
    ensures BlocksOf(done + text, base) == BlocksOf(done, base)
  {
    LinesPlain(done, text, base);
  }

  lemma LimitOfPrefix(done: Bytes, more: Bytes, base: int)
    requires WithinLimit(BlocksOf(done + more, base))
    ensures WithinLimit(BlocksOf(done, base))
  {
    var extra := MoreBytesMoreLines(done, more, base);
    LimitIsPrefixClosed(Lines(done, base), extra);
  }

  lemma {:induction false} SizeIsPrefixClosed(lines: seq<Line>, more: seq<Line>, max: int)
    requires WithinSize(Cut(lines + more, IsBlank), max)
    ensures WithinSize(Cut(lines, IsBlank), max)
  {
    if more == [] {
      assert lines + more == lines;
    } else {
      var n := |more| - 1;
      var shorter := lines + more[..n];
      assert lines + more == shorter + [more[n]];
      CutSnoc(shorter, more[n], IsBlank);
      var p, q := Cut(shorter, IsBlank), Cut(lines + more, IsBlank);
      BlockBytesSnoc(p.rest, more[n]);
      assert BlockBytes(p.rest) <= max by {
        if IsBlank(more[n]) { assert q.groups[|p.groups|] == p.rest + [more[n]]; }
      }
      forall i | 0 <= i < |p.groups| ensures BlockBytes(p.groups[i]) <= max {
        assert q.groups[i] == p.groups[i];
      }
      SizeIsPrefixClosed(lines, more[..n], max);
    }
  }

  /** Bytes that break a limit still break it when more follow. */
  lemma LimitsOfPrefix(done: Bytes, more: Bytes, base: int, max: int)
    ensures WithinFieldLimit(done + more, base) ==> WithinFieldLimit(done, base)
    ensures WithinSize(BlocksOf(done + more, base), max) ==> WithinSize(BlocksOf(done, base), max)
  {
    hide WithinLimit, WithinSize, Lines, Cut;
    if WithinFieldLimit(done + more, base) { LimitOfPrefix(done, more, base); }
    if WithinSize(BlocksOf(done + more, base), max) {
      var extra := MoreBytesMoreLines(done, more, base);
      SizeIsPrefixClosed(Lines(done, base), extra, max);
    }
  }

  lemma DrainNothing(s: State, done: Bytes, base: int, chunks: seq<Bytes>)
    requires Scanned(s, done, base, chunks) && LF !in s.buffer
    ensures Drain(s, |chunks|) ==
            if TailFits(Flatten(chunks), base, s.maxBufferBytes)
            then Step(s.(currentChunks := AddChunk(s.currentChunks, |chunks|)), Ok([])) else Step(s, Err(EventTooLarge))
    ensures Flatten(chunks) == done + s.buffer
    ensures Events(Flatten(chunks), base, chunks) == Events(done, base, chunks)
    ensures WithinLimits(Flatten(chunks), base, s.maxBufferBytes)
  {
    hide Interpret, ChunkAt, FieldLines, EventsOf, ParseAll, Lines, Cut, Flatten, WithinLimit, WithinSize, BlockBytes, LineStep;
    PlainTail(done, s.buffer, base);
    LinesPlain(done, s.buffer, base);
  }

  lemma ScannedStream(s: State, done: Bytes, base: int, chunks: seq<Bytes>)
    requires Scanned(s, done, base, chunks)
    ensures Flatten(chunks) == done + s.buffer
  {
  }

  /** The error names a limit that the stream breaks, or a tail that does not fit. */
  predicate Fails(stream: Bytes, base: int, max: int, e: FeedError)
  {
    Blames(stream, base, max, e) || (e == EventTooLarge && !TailFits(stream, base, max))
  }

  lemma {:induction false} DrainIsReading(s: State, done: Bytes, base: int, chunks: seq<Bytes>)
    requires Scanned(s, done, base, chunks) && FreshLines(done, chunks)
    ensures var stream := Flatten(chunks);
            var step := Drain(s, |chunks|);
            var max := s.maxBufferBytes;
            if WithinLimits(stream, base, max) && TailFits(stream, base, max)
            then step.outcome.Ok? && Settled(step.state, base, chunks) &&
                 Events(stream, base, chunks) == Events(done, base, chunks) + step.outcome.value
            else step.outcome.Err? && Fails(stream, base, max, step.outcome.error)
    decreases |s.buffer|
  {
    hide Events, Flatten, WithinLimit, WithinSize, TailFits, Drain, LineStep, BlocksOf, Settled, Tracks, FreshLines, AddChunk, Scanned, IndexOf;
    var stream := Flatten(chunks);
    ScannedStream(s, done, base, chunks);
    var newline := IndexOf(s.buffer, LF);
    if newline == -1 {
      DrainNothing(s, done, base, chunks);
      if TailFits(stream, base, s.maxBufferBytes) { RestIsSettled(s, done, base, chunks); }
      assert Events(done, base, chunks) + [] == Events(done, base, chunks);
    } else {
      StepLine(s, done, base, chunks, newline);
      var step := LineStep(s.(currentChunks := AddChunk(s.currentChunks, |chunks|)), newline);
      DrainOnce(s, |chunks|, step.state, step.outcome);
      var longer := done + s.buffer[..newline + 1];
      assert stream == longer + s.buffer[newline + 1..];
      LimitsOfPrefix(longer, s.buffer[newline + 1..], base, s.maxBufferBytes);
      if step.outcome.Ok? {
        assert step.state.maxBufferBytes == s.maxBufferBytes;
        DrainIsReading(step.state, longer, base, chunks);
        var rest := Drain(step.state, |chunks|);
        if rest.outcome.Ok? {
          assert Events(done, base, chunks) + step.outcome.value + rest.outcome.value ==
                 Events(done, base, chunks) + (step.outcome.value + rest.outcome.value);
        }
      }
    }
  }

  lemma RestIsSettled(s: State, done: Bytes, base: int, chunks: seq<Bytes>)
    requires Scanned(s, done, base, chunks) && LF !in s.buffer && TailFits(Flatten(chunks), base, s.maxBufferBytes)
    ensures Settled(s.(currentChunks := AddChunk(s.currentChunks, |chunks|)), base, chunks)
  {
    hide Interpret, ChunkAt, FieldLines, EventsOf, ParseAll, Lines, Cut, Flatten, WithinLimit;
    var stream := Flatten(chunks);
    assert stream[..|stream| - |s.buffer|] == done;
    AddChunkTwice(s.currentChunks, |chunks|);
  }

  // ----- from one chunk to the next

  lemma ChunkAtStable(chunks: seq<Bytes>, chunk: Bytes, position: int)
    requires position < |Flatten(chunks)|
    ensures ChunkAt(chunks + [chunk], position) == ChunkAt(chunks, position)
  {
    assert (chunks + [chunk])[..|chunks|] == chunks;
  }

  /** The line's bytes lie within the first `length` bytes of the stream. */
  ghost predicate Within(line: Line, base: int, length: nat)
  {
    base <= line.start < line.end <= base + length
  }

  lemma {:induction false} LinesWithin(groups: seq<Bytes>, base: int)
    requires forall i :: 0 <= i < |groups| ==> groups[i] != []
    ensures forall line :: line in LinesOf(groups, base) ==> Within(line, base, |Flatten(groups)|)
  {
    if groups != [] {
      LinesWithin(groups[..|groups| - 1], base);
    }
  }

  lemma {:induction false} CutElements<T>(s: seq<T>, separator: T -> bool)
    ensures var p := Cut(s, separator);
            (forall i, x :: 0 <= i < |p.groups| && x in p.groups[i] ==> x in s) && (forall x :: x in p.rest ==> x in s)
  {
    if s != [] {
      var n := |s| - 1;
      CutElements(s[..n], separator);
      var p, q := Cut(s[..n], separator), Cut(s, separator);
      assert forall x :: x in s[..n] + [s[n]] ==> x in s;
      forall i, x | 0 <= i < |q.groups| && x in q.groups[i] ensures x in s {
        if i < |p.groups| { assert q.groups[i] == p.groups[i]; } else { assert x in p.rest + [s[n]]; }
      }
    }
  }

  ghost predicate AllWithin(blocks: seq<seq<Line>>, base: int, length: nat)
  {
    forall i, line :: 0 <= i < |blocks| && line in blocks[i] ==> Within(line, base, length)
  }

  lemma BlocksWithin(done: Bytes, base: int)
    ensures AllWithin(BlocksOf(done, base).groups, base, |done|)
    ensures forall line :: line in BlocksOf(done, base).rest ==> Within(line, base, |done|)
  {
    CutIsLossless(done, IsLF);
    LinesWithin(Cut(done, IsLF).groups, base);
    CutElements(Lines(done, base), IsBlank);
    assert |Flatten(Cut(done, IsLF).groups)| <= |done|;
    forall line | line in Lines(done, base) ensures Within(line, base, |done|) {
      assert Within(line, base, |Flatten(Cut(done, IsLF).groups)|);
    }
  }

  lemma {:induction false} EventsStable(blocks: seq<seq<Line>>, base: int, chunks: seq<Bytes>, chunk: Bytes)
    requires forall i :: 0 <= i < |blocks| ==> blocks[i] != []
    requires AllWithin(blocks, base, |Flatten(chunks)|)
    ensures EventsOf(blocks, base, chunks + [chunk]) == EventsOf(blocks, base, chunks)
  {
    hide Interpret, FieldLines, ChunkAt, Range;
    if blocks != [] {
      var n := |blocks| - 1;
      EventsStable(blocks[..n], base, chunks, chunk);
      var block := blocks[n];
      assert Within(block[0], base, |Flatten(chunks)|) && Within(block[|block| - 1], base, |Flatten(chunks)|);
      ChunkAtStable(chunks, chunk, Before(block[0].start - base));
      ChunkAtStable(chunks, chunk, block[|block| - 1].end - 1 - base);
      assert BlockChunks(block, base, chunks + [chunk]) == BlockChunks(block, base, chunks);
    }
  }

  lemma ChunkAtBound(chunks: seq<Bytes>, position: int)
    ensures ChunkAt(chunks, position) <= |chunks|
  {
  }

  /** The events of completed lines are the same once another read follows. */
  lemma ResumeEvents(done: Bytes, text: Bytes, base: int, chunks: seq<Bytes>, chunk: Bytes)
    requires Unterminated(done) == [] && LF !in text && Flatten(chunks) == done + text
    ensures var groups := BlocksOf(done, base).groups;
            EventsOf(groups, base, chunks + [chunk]) == EventsOf(groups, base, chunks)
    ensures Events(done, base, chunks + [chunk]) == Events(Flatten(chunks), base, chunks)
  {
    hide EventsOf, BlocksOf, Flatten;
    PlainTail(done, text, base);
    var p := BlocksOf(done, base);
    BlocksWithin(done, base);
    forall i, line | 0 <= i < |p.groups| && line in p.groups[i] ensures Within(line, base, |Flatten(chunks)|) {
      assert Within(line, base, |done|);
    }
    EventsStable(p.groups, base, chunks, chunk);
  }

  lemma ResumeFresh(done: Bytes, text: Bytes, chunks: seq<Bytes>, chunk: Bytes)
    requires LF !in text && Flatten(chunks) == done + text
    ensures FreshLines(done, chunks + [chunk])
  {
    hide Flatten;
    FlattenSnoc(chunks, chunk);
    var longer := chunks + [chunk];
    assert longer[..|longer| - 1] == chunks;
    assert forall i :: |done| <= i < |done| + |text| ==> Flatten(longer)[i] == text[i - |done|];
  }

  lemma ResumeTracks(s: State, done: Bytes, base: int, chunks: seq<Bytes>, chunk: Bytes)
    requires Scanned(s, done, base, chunks) && LF !in s.buffer && AddChunk(s.currentChunks, |chunks|) == s.currentChunks
    ensures Tracks(s.(buffer := s.buffer + chunk), BlocksOf(done, base), |done|, base, chunks + [chunk])
  {
    hide BlocksOf, WithinLimit, EventsOf, FieldsTracked, ChunksTracked, AddChunk, Flatten;
    var p := BlocksOf(done, base);
    ResumeEvents(done, s.buffer, base, chunks, chunk);
    BlocksWithin(done, base);
    TracksIgnoresBuffer(s, p, |done|, base, chunks, s.buffer + chunk);
    ResumeChunks(s.(buffer := s.buffer + chunk), p, done, base, chunks, chunk);
  }

  /** A read that begins where the last one ended resumes the scan. */
  lemma Resume(s: State, base: nat, chunks: seq<Bytes>, chunk: Bytes)
    requires Settled(s, base, chunks) && chunk != []
    ensures var done := Flatten(chunks)[..|Flatten(chunks)| - |s.buffer|];
            var admitted := s.(buffer := s.buffer + chunk);
            Scanned(admitted, done, base, chunks + [chunk]) && FreshLines(done, chunks + [chunk]) &&
            Events(done, base, chunks + [chunk]) == Events(Flatten(chunks), base, chunks)
  {
    hide BlocksOf, WithinLimit, Events, Tracks, FreshLines, Flatten, Unterminated, AddChunk;
    var stream := Flatten(chunks);
    var done := stream[..|stream| - |s.buffer|];
    FlattenSnoc(chunks, chunk);
    assert stream + chunk == done + (s.buffer + chunk);
    ResumeEvents(done, s.buffer, base, chunks, chunk);
    ResumeFresh(done, s.buffer, chunks, chunk);
    ResumeTracks(s, done, base, chunks, chunk);
  }

  lemma ResumeChunks(s: State, p: Pieces<Line>, done: Bytes, base: int, chunks: seq<Bytes>, chunk: Bytes)
    requires ChunksTracked(s, p, |done|, base, chunks) && AddChunk(s.currentChunks, |chunks|) == s.currentChunks
    requires |done| <= |Flatten(chunks)| && Flatten(chunks) != []
    requires forall line :: line in p.rest ==> Within(line, base, |done|)
    ensures ChunksTracked(s, p, |done|, base, chunks + [chunk])
  {
    hide Range, ChunkAt, Flatten;
    var from := Before(BlockStart(p, |done|, base));
    if p.rest != [] { assert Within(p.rest[0], base, |done|); }
    ChunkAtStable(chunks, chunk, from);
    ChunkAtBound(chunks, from);
    ExtendRange(s.currentChunks, ChunkAt(chunks, from), |chunks|);
  }

  lemma ExtendRange(chunks: seq<nat>, from: nat, to: nat)
    requires from <= to && chunks == Range(from, to)
    ensures AddChunk(chunks, to + 1) == Range(from, to + 1)
  {
  }

  // ----- whole runs

  ghost predicate Ready(s: State, limit: int, base: nat, chunks: seq<Bytes>)
  {
    && s.maxBufferBytes == Initial(limit).maxBufferBytes
    && s.nextChunkSequence == |chunks| + 1
    && if chunks == [] then s == Initial(limit)
       else s.started && s.nextByteOffset == base + |Flatten(chunks)| && Settled(s, base, chunks)
  }

  lemma FlattenOne(chunk: Bytes)
    ensures Flatten([chunk]) == chunk && Flatten([chunk][..0]) == []
  {
    assert [chunk][..0] == [];
    FlattenSnoc([], chunk);
    assert [] + [chunk] == [chunk] && [] + chunk == chunk;
  }

  lemma NoBytes(base: int)
    ensures Unterminated([]) == [] && BlocksOf([], base) == Pieces([], [])
    ensures forall max: nat :: WithinLimits([], base, max)
  {
    assert Lines([], base) == [];
  }

  /** A first read is tracked before any of its bytes is consumed. */
  lemma FirstTracks(limit: int, base: nat, chunk: Bytes)
    ensures Tracks(Initial(limit).(buffer := chunk, started := true, processedOffset := base), Pieces([], []), 0, base, [chunk])
  {
    hide Flatten;
    FlattenOne(chunk);
    assert ChunkAt([chunk], 0) == 1;
    assert AddChunk([], 1) == [1] == Range(1, 1);
  }

  lemma FirstScan(limit: int, base: nat, chunk: Bytes)
    requires chunk != []
    ensures var admitted := Initial(limit).(buffer := chunk, started := true, processedOffset := base);
            Scanned(admitted, [], base, [chunk]) && FreshLines([], [chunk]) && Events([], base, [chunk]) == []
  {
    hide Flatten, Tracks, BlocksOf, WithinLimit, Unterminated, Cut, ChunkAt;
    FlattenOne(chunk);
    NoBytes(base);
    FirstTracks(limit, base, chunk);
    assert [] + chunk == chunk;
  }

  /** The read fits the buffer beside what is unterminated, and with it the stream keeps its limits. */
  predicate ReadFits(max: nat, base: int, before: Bytes, chunk: Bytes)
  {
    |Unterminated(before)| + |chunk| <= max && WithinLimits(before + chunk, base, max) && TailFits(before + chunk, base, max)
  }

  /** What a read that does not fit is refused for. */
  predicate Refused(max: nat, base: int, before: Bytes, chunk: Bytes, e: FeedError)
  {
    if |Unterminated(before)| + |chunk| > max then e == BufferTooLarge
    else !ReadFits(max, base, before, chunk) && Fails(before + chunk, base, max, e)
  }

  /** One read of a run that has gone well so far. */
  lemma FeedOne(s: State, limit: int, base: nat, chunks: seq<Bytes>, chunk: Bytes)
    requires Ready(s, limit, base, chunks) && chunk != []
    ensures var longer := chunks + [chunk];
            var step := FeedStep(s, ReadChunk(|longer|, base + |Flatten(chunks)|, chunk));
            if ReadFits(s.maxBufferBytes, base, Flatten(chunks), chunk)
            then step.outcome.Ok? && Ready(step.state, limit, base, longer) &&
                 Events(Flatten(longer), base, longer) == Events(Flatten(chunks), base, chunks) + step.outcome.value
            else step.outcome.Err? && Refused(s.maxBufferBytes, base, Flatten(chunks), chunk, step.outcome.error)
  {
    hide Events, WithinLimits, TailFits, Fails, Drain, Scanned, FreshLines, Tracks, Unterminated;
    var longer := chunks + [chunk];
    var read := ReadChunk(|longer|, base + |Flatten(chunks)|, chunk);
    FlattenSnoc(chunks, chunk);
    BufferIsTail(s, limit, base, chunks);
    if |s.buffer| + |chunk| <= s.maxBufferBytes {
      var admitted := Admit(s, read).0;
      var done := BeginRead(s, limit, base, chunks, chunk);
      assert Admit(s, read).1 == None;
      DrainIsReading(admitted, done, base, longer);
      assert SameHeader(Drain(admitted, |longer|).state, admitted);
    }
  }

  /** Before the lines of an admitted read are consumed. */
  lemma BeginRead(s: State, limit: int, base: nat, chunks: seq<Bytes>, chunk: Bytes) returns (done: Bytes)
    requires Ready(s, limit, base, chunks) && chunk != [] && |s.buffer| + |chunk| <= s.maxBufferBytes
    ensures var longer := chunks + [chunk];
            var admitted := Admit(s, ReadChunk(|longer|, base + |Flatten(chunks)|, chunk)).0;
            && Scanned(admitted, done, base, longer) && FreshLines(done, longer)
            && Events(done, base, longer) == Events(Flatten(chunks), base, chunks)
  {
    hide Events, WithinLimits, TailFits, Scanned, FreshLines, Tracks, Unterminated;
    var longer := chunks + [chunk];
    var admitted := Admit(s, ReadChunk(|longer|, base + |Flatten(chunks)|, chunk)).0;
    if chunks == [] {
      FirstScan(limit, base, chunk);
      done := [];
      assert longer == [chunk] && [] + chunk == chunk;
      HeaderIsIrrelevant(s.(buffer := chunk, started := true, processedOffset := base), admitted, done, base, longer);
      NothingRead(base);
    } else {
      SettledFits(s, base, chunks);
      done := Flatten(chunks)[..|Flatten(chunks)| - |s.buffer|];
      Resume(s, base, chunks, chunk);
      HeaderIsIrrelevant(s.(buffer := s.buffer + chunk), admitted, done, base, longer);
    }
  }

  /** At rest the buffer holds what is unterminated. */
  lemma BufferIsTail(s: State, limit: int, base: nat, chunks: seq<Bytes>)
    requires Ready(s, limit, base, chunks)
    ensures |s.buffer| == |Unterminated(Flatten(chunks))|
  {
    if chunks == [] {
      NoBytes(base);
    } else {
      var stream := Flatten(chunks);
      LinesPlain(stream[..|stream| - |s.buffer|], s.buffer, base);
    }
  }

  lemma NothingRead(base: int)
    ensures Events([], base, []) == []
  {
    assert Lines([], base) == [];
  }

  lemma SettledFits(s: State, base: int, chunks: seq<Bytes>)
    requires Settled(s, base, chunks)
    ensures |s.buffer| <= |Flatten(chunks)|
  {
  }

  lemma HeaderIsIrrelevant(s: State, t: State, done: Bytes, base: int, chunks: seq<Bytes>)
    requires Scanned(s, done, base, chunks)
    requires t == s.(nextChunkSequence := t.nextChunkSequence, nextByteOffset := t.nextByteOffset, started := t.started)
    ensures Scanned(t, done, base, chunks)
  {
  }

  /** Every read fits. */
  predicate AllFit(max: nat, base: int, chunks: seq<Bytes>)
  {
    forall k :: 0 <= k < |chunks| ==> ReadFits(max, base, Flatten(chunks[..k]), chunks[k])
  }

  /** The first read that does not fit, and the error it earns. */
  ghost predicate FirstRefused(max: nat, base: int, chunks: seq<Bytes>, e: FeedError)
  {
    exists k :: 0 <= k < |chunks| && AllFit(max, base, chunks[..k]) && Refused(max, base, Flatten(chunks[..k]), chunks[k], e)
  }

  lemma AllFitSnoc(max: nat, base: int, chunks: seq<Bytes>)
    requires chunks != []
    ensures var n := |chunks| - 1;
            AllFit(max, base, chunks) <==> AllFit(max, base, chunks[..n]) && ReadFits(max, base, Flatten(chunks[..n]), chunks[n])
  {
    hide ReadFits;
    var n := |chunks| - 1;
    assert forall k :: 0 <= k < n ==> chunks[..n][..k] == chunks[..k] && chunks[..n][k] == chunks[k];
    if AllFit(max, base, chunks) {
      forall k | 0 <= k < n ensures ReadFits(max, base, Flatten(chunks[..n][..k]), chunks[..n][k]) {
        assert ReadFits(max, base, Flatten(chunks[..k]), chunks[k]);
      }
    } else {
      var k :| 0 <= k < |chunks| && !ReadFits(max, base, Flatten(chunks[..k]), chunks[k]);
      if k < n { assert !ReadFits(max, base, Flatten(chunks[..n][..k]), chunks[..n][k]); }
    }
  }

  lemma RefusedEarlier(max: nat, base: int, chunks: seq<Bytes>, n: nat, e: FeedError)
    requires n <= |chunks| && FirstRefused(max, base, chunks[..n], e)
    ensures FirstRefused(max, base, chunks, e) && !AllFit(max, base, chunks)
  {
    hide ReadFits, Refused;
    var k :| 0 <= k < n && AllFit(max, base, chunks[..n][..k]) && Refused(max, base, Flatten(chunks[..n][..k]), chunks[..n][k], e);
    assert chunks[..n][..k] == chunks[..k] && chunks[..n][k] == chunks[k];
    RefusedNeverFits(max, base, Flatten(chunks[..k]), chunks[k], e);
  }

  lemma RefusedNeverFits(max: nat, base: int, before: Bytes, chunk: Bytes, e: FeedError)
    requires Refused(max, base, before, chunk, e)
    ensures !ReadFits(max, base, before, chunk)
  {
  }

  /**
   The assembler is the whole-stream reading, for every stream and every division
   into reads: it fails exactly when some read does not fit, on the first such read
   and for a limit that is broken there; otherwise it has emitted every event of the
   stream, with exact provenance, and stands at rest on the stream's tail.
   */
  lemma {:induction false} FeedAllIsReading(limit: int, base: nat, chunks: seq<Bytes>)
    requires forall i :: 0 <= i < |chunks| ==> chunks[i] != []
    ensures var max, r := Initial(limit).maxBufferBytes, FeedAll(limit, base, chunks);
            && (r.Ok? <==> AllFit(max, base, chunks))
            && (r.Ok? ==> r.value.events == Events(Flatten(chunks), base, chunks) && Ready(r.value.state, limit, base, chunks))
            && (r.Err? ==> FirstRefused(max, base, chunks, r.error))
  {
    hide Events, ReadFits, Refused, AllFit, FirstRefused, FeedStep, Ready;
    var max := Initial(limit).maxBufferBytes;
    if chunks == [] {
      NothingRead(base);
      EmptyIsReady(limit, base);
      assert AllFit(max, base, []) by { NothingToFit(max, base); }
    } else {
      var n := |chunks| - 1;
      assert chunks == chunks[..n] + [chunks[n]];
      FeedAllIsReading(limit, base, chunks[..n]);
      AllFitSnoc(max, base, chunks);
      match FeedAll(limit, base, chunks[..n]) {
        case Err(e) => RefusedEarlier(max, base, chunks, n, e);
        case Ok(fed) =>
          ReadyLimit(fed.state, limit, base, chunks[..n]);
          FeedOne(fed.state, limit, base, chunks[..n], chunks[n]);
          if FeedAll(limit, base, chunks).Err? { RefusedNow(max, base, chunks, FeedAll(limit, base, chunks).error); }
      }
    }
  }

  lemma NothingToFit(max: nat, base: int)
    ensures AllFit(max, base, [])
  {
  }

  lemma RefusedNow(max: nat, base: int, chunks: seq<Bytes>, e: FeedError)
    requires chunks != [] && AllFit(max, base, chunks[..|chunks| - 1])
    requires Refused(max, base, Flatten(chunks[..|chunks| - 1]), chunks[|chunks| - 1], e)
    ensures FirstRefused(max, base, chunks, e)
  {
    hide AllFit, Refused;
  }

  // ----- streams within the buffer limit

  lemma {:induction false} LineBytes(groups: seq<Bytes>, base: int)
    requires forall i :: 0 <= i < |groups| ==> groups[i] != []
    ensures BlockBytes(LinesOf(groups, base)) <= |Flatten(groups)|
  {
    hide StripCR;
    if groups != [] {
      var n := |groups| - 1;
      LineBytes(groups[..n], base);
      BlockBytesSnoc(LinesOf(groups[..n], base), LinesOf(groups, base)[n]);
      assert LinesOf(groups, base) == LinesOf(groups[..n], base) + [LinesOf(groups, base)[n]];
    }
  }

  lemma {:induction false} PieceBytes(lines: seq<Line>)
    ensures var p := Cut(lines, IsBlank);
            && BlockBytes(p.rest) <= BlockBytes(lines)
            && forall i :: 0 <= i < |p.groups| ==> BlockBytes(p.groups[i]) <= BlockBytes(lines)
  {
    if lines != [] {
      hide BlockBytes, Cut;
      var n := |lines| - 1;
      var p, q := Cut(lines[..n], IsBlank), Cut(lines, IsBlank);
      PieceBytes(lines[..n]);
      assert lines == lines[..n] + [lines[n]];
      CutSnoc(lines[..n], lines[n], IsBlank);
      BlockBytesSnoc(lines[..n], lines[n]);
      BlockBytesSnoc(p.rest, lines[n]);
      forall i | 0 <= i < |q.groups| ensures BlockBytes(q.groups[i]) <= BlockBytes(lines) {
        if i < |p.groups| { assert q.groups[i] == p.groups[i]; }
      }
    }
  }

  /** A stream of at most `max` bytes breaks no size limit. */
  lemma SmallFits(stream: Bytes, base: int, max: nat)
    requires |stream| <= max
    ensures WithinSize(BlocksOf(stream, base), max) && TailFits(stream, base, max)
  {
    hide BlockBytes;
    var cut := Cut(stream, IsLF);
    CutIsLossless(stream, IsLF);
    assert |Flatten(cut.groups)| + |cut.rest| == |stream|;
    LineBytes(cut.groups, base);
    PieceBytes(Lines(stream, base));
  }

  lemma FlattenPrefix(chunks: seq<Bytes>, k: nat)
    requires k < |chunks|
    ensures |Flatten(chunks[..k])| + |chunks[k]| <= |Flatten(chunks)|
    ensures exists more :: Flatten(chunks) == Flatten(chunks[..k]) + chunks[k] + more
    decreases |chunks|
  {
    var n := |chunks| - 1;
    if k < n {
      FlattenPrefix(chunks[..n], k);
      assert chunks[..n][..k] == chunks[..k] && chunks[..n][k] == chunks[k];
      var more :| Flatten(chunks[..n]) == Flatten(chunks[..k]) + chunks[k] + more;
      assert Flatten(chunks) == Flatten(chunks[..k]) + chunks[k] + (more + chunks[n]);
    } else {
      assert Flatten(chunks) == Flatten(chunks[..k]) + chunks[k] + [];
    }
  }

  lemma SmallReadFits(max: nat, base: int, chunks: seq<Bytes>, k: nat)
    requires k < |chunks| && |Flatten(chunks)| <= max
    ensures WithinFieldLimit(Flatten(chunks), base) ==> ReadFits(max, base, Flatten(chunks[..k]), chunks[k])
    ensures forall e :: Refused(max, base, Flatten(chunks[..k]), chunks[k], e) ==> e == TooManyFields
    ensures ReadFits(max, base, Flatten(chunks[..k]), chunks[k]) ==> WithinFieldLimit(Flatten(chunks[..k]) + chunks[k], base)
  {
    hide WithinFieldLimit, WithinSize, TailFits, Flatten;
    FlattenPrefix(chunks, k);
    var before := Flatten(chunks[..k]);
    CutIsLossless(before, IsLF);
    assert |Unterminated(before)| <= |before|;
    SmallFits(before + chunks[k], base, max);
    var more :| Flatten(chunks) == before + chunks[k] + more;
    LimitsOfPrefix(before + chunks[k], more, base, max);
  }

  /** A stream no longer than the buffer limit is read, or refused exactly for its fields. */
  lemma BoundedIsReading(limit: int, base: nat, chunks: seq<Bytes>)
    requires forall i :: 0 <= i < |chunks| ==> chunks[i] != []
    requires |Flatten(chunks)| <= Initial(limit).maxBufferBytes
    ensures var r := FeedAll(limit, base, chunks);
            && (r.Ok? <==> WithinFieldLimit(Flatten(chunks), base))
            && (r.Ok? ==> r.value.events == Events(Flatten(chunks), base, chunks) && Ready(r.value.state, limit, base, chunks))
            && (r.Err? ==> r.error == TooManyFields)
  {
    hide Events, ReadFits, Refused, FeedAll, Ready, WithinFieldLimit, Flatten;
    var max := Initial(limit).maxBufferBytes;
    FeedAllIsReading(limit, base, chunks);
    forall k | 0 <= k < |chunks|
      ensures WithinFieldLimit(Flatten(chunks), base) ==> ReadFits(max, base, Flatten(chunks[..k]), chunks[k])
      ensures forall e :: Refused(max, base, Flatten(chunks[..k]), chunks[k], e) ==> e == TooManyFields
    {
      SmallReadFits(max, base, chunks, k);
    }
    if FeedAll(limit, base, chunks).Ok? { WholeFits(max, base, chunks); }
  }

  lemma WholeFits(max: nat, base: int, chunks: seq<Bytes>)
    requires AllFit(max, base, chunks)
    ensures WithinFieldLimit(Flatten(chunks), base)
  {
    if chunks == [] {
      NoBytes(base);
    } else {
      var n := |chunks| - 1;
      assert ReadFits(max, base, Flatten(chunks[..n]), chunks[n]);
    }
  }

  lemma EmptyIsReady(limit: int, base: nat)
    ensures Ready(Initial(limit), limit, base, []) && WithinFieldLimit([], base)
  {
    assert Lines([], base) == [];
  }

  lemma ReadyLimit(s: State, limit: int, base: nat, chunks: seq<Bytes>)
    requires Ready(s, limit, base, chunks)
    ensures s.maxBufferBytes == Initial(limit).maxBufferBytes
  {
  }

  // ----- what callers rely on

  lemma {:induction false} ContentsIgnoreChunks(blocks: seq<seq<Line>>, base: int, chunks: seq<Bytes>, others: seq<Bytes>)
    requires forall i :: 0 <= i < |blocks| ==> blocks[i] != []
    ensures Contents(EventsOf(blocks, base, chunks)) == Contents(EventsOf(blocks, base, others))
  {
    hide Interpret, FieldLines, BlockChunks;
    if blocks != [] {
      var n := |blocks| - 1;
      ContentsIgnoreChunks(blocks[..n], base, chunks, others);
      var one, two := EventsOf(blocks[..n], base, chunks), EventsOf(blocks[..n], base, others);
      assert |one| == |Contents(one)| == |two|;
      assert forall i :: 0 <= i < |one| ==> one[i].content == Contents(one)[i] == Contents(two)[i] == two[i].content;
    }
  }

  /** The reads from the one that ended the last event up to the last one. */
  function TailChunks(base: nat, chunks: seq<Bytes>): seq<nat>
  {
    var stream := Flatten(chunks);
    if chunks == [] then []
    else Range(ChunkAt(chunks, Before(BlockStart(BlocksOf(stream, base), |stream| - |Unterminated(stream)|, base))), |chunks|)
  }

  lemma TailOfReady(s: State, limit: int, base: nat, chunks: seq<Bytes>)
    requires Ready(s, limit, base, chunks)
    ensures |s.buffer| == |Unterminated(Flatten(chunks))|
    ensures |s.currentFields| == |FieldLines(BlocksOf(Flatten(chunks), base).rest)|
    ensures s.currentChunks == TailChunks(base, chunks)
  {
    if chunks == [] {
      assert Lines([], base) == [];
    } else {
      var stream := Flatten(chunks);
      var done := stream[..|stream| - |s.buffer|];
      LinesPlain(done, s.buffer, base);
      PlainTail(done, s.buffer, base);
    }
  }

  /** Finishing reports the stream's unterminated bytes, the fields of its open block, and the reads since the last event. */
  lemma FinishReportsTheTail(limit: int, base: nat, chunks: seq<Bytes>)
    requires forall i :: 0 <= i < |chunks| ==> chunks[i] != []
    requires FeedAll(limit, base, chunks).Ok?
    ensures FinishTail(FeedAll(limit, base, chunks).value.state) ==
            Tail(|Unterminated(Flatten(chunks))|, |FieldLines(BlocksOf(Flatten(chunks), base).rest)|, TailChunks(base, chunks))
  {
    hide Events, BlocksOf, AllFit, FirstRefused, FeedAll, Ready, FieldLines;
    FeedAllIsReading(limit, base, chunks);
    TailOfReady(FeedAll(limit, base, chunks).value.state, limit, base, chunks);
  }

  /** Two divisions of the same bytes agree: both fail on the field limit, or
      both deliver the same events and leave the same tail. */
  lemma RechunkingIsInvisible(limit: int, base: nat, chunks: seq<Bytes>, others: seq<Bytes>)
    requires forall i :: 0 <= i < |chunks| ==> chunks[i] != []
    requires forall i :: 0 <= i < |others| ==> others[i] != []
    requires Flatten(chunks) == Flatten(others) && |Flatten(chunks)| <= Initial(limit).maxBufferBytes
    ensures match (FeedAll(limit, base, chunks), FeedAll(limit, base, others))
            case (Err(e), Err(f)) => e == f == TooManyFields
            case (Ok(a), Ok(b)) =>
              var s, t := FinishTail(a.state), FinishTail(b.state);
              && Contents(a.events) == Contents(b.events)
              && s.bufferedBytes == t.bufferedBytes && s.pendingFieldCount == t.pendingFieldCount
            case _ => false
  {
    hide EventsOf, BlocksOf, WithinLimit, FeedAll, Ready, FieldLines;
    BoundedIsReading(limit, base, chunks);
    BoundedIsReading(limit, base, others);
    ContentsIgnoreChunks(BlocksOf(Flatten(chunks), base).groups, base, chunks, others);
    match (FeedAll(limit, base, chunks), FeedAll(limit, base, others)) {
      case (Ok(a), Ok(b)) =>
        TailOfReady(a.state, limit, base, chunks);
        TailOfReady(b.state, limit, base, others);
      case _ =>
    }
  }

  /** Any two divisions of the same bytes that are accepted, of whatever length, agree. */
  lemma AcceptedDivisionsAgree(limit: int, base: nat, chunks: seq<Bytes>, others: seq<Bytes>)
    requires (forall i :: 0 <= i < |chunks| ==> chunks[i] != []) && forall i :: 0 <= i < |others| ==> others[i] != []
    requires Flatten(chunks) == Flatten(others) && FeedAll(limit, base, chunks).Ok? && FeedAll(limit, base, others).Ok?
    ensures var a, b := FeedAll(limit, base, chunks).value, FeedAll(limit, base, others).value;
            && Contents(a.events) == Contents(b.events)
            && FinishTail(a.state).bufferedBytes == FinishTail(b.state).bufferedBytes
            && FinishTail(a.state).pendingFieldCount == FinishTail(b.state).pendingFieldCount
  {
    hide EventsOf, BlocksOf, AllFit, FirstRefused, FeedAll, Ready, FieldLines;
    FeedAllIsReading(limit, base, chunks);
    FeedAllIsReading(limit, base, others);
    ContentsIgnoreChunks(BlocksOf(Flatten(chunks), base).groups, base, chunks, others);
    TailOfReady(FeedAll(limit, base, chunks).value.state, limit, base, chunks);
    TailOfReady(FeedAll(limit, base, others).value.state, limit, base, others);
  }

  lemma {:induction false} ChunkAtMonotone(chunks: seq<Bytes>, p: int, q: int)
    requires p <= q
    ensures ChunkAt(chunks, p) <= ChunkAt(chunks, q)
  {
    if chunks != [] {
      ChunkAtMonotone(chunks[..|chunks| - 1], p, q);
      ChunkAtBound(chunks[..|chunks| - 1], p);
    }
  }

  /** A block's provenance names every read that carried one of its bytes. */
  lemma ProvenanceCovers(block: seq<Line>, base: int, chunks: seq<Bytes>, position: int)
    requires block != [] && base <= block[0].start && block[0].start - base <= position < block[|block| - 1].end - base
    ensures ChunkAt(chunks, position) in BlockChunks(block, base, chunks)
  {
    var first := ChunkAt(chunks, Before(block[0].start - base));
    var last := ChunkAt(chunks, block[|block| - 1].end - 1 - base);
    ChunkAtMonotone(chunks, Before(block[0].start - base), position);
    ChunkAtMonotone(chunks, position, block[|block| - 1].end - 1 - base);
    assert Range(first, last)[ChunkAt(chunks, position) - first] == ChunkAt(chunks, position);
  }
}
