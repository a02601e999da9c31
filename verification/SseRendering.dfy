/**
 Writing event streams: blocks of fields and comments rendered as a server may
 write them, and the proof that the assembler reads back exactly what was
 written, for every layout, line ending and division into reads.
 */
module SseRendering {
  import opened Common
  import opened SseFraming
  import SseAssembler
  import opened SseChunking

  // ----- what a server writes

  /** `name: value`, `name:value` or `name` alone. */
  datatype Layout = Spaced | Tight | NameOnly

  datatype Written =
    | FieldLine(field: Field, layout: Layout, crlf: bool)
    | CommentLine(remark: Bytes, crlf: bool)

  /** Some lines and the blank line that closes them. */
  datatype Block = Block(lines: seq<Written>, crlf: bool)

  function Text(w: Written): Bytes
  {
    match w
    case FieldLine(f, Spaced, _) => f.name + [COLON, SPACE] + f.value
    case FieldLine(f, Tight, _) => f.name + [COLON] + f.value
    case FieldLine(f, NameOnly, _) => f.name
    case CommentLine(remark, _) => [COLON] + remark
  }

  function LineEnd(crlf: bool): Bytes { if crlf then [CR, LF] else [LF] }

  predicate LayoutFits(f: Field, layout: Layout)
  {
    match layout
    case Spaced => true
    case Tight => f.value == [] || f.value[0] != SPACE
    case NameOnly => f.value == []
  }

  predicate EndsWithCR(text: Bytes) { text != [] && text[|text| - 1] == CR }

  /** No line break inside, a nonempty name without a colon, and no final CR that a bare LF would swallow. */
  predicate Writable(w: Written)
  {
    && (!w.crlf ==> !EndsWithCR(Text(w)))
    && match w
       case FieldLine(f, layout, _) =>
         f.name != [] && COLON !in f.name && LF !in f.name && LF !in f.value && LayoutFits(f, layout)
       case CommentLine(remark, _) => LF !in remark
  }

  function Write(w: Written): Bytes { Text(w) + LineEnd(w.crlf) }

  function WriteLines(lines: seq<Written>): Bytes
  {
    if lines == [] then [] else WriteLines(lines[..|lines| - 1]) + Write(lines[|lines| - 1])
  }

  function WriteBlock(b: Block): Bytes { WriteLines(b.lines) + LineEnd(b.crlf) }

  function WriteStream(blocks: seq<Block>): Bytes
  {
    if blocks == [] then [] else WriteStream(blocks[..|blocks| - 1]) + WriteBlock(blocks[|blocks| - 1])
  }

  ghost predicate WritableBlock(b: Block)
  {
    forall i :: 0 <= i < |b.lines| ==> Writable(b.lines[i])
  }

  ghost predicate WritableStream(blocks: seq<Block>)
  {
    forall i :: 0 <= i < |blocks| ==> WritableBlock(blocks[i])
  }

  /** The fields written in some lines, in order. */
  function WrittenFields(lines: seq<Written>): seq<Field>
  {
    if lines == [] then []
    else
      var n := |lines| - 1;
      WrittenFields(lines[..n]) + if lines[n].FieldLine? then [lines[n].field] else []
  }

  /** How many bytes of comments precede the first field. */
  function Preamble(lines: seq<Written>): nat
  {
    if lines == [] || lines[0].FieldLine? then 0 else |Write(lines[0])| + Preamble(lines[1..])
  }

  /** What a written block says, and where its first field begins. */
  datatype Said = Said(fields: seq<Field>, offset: int)

  /** What a stream that begins at `base` says: one entry for every block with a field. */
  function Says(blocks: seq<Block>, base: int): seq<Said>
  {
    if blocks == [] then []
    else
      var n := |blocks| - 1;
      var fields := WrittenFields(blocks[n].lines);
      Says(blocks[..n], base) +
      if fields == [] then [] else [Said(fields, base + |WriteStream(blocks[..n])| + Preamble(blocks[n].lines))]
  }

  // ----- one line

  lemma StripWritten(text: Bytes, crlf: bool)
    requires !crlf ==> !EndsWithCR(text)
    ensures StripCR(if crlf then text + [CR] else text) == text
  {
  }

  lemma WrittenText(w: Written)
    requires Writable(w)
    ensures LF !in Text(w) && Text(w) != []
    ensures IsComment(Text(w)) <==> w.CommentLine?
  {
    if w.FieldLine? { assert Text(w)[0] == w.field.name[0] && w.field.name[0] in w.field.name; }
  }

  lemma FirstColon(name: Bytes, rest: Bytes)
    requires COLON !in name
    ensures IndexOf(name + [COLON] + rest, COLON) == |name|
  {
    var text := name + [COLON] + rest;
    var i := IndexOf(text, COLON);
    assert text[|name|] == COLON;
    assert forall j :: 0 <= j < |name| ==> text[j] == name[j] && name[j] in name;
    assert forall j :: 0 <= j < i ==> text[j] == text[..i][j] && text[..i][j] in text[..i];
  }

  /** The name ends at the first colon, and one space after it is dropped. */
  lemma ParsePair(name: Bytes, value: Bytes)
    requires COLON !in name
    ensures ParseField(name + [COLON] + ([SPACE] + value)) == Field(name, value)
    ensures value == [] || value[0] != SPACE ==> ParseField(name + [COLON] + value) == Field(name, value)
  {
    hide IndexOf;
    FirstColon(name, [SPACE] + value);
    FirstColon(name, value);
    var spaced, tight := name + [COLON] + ([SPACE] + value), name + [COLON] + value;
    assert spaced[..|name|] == name && spaced[|name| + 1..] == [SPACE] + value && ([SPACE] + value)[1..] == value;
    assert tight[..|name|] == name && tight[|name| + 1..] == value;
  }

  lemma ParseName(name: Bytes)
    requires COLON !in name
    ensures ParseField(name) == Field(name, [])
  {
  }

  /** Parsing a written field gives the field back. */
  lemma ParseWritten(w: Written)
    requires Writable(w) && w.FieldLine?
    ensures ParseField(Text(w)) == w.field
  {
    hide IndexOf, ParseField;
    var f := w.field;
    ParsePair(f.name, f.value);
    ParseName(f.name);
    if w.layout == Spaced { assert Text(w) == f.name + [COLON] + ([SPACE] + f.value); }
  }

  /** The line that stands at some offset. */
  function LineAt(w: Written, start: int): Line { Line(Text(w), start, start + |Write(w)|) }

  lemma WriteOne(done: Bytes, text: Bytes, crlf: bool, base: int)
    requires Unterminated(done) == [] && LF !in text && (!crlf ==> !EndsWithCR(text))
    ensures var longer := done + (text + LineEnd(crlf));
            && Unterminated(longer) == []
            && BlocksOf(longer, base) ==
               Advance(BlocksOf(done, base), Line(text, base + |done|, base + |done| + |text| + |LineEnd(crlf)|))
  {
    hide BlocksOf, Unterminated, StripCR;
    var raw := if crlf then text + [CR] else text;
    StripWritten(text, crlf);
    PiecesSnoc(done, raw, base);
    assert done + (text + LineEnd(crlf)) == done + raw + [LF];
  }

  // ----- one block

  function LinesAt(lines: seq<Written>, start: int): (ls: seq<Line>)
    ensures |ls| == |lines|
  {
    if lines == [] then []
    else
      var n := |lines| - 1;
      LinesAt(lines[..n], start) + [LineAt(lines[n], start + |WriteLines(lines[..n])|)]
  }

  /** Written lines lengthen the open block. */
  lemma {:induction false} WriteMany(done: Bytes, lines: seq<Written>, base: int)
    requires Unterminated(done) == [] && forall i :: 0 <= i < |lines| ==> Writable(lines[i])
    ensures var longer, p := done + WriteLines(lines), BlocksOf(done, base);
            && Unterminated(longer) == []
            && BlocksOf(longer, base) == Pieces(p.groups, p.rest + LinesAt(lines, base + |done|))
  {
    hide BlocksOf, Unterminated, Writable, WriteLines, LinesAt, LineAt, Write, Text, LineEnd;
    var p := BlocksOf(done, base);
    if lines == [] {
      assert WriteLines([]) == [] && LinesAt([], base + |done|) == [] by { NoLinesAt(base + |done|); }
      assert done + [] == done && p.rest + [] == p.rest;
    } else {
      var n := |lines| - 1;
      var before, sofar := done + WriteLines(lines[..n]), LinesAt(lines[..n], base + |done|);
      WriteMany(done, lines[..n], base);
      WriteNext(before, lines[n], base);
      LinesUnfold(lines, base + |done|);
      assert done + WriteLines(lines) == before + Write(lines[n]);
      assert (p.rest + sofar) + [LineAt(lines[n], base + |before|)] == p.rest + LinesAt(lines, base + |done|);
    }
  }

  lemma NoLinesAt(start: int)
    ensures WriteLines([]) == [] && LinesAt([], start) == []
  {
  }

  lemma LinesUnfold(lines: seq<Written>, start: int)
    requires lines != []
    ensures var n := |lines| - 1;
            && WriteLines(lines) == WriteLines(lines[..n]) + Write(lines[n])
            && LinesAt(lines, start) == LinesAt(lines[..n], start) + [LineAt(lines[n], start + |WriteLines(lines[..n])|)]
  {
    hide Write, LineAt;
  }

  lemma WriteNext(done: Bytes, w: Written, base: int)
    requires Unterminated(done) == [] && Writable(w)
    ensures Unterminated(done + Write(w)) == []
    ensures BlocksOf(done + Write(w), base) ==
            Pieces(BlocksOf(done, base).groups, BlocksOf(done, base).rest + [LineAt(w, base + |done|)])
  {
    hide BlocksOf, Unterminated, Writable, Text, LineEnd, IsBlank;
    WrittenLine(w);
    WriteOne(done, Text(w), w.crlf, base);
    assert !IsBlank(LineAt(w, base + |done|)) by { NotBlank(LineAt(w, base + |done|)); }
  }

  lemma NotBlank(line: Line)
    requires line.text != []
    ensures !IsBlank(line)
  {
  }

  lemma WrittenLine(w: Written)
    requires Writable(w)
    ensures LF !in Text(w) && Text(w) != [] && (!w.crlf ==> !EndsWithCR(Text(w)))
  {
    WrittenText(w);
  }

  /** The fields parsed from written lines are the written fields. */
  lemma {:induction false} FieldsWritten(lines: seq<Written>, start: int)
    requires forall i :: 0 <= i < |lines| ==> Writable(lines[i])
    ensures Fields(LinesAt(lines, start)) == WrittenFields(lines)
  {
    hide Writable, Text, ParseField, IsComment, FieldLines, ParseAll, WriteLines;
    if lines == [] {
      NothingParsed();
    } else {
      var n := |lines| - 1;
      var line := LineAt(lines[n], start + |WriteLines(lines[..n])|);
      FieldsWritten(lines[..n], start);
      WrittenText(lines[n]);
      FieldLinesSnoc(LinesAt(lines[..n], start), line);
      var before := FieldLines(LinesAt(lines[..n], start));
      if lines[n].FieldLine? {
        ParseWritten(lines[n]);
        ParseAllSnoc(before, line);
      } else {
        assert before + [] == before && WrittenFields(lines[..n]) + [] == WrittenFields(lines[..n]);
      }
    }
  }

  lemma NothingParsed()
    ensures Fields([]) == []
  {
  }

  lemma ParseAllSnoc(lines: seq<Line>, line: Line)
    ensures ParseAll(lines + [line]) == ParseAll(lines) + [ParseField(line.text)]
  {
    hide ParseField;
  }

  lemma LinesAtFirst(lines: seq<Written>, start: int)
    requires lines != []
    ensures LinesAt(lines, start)[0] == LineAt(lines[0], start)
    decreases |lines|
  {
    if |lines| > 1 { LinesAtFirst(lines[..|lines| - 1], start); } else { assert lines[..0] == []; }
  }

  /** Where the first field of written lines begins. */
  lemma {:induction false} FirstFieldAt(lines: seq<Written>, start: int)
    requires (forall i :: 0 <= i < |lines| ==> Writable(lines[i])) && lines != [] && WrittenFields(lines) != []
    ensures FieldLines(LinesAt(lines, start)) != []
    ensures FieldLines(LinesAt(lines, start))[0].start == start + Preamble(lines)
  {
    hide Writable, FieldLines, WrittenFields, Preamble, WriteLines, IsField, Write;
    var n := |lines| - 1;
    var front, last := lines[..n], lines[n];
    assert lines == front + [last];
    var line := LineAt(last, start + |WriteLines(front)|);
    FieldLinesSnoc(LinesAt(front, start), line);
    assert LinesAt(lines, start) == LinesAt(front, start) + [line];
    assert IsField(line) <==> last.FieldLine? by { FieldLineIff(last, start + |WriteLines(front)|); }
    WrittenSnoc(front, last);
    NoFieldLines(front, start);
    if WrittenFields(front) != [] {
      SomeLines(front);
      FirstFieldAt(front, start);
      PreambleStable(front, last);
    } else {
      AllComments(front, last);
    }
  }

  lemma SomeLines(lines: seq<Written>)
    requires WrittenFields(lines) != []
    ensures lines != []
  {
  }

  lemma FieldLineIff(w: Written, start: int)
    requires Writable(w)
    ensures IsField(LineAt(w, start)) <==> w.FieldLine?
  {
    hide Writable, Text, IsComment;
    WrittenText(w);
  }

  lemma WrittenSnoc(lines: seq<Written>, w: Written)
    ensures WrittenFields(lines + [w]) == WrittenFields(lines) + if w.FieldLine? then [w.field] else []
  {
    assert (lines + [w])[..|lines|] == lines;
  }

  lemma NoFieldLines(lines: seq<Written>, start: int)
    requires forall i :: 0 <= i < |lines| ==> Writable(lines[i])
    ensures |FieldLines(LinesAt(lines, start))| == |WrittenFields(lines)|
  {
    hide Writable, FieldLines, WrittenFields;
    FieldsWritten(lines, start);
  }

  lemma {:induction false} PreambleStable(lines: seq<Written>, w: Written)
    requires WrittenFields(lines) != []
    ensures Preamble(lines + [w]) == Preamble(lines)
    decreases |lines|
  {
    hide Write;
    var longer := lines + [w];
    assert longer[0] == lines[0] && longer[1..] == lines[1..] + [w];
    if lines[0].CommentLine? {
      FieldsTail(lines);
      PreambleStable(lines[1..], w);
    }
  }

  lemma {:induction false} FieldsTail(lines: seq<Written>)
    requires lines != []
    ensures WrittenFields(lines) == (if lines[0].FieldLine? then [lines[0].field] else []) + WrittenFields(lines[1..])
    decreases |lines|
  {
    var n := |lines| - 1;
    if n > 0 {
      FieldsTail(lines[..n]);
      assert lines[..n][1..] == lines[1..][..n - 1] && lines[1..][n - 1] == lines[n];
    } else {
      assert lines[..0] == [] && lines[1..] == [];
    }
  }

  lemma {:induction false} AllComments(lines: seq<Written>, w: Written)
    requires WrittenFields(lines) == [] && w.FieldLine?
    ensures Preamble(lines + [w]) == |WriteLines(lines)|
    decreases |lines|
  {
    hide Write;
    var longer := lines + [w];
    if lines != [] {
      assert longer[0] == lines[0] && longer[1..] == lines[1..] + [w];
      FieldsTail(lines);
      AllComments(lines[1..], w);
      WriteTail(lines);
    }
  }

  lemma {:induction false} WriteTail(lines: seq<Written>)
    requires lines != []
    ensures |WriteLines(lines)| == |Write(lines[0])| + |WriteLines(lines[1..])|
    decreases |lines|
  {
    hide Write;
    var n := |lines| - 1;
    if n > 0 {
      WriteTail(lines[..n]);
      assert lines[..n][1..] == lines[1..][..n - 1] && lines[1..][n - 1] == lines[n];
    } else {
      assert lines[..0] == [] && lines[1..] == [];
    }
  }

  /** The lines of a written block, with its blank line. */
  function BlockLines(b: Block, start: int): (ls: seq<Line>)
    ensures ls != []
  {
    var end := start + |WriteLines(b.lines)|;
    LinesAt(b.lines, start) + [Line([], end, end + |LineEnd(b.crlf)|)]
  }

  lemma BlockFields(b: Block, start: int)
    requires WritableBlock(b)
    ensures Fields(BlockLines(b, start)) == WrittenFields(b.lines)
    ensures |FieldLines(BlockLines(b, start))| == |WrittenFields(b.lines)|
    ensures WrittenFields(b.lines) != [] ==> FieldLines(BlockLines(b, start))[0].start == start + Preamble(b.lines)
  {
    hide Writable, Text, ParseField;
    var end := start + |WriteLines(b.lines)|;
    var blank := Line([], end, end + |LineEnd(b.crlf)|);
    FieldLinesSnoc(LinesAt(b.lines, start), blank);
    assert FieldLines(BlockLines(b, start)) == FieldLines(LinesAt(b.lines, start));
    FieldsWritten(b.lines, start);
    if WrittenFields(b.lines) != [] {
      SomeLines(b.lines);
      FirstFieldAt(b.lines, start);
    }
  }

  lemma WriteWhole(done: Bytes, b: Block, base: int)
    requires Unterminated(done) == [] && BlocksOf(done, base).rest == [] && WritableBlock(b)
    ensures var longer := done + WriteBlock(b);
            && Unterminated(longer) == []
            && BlocksOf(longer, base) == Pieces(BlocksOf(done, base).groups + [BlockLines(b, base + |done|)], [])
  {
    hide BlocksOf, Unterminated, Writable, WriteLines, LinesAt, LineEnd;
    WriteMany(done, b.lines, base);
    var middle, lines := done + WriteLines(b.lines), LinesAt(b.lines, base + |done|);
    WriteOne(middle, [], b.crlf, base);
    var blank := Line([], base + |middle|, base + |middle| + |LineEnd(b.crlf)|);
    assert done + WriteBlock(b) == middle + ([] + LineEnd(b.crlf));
    assert [] + lines == lines;
    assert BlocksOf(middle, base) == Pieces(BlocksOf(done, base).groups, lines);
    assert BlockLines(b, base + |done|) == lines + [blank];
  }

  // ----- whole streams

  /** The event at position i was read out of what was said there. */
  predicate Tells(events: seq<LogicalEvent>, said: seq<Said>, i: nat)
    requires i < |events| && i < |said|
  {
    events[i].content == Interpret(i + 1, said[i].offset, said[i].fields)
  }

  ghost predicate TellsAll(events: seq<LogicalEvent>, said: seq<Said>)
  {
    |events| == |said| && forall i :: 0 <= i < |said| ==> Tells(events, said, i)
  }

  lemma NothingWritten(base: int, chunks: seq<Bytes>)
    ensures Unterminated([]) == [] && BlocksOf([], base) == Pieces([], []) && Events([], base, chunks) == []
  {
    assert Lines([], base) == [];
  }

  lemma TellsSnoc(events: seq<LogicalEvent>, said: seq<Said>, event: LogicalEvent, s: Said)
    requires TellsAll(events, said) && event.content == Interpret(|events| + 1, s.offset, s.fields)
    ensures TellsAll(events + [event], said + [s])
  {
    hide Interpret;
    var longer, more := events + [event], said + [s];
    forall i | 0 <= i < |more| ensures Tells(longer, more, i) {
      if i < |said| { assert Tells(events, said, i); }
    }
  }

  /** The one-pass reading of a written stream is what was written. */
  lemma {:induction false} ReadingIsWriting(blocks: seq<Block>, base: int, chunks: seq<Bytes>)
    requires WritableStream(blocks)
    ensures var bytes := WriteStream(blocks);
            && Unterminated(bytes) == [] && BlocksOf(bytes, base).rest == []
            && TellsAll(Events(bytes, base, chunks), Says(blocks, base))
  {
    hide BlocksOf, Unterminated, WritableBlock, Events, TellsAll, WriteBlock, WrittenFields, Preamble, WriteStream, Says;
    Unfold(blocks, base);
    if blocks == [] {
      NothingWritten(base, chunks);
      assert TellsAll([], []) by { NothingTold(); }
    } else {
      var n := |blocks| - 1;
      var b, done := blocks[n], WriteStream(blocks[..n]);
      ReadingIsWriting(blocks[..n], base, chunks);
      WriteWhole(done, b, base);
      TellsOne(done, b, base, chunks, Says(blocks[..n], base));
    }
  }

  lemma TellsOne(done: Bytes, b: Block, base: int, chunks: seq<Bytes>, said: seq<Said>)
    requires Unterminated(done) == [] && BlocksOf(done, base).rest == [] && WritableBlock(b)
    requires TellsAll(Events(done, base, chunks), said)
    ensures var fields := WrittenFields(b.lines);
            TellsAll(Events(done + WriteBlock(b), base, chunks),
                     said + if fields == [] then [] else [Said(fields, base + |done| + Preamble(b.lines))])
  {
    hide BlocksOf, Unterminated, WritableBlock, Events, TellsAll, WriteBlock, WrittenFields, EventAfter, Preamble, Interpret;
    EventsAfter(done, b, base, chunks);
    if WrittenFields(b.lines) != [] {
      EventAfterSays(done, b, base, chunks);
      assert |Events(done, base, chunks)| == |said| by { ToldLength(Events(done, base, chunks), said); }
      TellsSnoc(Events(done, base, chunks), said, EventAfter(done, b, base, chunks),
                Said(WrittenFields(b.lines), base + |done| + Preamble(b.lines)));
    } else {
      assert said + [] == said && Events(done, base, chunks) + [] == Events(done, base, chunks);
    }
  }

  lemma ToldLength(events: seq<LogicalEvent>, said: seq<Said>)
    requires TellsAll(events, said)
    ensures |events| == |said|
  {
  }

  lemma Unfold(blocks: seq<Block>, base: int)
    ensures blocks == [] ==> WriteStream(blocks) == [] && Says(blocks, base) == []
    ensures blocks != [] ==>
              var n := |blocks| - 1;
              var fields, done := WrittenFields(blocks[n].lines), WriteStream(blocks[..n]);
              && WriteStream(blocks) == done + WriteBlock(blocks[n])
              && Says(blocks, base) ==
                 Says(blocks[..n], base) + if fields == [] then [] else [Said(fields, base + |done| + Preamble(blocks[n].lines))]
  {
    hide WriteBlock, WrittenFields, Preamble;
  }

  lemma NothingTold()
    ensures TellsAll([], [])
  {
  }

  function EventAfter(done: Bytes, b: Block, base: int, chunks: seq<Bytes>): LogicalEvent
  {
    LogicalEvent(Interpret(|Events(done, base, chunks)| + 1, base + |done| + Preamble(b.lines), WrittenFields(b.lines)),
                 BlockChunks(BlockLines(b, base + |done|), base, chunks))
  }

  lemma EventAfterSays(done: Bytes, b: Block, base: int, chunks: seq<Bytes>)
    ensures EventAfter(done, b, base, chunks).content ==
            Interpret(|Events(done, base, chunks)| + 1, base + |done| + Preamble(b.lines), WrittenFields(b.lines))
  {
    hide Events, Interpret, Preamble, WrittenFields, BlockChunks, BlockLines;
  }

  lemma EventsAfter(done: Bytes, b: Block, base: int, chunks: seq<Bytes>)
    requires Unterminated(done) == [] && BlocksOf(done, base).rest == [] && WritableBlock(b)
    ensures Events(done + WriteBlock(b), base, chunks) ==
            Events(done, base, chunks) + if WrittenFields(b.lines) == [] then [] else [EventAfter(done, b, base, chunks)]
  {
    hide BlocksOf, Unterminated, WritableBlock, EventsOf, Interpret, WriteBlock, WrittenFields, Fields, FieldLines, BlockLines, BlockChunks, Preamble;
    WriteWhole(done, b, base);
    BlockFields(b, base + |done|);
    EventsOfSnoc(BlocksOf(done, base).groups, BlockLines(b, base + |done|), base, chunks);
    assert Events(done, base, chunks) + [] == Events(done, base, chunks);
  }

  ghost predicate FewFields(blocks: seq<Block>)
  {
    forall i :: 0 <= i < |blocks| ==> |WrittenFields(blocks[i].lines)| <= 1024
  }

  lemma {:induction false} LimitIsFewFields(blocks: seq<Block>, base: int)
    requires WritableStream(blocks)
    ensures WithinFieldLimit(WriteStream(blocks), base) <==> FewFields(blocks)
  {
    hide BlocksOf, Unterminated, WritableBlock, WriteBlock, WrittenFields, WithinLimit, BlockLines, FewFields, FieldLines;
    if blocks == [] {
      NothingWritten(base, []);
      NoLimit();
    } else {
      var n := |blocks| - 1;
      var b, done := blocks[n], WriteStream(blocks[..n]);
      ReadingIsWriting(blocks[..n], base, []);
      LimitIsFewFields(blocks[..n], base);
      WriteWhole(done, b, base);
      BlockFields(b, base + |done|);
      LimitSnoc(BlocksOf(done, base).groups, BlockLines(b, base + |done|));
      assert BlocksOf(done, base) == Pieces(BlocksOf(done, base).groups, []);
      FewFieldsSnoc(blocks);
    }
  }

  lemma NoLimit()
    ensures WithinLimit(Pieces([], [])) && FewFields([])
  {
  }

  lemma FewFieldsSnoc(blocks: seq<Block>)
    requires blocks != []
    ensures var n := |blocks| - 1;
            FewFields(blocks) <==> FewFields(blocks[..n]) && |WrittenFields(blocks[n].lines)| <= 1024
  {
    hide WrittenFields;
    var n := |blocks| - 1;
    if FewFields(blocks) {
      assert forall i :: 0 <= i < n ==> blocks[..n][i] == blocks[i];
    } else {
      var i :| 0 <= i < |blocks| && |WrittenFields(blocks[i].lines)| > 1024;
      assert i < n ==> blocks[..n][i] == blocks[i];
    }
  }

  lemma LimitSnoc(groups: seq<seq<Line>>, block: seq<Line>)
    ensures WithinLimit(Pieces(groups + [block], [])) <==> WithinLimit(Pieces(groups, [])) && |FieldLines(block)| <= 1024
  {
    hide FieldLines;
    var longer := groups + [block];
    assert longer[|groups|] == block && forall i :: 0 <= i < |groups| ==> longer[i] == groups[i];
    if WithinLimit(Pieces(longer, [])) {
      assert BlockWithinLimit(longer[|groups|]);
      forall i | 0 <= i < |groups| ensures BlockWithinLimit(groups[i]) { assert BlockWithinLimit(longer[i]); }
    }
  }

  // ----- what an event's fields mean

  function Ascii(s: string): (b: Bytes)
    requires forall i :: 0 <= i < |s| ==> s[i] as int < 128
    ensures |b| == |s|
  {
    seq(|s|, i requires 0 <= i < |s| => s[i] as int)
  }

  /** The values of the fields with a given name, in order. */
  function Named(fields: seq<Field>, name: Bytes): seq<Bytes>
  {
    if fields == [] then []
    else if fields[0].name == name then [fields[0].value] + Named(fields[1..], name)
    else Named(fields[1..], name)
  }

  lemma KindsByName(name: Bytes)
    ensures KindOf(name) == EventField <==> name == Ascii("event")
    ensures KindOf(name) == DataField <==> name == Ascii("data")
    ensures KindOf(name) == IdField <==> name == Ascii("id")
    ensures KindOf(name) == RetryField <==> name == Ascii("retry")
  {
    assert Ascii("event") == [101, 118, 101, 110, 116];
    assert Ascii("data") == [100, 97, 116, 97];
    assert Ascii("id") == [105, 100];
    assert Ascii("retry") == [114, 101, 116, 114, 121];
  }

  lemma {:induction false} NamedSnoc(fields: seq<Field>, field: Field, name: Bytes)
    ensures Named(fields + [field], name) == Named(fields, name) + if field.name == name then [field.value] else []
  {
    var longer := fields + [field];
    if fields != [] {
      assert longer[0] == fields[0] && longer[1..] == fields[1..] + [field];
      NamedSnoc(fields[1..], field, name);
    } else {
      assert longer[1..] == [];
    }
  }

  lemma {:induction false} ValuesAreNamed(fields: seq<Field>)
    ensures Values(fields, EventField) == Named(fields, Ascii("event"))
    ensures Values(fields, DataField) == Named(fields, Ascii("data"))
    ensures Values(fields, IdField) == Named(fields, Ascii("id"))
    ensures Values(fields, RetryField) == Named(fields, Ascii("retry"))
  {
    hide KindOf, Ascii, Named;
    if fields == [] {
      NoneNamed(Ascii("event"));
      NoneNamed(Ascii("data"));
      NoneNamed(Ascii("id"));
      NoneNamed(Ascii("retry"));
    } else {
      var n := |fields| - 1;
      assert fields == fields[..n] + [fields[n]];
      ValuesAreNamed(fields[..n]);
      KindsByName(fields[n].name);
      NamedSnoc(fields[..n], fields[n], Ascii("event"));
      NamedSnoc(fields[..n], fields[n], Ascii("data"));
      NamedSnoc(fields[..n], fields[n], Ascii("id"));
      NamedSnoc(fields[..n], fields[n], Ascii("retry"));
    }
  }

  lemma NoneNamed(name: Bytes)
    ensures Named([], name) == []
  {
  }

  /** A text cut at every LF, which it drops. */
  function SplitLines(text: Bytes): seq<Bytes>
  {
    if LF !in text then [text]
    else
      var i := IndexOf(text, LF);
      [text[..i]] + SplitLines(text[i + 1..])
  }

  lemma FirstLine(line: Bytes, rest: Bytes)
    requires LF !in line
    ensures SplitLines(line + [LF] + rest) == [line] + SplitLines(rest)
  {
    hide IndexOf;
    var text := line + [LF] + rest;
    var i := IndexOf(text, LF);
    assert text[|line|] == LF && LF in text;
    assert forall j :: 0 <= j < |line| ==> text[j] == line[j] && line[j] in line;
    assert forall j :: 0 <= j < i ==> text[j] == text[..i][j] && text[..i][j] in text[..i];
    assert i == |line| && text[..i] == line && text[i + 1..] == rest;
  }

  lemma {:induction false} JoinFirst(values: seq<Bytes>)
    requires |values| > 1
    ensures Join(values) == values[0] + [LF] + Join(values[1..])
  {
    var n := |values| - 1;
    if n == 1 {
      assert values[..1] == [values[0]] && values[1..] == [values[1]];
    } else {
      JoinFirst(values[..n]);
      var rest := values[1..];
      assert rest[..n - 1] == values[..n][1..] && rest[n - 1] == values[n];
      assert Join(values) == (values[0] + [LF] + Join(values[..n][1..])) + [LF] + values[n];
      assert Join(rest) == Join(rest[..n - 1]) + [LF] + values[n];
    }
  }

  /** Joined values are recovered by cutting at LF. */
  lemma {:induction false} SplitJoin(values: seq<Bytes>)
    requires values != [] && forall i :: 0 <= i < |values| ==> LF !in values[i]
    ensures SplitLines(Join(values)) == values
  {
    hide SplitLines, Join;
    if |values| == 1 {
      assert Join(values) == values[0] by { JoinOne(values); }
      SplitOne(values[0]);
    } else {
      JoinFirst(values);
      FirstLine(values[0], Join(values[1..]));
      SplitJoin(values[1..]);
    }
  }

  lemma JoinOne(values: seq<Bytes>)
    requires |values| == 1
    ensures Join(values) == values[0]
  {
  }

  lemma SplitOne(line: Bytes)
    requires LF !in line
    ensures SplitLines(line) == [line]
  {
  }

  /** The decimal numeral of a number, as bytes. */
  function Numeral(n: nat): Bytes
  {
    if n < 10 then [48 + n] else Numeral(n / 10) + [48 + n % 10]
  }

  function Zeros(k: nat): Bytes { seq(k, _ => 48) }

  /** A text for a nonnegative 64-bit number: any sign that does not make it negative, leading zeros, the numeral. */
  ghost predicate Millis(text: Bytes, n: nat)
  {
    n < 0x8000_0000_0000_0000 && exists k: nat :: SignedText(text, Zeros(k) + Numeral(n), n)
  }

  predicate SignedText(text: Bytes, digits: Bytes, n: nat)
  {
    text == digits || text == [43] + digits || (n == 0 && text == [45] + digits)
  }

  predicate AllDigits(text: Bytes) { forall i :: 0 <= i < |text| ==> IsDigit(text[i]) }

  lemma ValueSnoc(digits: Bytes, d: Byte)
    requires AllDigits(digits) && IsDigit(d)
    ensures AllDigits(digits + [d]) && DecimalValue(digits + [d]) == 10 * DecimalValue(digits) + (d - 48)
  {
    var longer := digits + [d];
    assert forall i :: 0 <= i < |longer| ==> IsDigit(longer[i]);
    assert longer[..|digits|] == digits && longer[|digits|] == d;
  }

  /** Every digit string is a padded numeral of its value. */
  lemma {:induction false} DigitsArePadded(digits: Bytes) returns (k: nat)
    requires AllDigits(digits) && digits != []
    ensures digits == Zeros(k) + Numeral(DecimalValue(digits))
  {
    hide DecimalValue, Numeral;
    var n := |digits| - 1;
    var front, last := digits[..n], digits[n];
    assert digits == front + [last];
    ValueSnoc(front, last);
    if n == 0 {
      assert DecimalValue([]) == 0 && Numeral(last - 48) == [last] by { OneDigit(last); }
      k := 0;
      assert Zeros(0) == [];
    } else {
      var v := DecimalValue(front);
      k := DigitsArePadded(front);
      NumeralSnoc(v, last);
      if v == 0 {
        assert front == Zeros(k) + [48] == Zeros(k + 1);
        k := k + 1;
      }
    }
  }

  lemma OneDigit(d: Byte)
    requires IsDigit(d)
    ensures DecimalValue([]) == 0 && Numeral(d - 48) == [d]
  {
  }

  lemma NumeralSnoc(v: nat, d: Byte)
    requires IsDigit(d)
    ensures Numeral(10 * v + (d - 48)) == (if v == 0 then [] else Numeral(v)) + [d]
    ensures Numeral(0) == [48]
  {
    if v > 0 { assert (10 * v + (d - 48)) / 10 == v && (10 * v + (d - 48)) % 10 == d - 48; }
  }

  lemma {:induction false} NumeralValue(n: nat)
    ensures AllDigits(Numeral(n)) && DecimalValue(Numeral(n)) == n && Numeral(n) != []
    decreases n
  {
    if n < 10 {
      assert Numeral(n) == [] + [48 + n];
      ValueSnoc([], 48 + n);
    } else {
      NumeralValue(n / 10);
      ValueSnoc(Numeral(n / 10), 48 + n % 10);
    }
  }

  lemma {:induction false} PaddedValue(k: nat, n: nat)
    ensures AllDigits(Zeros(k) + Numeral(n)) && DecimalValue(Zeros(k) + Numeral(n)) == n && Zeros(k) + Numeral(n) != []
    decreases n
  {
    if n < 10 {
      ZerosValue(k);
      ValueSnoc(Zeros(k), 48 + n);
    } else {
      PaddedValue(k, n / 10);
      ValueSnoc(Zeros(k) + Numeral(n / 10), 48 + n % 10);
      assert Zeros(k) + Numeral(n) == (Zeros(k) + Numeral(n / 10)) + [48 + n % 10];
    }
  }

  lemma {:induction false} ZerosValue(k: nat)
    ensures AllDigits(Zeros(k)) && DecimalValue(Zeros(k)) == 0
  {
    if k > 0 {
      ZerosValue(k - 1);
      ValueSnoc(Zeros(k - 1), 48);
      assert Zeros(k) == Zeros(k - 1) + [48];
    } else {
      assert Zeros(0) == [];
    }
  }

  lemma DigitsOnly(digits: Bytes)
    ensures AllDigits(digits) <==> !exists b :: b in digits && !IsDigit(b)
  {
    if AllDigits(digits) {
      assert forall b :: b in digits ==> exists i :: 0 <= i < |digits| && digits[i] == b;
    }
  }

  lemma RetryIsMillis(text: Bytes)
    ensures RetryValue(text).Some? ==> RetryValue(text).value >= 0 && Millis(text, RetryValue(text).value)
  {
    hide DecimalValue, Numeral;
    var digits := if text != [] && (text[0] == 43 || text[0] == 45) then text[1..] else text;
    DigitsOnly(digits);
    if RetryValue(text).Some? {
      var n := RetryValue(text).value;
      assert n == DecimalValue(digits);
      var k := DigitsArePadded(digits);
      assert SignedText(text, Zeros(k) + Numeral(n), n) by {
        if text != digits { assert text == [text[0]] + digits; }
      }
    }
  }

  lemma MillisIsRetry(text: Bytes, n: nat)
    requires Millis(text, n)
    ensures RetryValue(text) == Some(n)
  {
    hide DecimalValue, Numeral;
    var k: nat :| SignedText(text, Zeros(k) + Numeral(n), n);
    var digits := Zeros(k) + Numeral(n);
    PaddedValue(k, n);
    DigitsOnly(digits);
    assert IsDigit(digits[0]);
    if text == digits {
      assert text[0] != 43 && text[0] != 45;
    } else {
      assert text[1..] == digits;
    }
  }

  /** The last value, or nothing. */
  predicate LastValue(values: seq<Bytes>, value: Bytes)
  {
    if values == [] then value == [] else value == values[|values| - 1]
  }

  /** The last value without a NUL, or nothing. */
  ghost predicate LastClean(values: seq<Bytes>, id: Bytes)
  {
    || (id == [] && forall i :: 0 <= i < |values| ==> NUL in values[i])
    || exists i :: 0 <= i < |values| && values[i] == id && NUL !in id && forall j :: i < j < |values| ==> NUL in values[j]
  }

  ghost predicate IsNumber(text: Bytes) { exists n: nat :: Millis(text, n) }

  /** The number in the last value that is one. */
  ghost predicate LastNumber(values: seq<Bytes>, retry: Option<int>)
  {
    match retry
    case None => forall i :: 0 <= i < |values| ==> !IsNumber(values[i])
    case Some(n) =>
      n >= 0 && exists i :: 0 <= i < |values| && Millis(values[i], n) && forall j :: i < j < |values| ==> !IsNumber(values[j])
  }

  /** What is wrong with one field. */
  ghost function Complaint(f: Field): seq<Issue>
  {
    if f.name == Ascii("id") && NUL in f.value then [IdContainsNul]
    else if f.name == Ascii("retry") && !IsNumber(f.value) then [InvalidRetry]
    else []
  }

  ghost function Complaints(fields: seq<Field>): seq<Issue>
  {
    if fields == [] then [] else Complaint(fields[0]) + Complaints(fields[1..])
  }

  /** An event says what its fields say. */
  ghost predicate Means(c: Content, fields: seq<Field>)
  {
    && c.fields == fields
    && (if Named(fields, Ascii("data")) == [] then c.data == [] else SplitLines(c.data) == Named(fields, Ascii("data")))
    && LastValue(Named(fields, Ascii("event")), c.event)
    && LastClean(Named(fields, Ascii("id")), c.id)
    && LastNumber(Named(fields, Ascii("retry")), c.retryMillis)
    && c.issues == Complaints(fields)
  }

  lemma {:induction false} CleanIdsLast(values: seq<Bytes>)
    ensures LastClean(values, LastOr(CleanIds(values), []))
  {
    hide LastClean;
    if values == [] {
      assert LastClean([], []) by { NothingClean(); }
    } else {
      var n := |values| - 1;
      CleanIdsLast(values[..n]);
      LastCleanSnoc(values[..n], values[n], LastOr(CleanIds(values[..n]), []));
      assert values[..n] + [values[n]] == values;
    }
  }

  lemma NothingClean()
    ensures LastClean([], [])
  {
  }

  lemma LastCleanSnoc(values: seq<Bytes>, value: Bytes, id: Bytes)
    requires LastClean(values, id)
    ensures LastClean(values + [value], if NUL in value then id else value)
  {
    var longer := values + [value];
    if NUL !in value {
      assert longer[|values|] == value;
    } else if i :| 0 <= i < |values| && values[i] == id && NUL !in id && forall j :: i < j < |values| ==> NUL in values[j] {
      assert longer[i] == id;
    }
  }

  lemma NumberIff(text: Bytes)
    ensures IsNumber(text) <==> RetryValue(text).Some?
    ensures forall n: nat :: Millis(text, n) <==> RetryValue(text) == Some(n)
  {
    hide RetryValue, Millis;
    RetryIsMillis(text);
    forall n: nat | Millis(text, n) ensures RetryValue(text) == Some(n) { MillisIsRetry(text, n); }
  }

  lemma {:induction false} LastRetryNumber(values: seq<Bytes>)
    ensures LastNumber(values, LastRetry(values))
  {
    hide RetryValue, Millis, IsNumber;
    if values != [] {
      var n := |values| - 1;
      LastRetryNumber(values[..n]);
      NumberIff(values[n]);
      RetryIsMillis(values[n]);
      if RetryValue(values[n]).None? {
        assert forall i :: 0 <= i < n ==> values[i] == values[..n][i];
        if LastRetry(values).Some? {
          var v := LastRetry(values).value;
          var i :| 0 <= i < n && Millis(values[..n][i], v) && forall j :: i < j < n ==> !IsNumber(values[..n][j]);
          assert Millis(values[i], v);
        }
      }
    }
  }

  lemma {:induction false} ComplaintsSnoc(fields: seq<Field>, f: Field)
    ensures Complaints(fields + [f]) == Complaints(fields) + Complaint(f)
  {
    hide Complaint;
    var longer := fields + [f];
    if fields == [] {
      assert longer[1..] == [] && Complaint(f) + [] == Complaint(f);
    } else {
      assert longer[0] == fields[0] && longer[1..] == fields[1..] + [f];
      ComplaintsSnoc(fields[1..], f);
    }
  }

  lemma {:induction false} IssuesAreComplaints(fields: seq<Field>)
    ensures Issues(fields) == Complaints(fields)
  {
    hide RetryValue, KindOf, Ascii, IsNumber;
    if fields != [] {
      var n := |fields| - 1;
      IssuesAreComplaints(fields[..n]);
      assert fields == fields[..n] + [fields[n]];
      ComplaintsSnoc(fields[..n], fields[n]);
      KindsByName(fields[n].name);
      NumberIff(fields[n].value);
    }
  }

  lemma {:induction false} NamedPlain(fields: seq<Field>, name: Bytes)
    requires forall i :: 0 <= i < |fields| ==> LF !in fields[i].value
    ensures forall i :: 0 <= i < |Named(fields, name)| ==> LF !in Named(fields, name)[i]
  {
    if fields != [] { NamedPlain(fields[1..], name); }
  }

  /** The event read out of LF-free fields means what they say. */
  lemma InterpretMeans(sequence: nat, offset: int, fields: seq<Field>)
    requires forall i :: 0 <= i < |fields| ==> LF !in fields[i].value
    ensures Means(Interpret(sequence, offset, fields), fields)
  {
    hide LastClean, LastNumber, Complaints, Named, Values, CleanIds, LastRetry, Issues, Join, SplitLines, Ascii;
    ValuesAreNamed(fields);
    var data := Named(fields, Ascii("data"));
    NamedPlain(fields, Ascii("data"));
    if data != [] { SplitJoin(data); } else { assert Join([]) == [] by { JoinNone(); } }
    CleanIdsLast(Values(fields, IdField));
    LastRetryNumber(Values(fields, RetryField));
    IssuesAreComplaints(fields);
  }

  lemma JoinNone()
    ensures Join([]) == []
  {
  }

  // ----- reading is the inverse of writing

  /** One event for everything said, numbered from 1, at its offset and meaning what was said. */
  ghost predicate Delivers(events: seq<LogicalEvent>, said: seq<Said>)
  {
    |events| == |said| && forall i :: 0 <= i < |said| ==> DeliversAt(events[i].content, said[i], i)
  }

  ghost predicate DeliversAt(c: Content, s: Said, i: nat)
  {
    c.sequence == i + 1 && c.offset == s.offset && Means(c, s.fields)
  }

  ghost predicate LineFree(fields: seq<Field>)
  {
    forall i :: 0 <= i < |fields| ==> LF !in fields[i].value
  }

  lemma {:induction false} WrittenLineFree(lines: seq<Written>)
    requires forall i :: 0 <= i < |lines| ==> Writable(lines[i])
    ensures LineFree(WrittenFields(lines))
  {
    if lines != [] { WrittenLineFree(lines[..|lines| - 1]); }
  }

  lemma {:induction false} SaysLineFree(blocks: seq<Block>, base: int)
    requires WritableStream(blocks)
    ensures forall i :: 0 <= i < |Says(blocks, base)| ==> LineFree(Says(blocks, base)[i].fields)
  {
    hide WrittenFields, Writable, LineFree, WriteStream;
    if blocks != [] {
      var n := |blocks| - 1;
      SaysLineFree(blocks[..n], base);
      assert WritableBlock(blocks[n]);
      WrittenLineFree(blocks[n].lines);
    }
  }

  lemma ToldIsDelivered(events: seq<LogicalEvent>, said: seq<Said>)
    requires TellsAll(events, said) && forall i :: 0 <= i < |said| ==> LineFree(said[i].fields)
    ensures Delivers(events, said)
  {
    hide Means, LineFree;
    forall i | 0 <= i < |said| ensures DeliversAt(events[i].content, said[i], i) {
      assert Tells(events, said, i);
      DeliveredOne(i, said[i]);
    }
  }

  lemma DeliveredOne(i: nat, s: Said)
    requires LineFree(s.fields)
    ensures DeliversAt(Interpret(i + 1, s.offset, s.fields), s, i)
  {
    InterpretMeans(i + 1, s.offset, s.fields);
  }

  /**
   Reading is the inverse of writing: however a written stream of whatever length reaches the
   assembler, if it is accepted one event is delivered for every block with a field, with exactly
   the written fields, their meaning and their offset, in order, and nothing is left over.  A stream
   within the buffer limit is accepted exactly when no block holds more than 1024 fields.
   */
  lemma WritingIsRead(limit: int, base: nat, chunks: seq<Bytes>, blocks: seq<Block>)
    requires forall i :: 0 <= i < |chunks| ==> chunks[i] != []
    requires WritableStream(blocks) && Flatten(chunks) == WriteStream(blocks)
    ensures |WriteStream(blocks)| <= (if limit <= 0 then 1024 * 1024 else limit) ==>
              (FeedAll(limit, base, chunks).Ok? <==> FewFields(blocks))
    ensures FeedAll(limit, base, chunks).Ok? ==>
              && FewFields(blocks) && Delivers(FeedAll(limit, base, chunks).value.events, Says(blocks, base))
              && SseAssembler.FinishTail(FeedAll(limit, base, chunks).value.state).bufferedBytes == 0
  {
    hide BlocksOf, Unterminated, WritableStream, FeedAll, TellsAll, Delivers, LineFree, WithinFieldLimit, Ready, Says, WriteStream, FieldLines;
    hide AllFit, FirstRefused;
    FeedAllIsReading(limit, base, chunks);
    LimitIsFewFields(blocks, base);
    if |WriteStream(blocks)| <= (if limit <= 0 then 1024 * 1024 else limit) { BoundedIsReading(limit, base, chunks); }
    if FeedAll(limit, base, chunks).Ok? {
      WholeFits(SseAssembler.Initial(limit).maxBufferBytes, base, chunks);
      ReadingIsWriting(blocks, base, chunks);
      FinishReportsTheTail(limit, base, chunks);
      SaysLineFree(blocks, base);
      ToldIsDelivered(FeedAll(limit, base, chunks).value.events, Says(blocks, base));
    }
  }
}
