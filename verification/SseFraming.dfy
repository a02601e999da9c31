/**
 The event-stream format as a description of a whole byte string: cut the
 bytes after every LF, cut the resulting lines after every blank one, and read
 one event out of every block that holds a field.  Nothing here mentions read
 chunks except the provenance list of an event.
 */
module SseFraming {
  import opened Common

  const LF: Byte := 10
  const CR: Byte := 13
  const SPACE: Byte := 32
  const COLON: Byte := 58
  const NUL: Byte := 0
  const MAX_FIELDS_PER_EVENT := 1024

  /** The field names the format gives a meaning to. */
  datatype FieldKind = EventField | DataField | IdField | RetryField | OtherField

  /** ASCII "event", "data", "id", "retry". */
  function KindOf(name: Bytes): FieldKind
  {
    if name == [101, 118, 101, 110, 116] then EventField
    else if name == [100, 97, 116, 97] then DataField
    else if name == [105, 100] then IdField
    else if name == [114, 101, 116, 114, 121] then RetryField
    else OtherField
  }

  datatype Field = Field(name: Bytes, value: Bytes)

  datatype Issue = IdContainsNul | InvalidRetry

  /** What one logical event says, apart from the chunks that carried it. */
  datatype Content = Content(
    sequence: nat,
    offset: int,
    event: Bytes,
    data: Bytes,
    id: Bytes,
    retryMillis: Option<int>,
    fields: seq<Field>,
    issues: seq<Issue>)

  datatype LogicalEvent = LogicalEvent(content: Content, chunks: seq<nat>)

  // ----- cutting a sequence after every separator

  datatype Pieces<T> = Pieces(groups: seq<seq<T>>, rest: seq<T>)

  /** Every group ends with its separator; the rest holds none. */
  function Cut<T>(s: seq<T>, separator: T -> bool): (p: Pieces<T>)
    ensures forall i :: 0 <= i < |p.groups| ==> p.groups[i] != []
  {
    if s == [] then Pieces([], [])
    else
      var n := |s| - 1;
      var p := Cut(s[..n], separator);
      if separator(s[n]) then Pieces(p.groups + [p.rest + [s[n]]], [])
      else Pieces(p.groups, p.rest + [s[n]])
  }

  /** Cutting loses nothing, and cuts wherever there is a separator. */
  lemma {:induction false} CutIsLossless<T>(s: seq<T>, separator: T -> bool)
    ensures var p := Cut(s, separator);
            Flatten(p.groups) + p.rest == s && forall i :: 0 <= i < |p.rest| ==> !separator(p.rest[i])
  {
    hide Flatten;
    if s == [] {
      assert Flatten<T>([]) == [] by { NothingFlattened<T>(); }
    } else {
      var n := |s| - 1;
      CutIsLossless(s[..n], separator);
      var p := Cut(s[..n], separator);
      assert Flatten(p.groups) + (p.rest + [s[n]]) == s;
      if separator(s[n]) {
        FlattenSnoc(p.groups, p.rest + [s[n]]);
        assert Cut(s, separator) == Pieces(p.groups + [p.rest + [s[n]]], []);
      } else {
        assert Cut(s, separator) == Pieces(p.groups, p.rest + [s[n]]);
      }
    }
  }

  lemma NothingFlattened<T>()
    ensures Flatten<T>([]) == []
  {
  }

  lemma CutSnoc<T>(s: seq<T>, x: T, separator: T -> bool)
    ensures Cut(s + [x], separator) ==
            var p := Cut(s, separator);
            if separator(x) then Pieces(p.groups + [p.rest + [x]], []) else Pieces(p.groups, p.rest + [x])
  {
    assert (s + [x])[..|s|] == s;
  }

  /** Text without separators only lengthens the rest. */
  lemma {:induction false} CutPlain<T>(s: seq<T>, plain: seq<T>, separator: T -> bool)
    requires forall i :: 0 <= i < |plain| ==> !separator(plain[i])
    ensures Cut(s + plain, separator) ==
            Pieces(Cut(s, separator).groups, Cut(s, separator).rest + plain)
  {
    hide Cut;
    var p := Cut(s, separator);
    if plain == [] {
      assert s + plain == s && p.rest + plain == p.rest;
    } else {
      var n := |plain| - 1;
      assert plain == plain[..n] + [plain[n]];
      CutPlain(s, plain[..n], separator);
      CutSnoc(s + plain[..n], plain[n], separator);
      assert s + plain == (s + plain[..n]) + [plain[n]];
      assert p.rest + plain == (p.rest + plain[..n]) + [plain[n]];
    }
  }

  // ----- lines

  /** A completed line: its text without LF and one trailing CR, and the
      offsets of its first byte and of the byte after its LF. */
  datatype Line = Line(text: Bytes, start: int, end: int)

  predicate IsLF(b: Byte) { b == LF }

  function StripCR(text: Bytes): (t: Bytes)
    ensures t == text || t + [CR] == text
  {
    if text != [] && text[|text| - 1] == CR then text[..|text| - 1] else text
  }

  function LinesOf(groups: seq<Bytes>, base: int): (ls: seq<Line>)
    requires forall i :: 0 <= i < |groups| ==> groups[i] != []
    ensures |ls| == |groups|
  {
    if groups == [] then []
    else
      var n := |groups| - 1;
      var before := LinesOf(groups[..n], base);
      var start := base + |Flatten(groups[..n])|;
      before + [Line(StripCR(groups[n][..|groups[n]| - 1]), start, start + |groups[n]|)]
  }

  /** The completed lines of a byte string that begins at offset `base`. */
  function Lines(bytes: Bytes, base: int): seq<Line>
  {
    LinesOf(Cut(bytes, IsLF).groups, base)
  }

  function Unterminated(bytes: Bytes): Bytes
  {
    Cut(bytes, IsLF).rest
  }

  // ----- fields

  predicate IsComment(text: Bytes) { text != [] && text[0] == COLON }

  function IndexOf(text: Bytes, b: Byte): (i: int)
    ensures i == -1 <==> b !in text
    ensures i != -1 ==> 0 <= i < |text| && text[i] == b && b !in text[..i]
  {
    if text == [] then -1
    else if text[0] == b then 0
    else
      var i := IndexOf(text[1..], b);
      if i == -1 then assert b !in text[1..] && text == [text[0]] + text[1..]; -1
      else assert text[..i + 1] == [text[0]] + text[1..][..i]; i + 1
  }

  function ParseField(text: Bytes): Field
  {
    var i := IndexOf(text, COLON);
    if i == -1 then Field(text, [])
    else
      var value := text[i + 1..];
      Field(text[..i], if value != [] && value[0] == SPACE then value[1..] else value)
  }

  predicate IsField(line: Line) { line.text != [] && !IsComment(line.text) }

  function FieldLines(block: seq<Line>): (fl: seq<Line>)
  {
    if block == [] then []
    else
      var n := |block| - 1;
      FieldLines(block[..n]) + if IsField(block[n]) then [block[n]] else []
  }

  function ParseAll(lines: seq<Line>): (fs: seq<Field>)
    ensures |fs| == |lines|
  {
    seq(|lines|, i requires 0 <= i < |lines| => ParseField(lines[i].text))
  }

  function Fields(block: seq<Line>): seq<Field>
  {
    ParseAll(FieldLines(block))
  }

  // ----- reading an event out of its fields

  function Values(fields: seq<Field>, kind: FieldKind): seq<Bytes>
  {
    if fields == [] then []
    else
      var n := |fields| - 1;
      Values(fields[..n], kind) + if KindOf(fields[n].name) == kind then [fields[n].value] else []
  }

  function LastOr(values: seq<Bytes>, default: Bytes): Bytes
  {
    if values == [] then default else values[|values| - 1]
  }

  function Join(values: seq<Bytes>): Bytes
  {
    if values == [] then []
    else if |values| == 1 then values[0]
    else Join(values[..|values| - 1]) + [LF] + values[|values| - 1]
  }

  /** The NUL-free values, in order. */
  function CleanIds(values: seq<Bytes>): seq<Bytes>
  {
    if values == [] then []
    else
      var n := |values| - 1;
      CleanIds(values[..n]) + if NUL in values[n] then [] else [values[n]]
  }

  predicate IsDigit(b: Byte) { 48 <= b <= 57 }

  function DecimalValue(digits: Bytes): (v: nat)
    requires forall b :: b in digits ==> IsDigit(b)
  {
    if digits == [] then 0
    else
      var last := digits[|digits| - 1];
      assert IsDigit(last);
      10 * DecimalValue(digits[..|digits| - 1]) + (last as int - 48)
  }

  /** Base-10 signed 64-bit parsing: optional sign, at least one digit, in range. */
  function ParseInt64(text: Bytes): Option<int>
  {
    var negative := text != [] && text[0] == 45;
    var digits := if text != [] && (text[0] == 43 || text[0] == 45) then text[1..] else text;
    if digits == [] || exists b :: b in digits && !IsDigit(b) then None
    else
      var magnitude: int := DecimalValue(digits);
      if negative then (if magnitude <= 0x8000_0000_0000_0000 then Some(-magnitude) else None)
      else (if magnitude < 0x8000_0000_0000_0000 then Some(magnitude) else None)
  }

  function RetryValue(text: Bytes): Option<int>
  {
    match ParseInt64(text)
    case None => None
    case Some(v) => if v < 0 then None else Some(v)
  }

  /** The last retry value that is a nonnegative integer. */
  function LastRetry(values: seq<Bytes>): Option<int>
  {
    if values == [] then None
    else
      var n := |values| - 1;
      if RetryValue(values[n]).Some? then RetryValue(values[n]) else LastRetry(values[..n])
  }

  function Issues(fields: seq<Field>): seq<Issue>
  {
    if fields == [] then []
    else
      var n := |fields| - 1;
      Issues(fields[..n]) +
      if KindOf(fields[n].name) == IdField && NUL in fields[n].value then [IdContainsNul]
      else if KindOf(fields[n].name) == RetryField && RetryValue(fields[n].value).None? then [InvalidRetry]
      else []
  }

  /** What a field list says. */
  datatype Reading = Reading(event: Bytes, data: seq<Bytes>, id: Bytes, retryMillis: Option<int>, issues: seq<Issue>)

  function ReadingOf(fields: seq<Field>): Reading
  {
    Reading(
      LastOr(Values(fields, EventField), []),
      Values(fields, DataField),
      LastOr(CleanIds(Values(fields, IdField)), []),
      LastRetry(Values(fields, RetryField)),
      Issues(fields))
  }

  function Interpret(sequence: nat, offset: int, fields: seq<Field>): Content
  {
    var r := ReadingOf(fields);
    Content(sequence, offset, r.event, Join(r.data), r.id, r.retryMillis, fields, r.issues)
  }

  // ----- blocks and events

  predicate IsBlank(line: Line) { line.text == [] }

  /** The blocks closed by a blank line, and the lines after the last of them. */
  function BlocksOf(bytes: Bytes, base: int): (p: Pieces<Line>)
    ensures forall i :: 0 <= i < |p.groups| ==> p.groups[i] != []
  {
    Cut(Lines(bytes, base), IsBlank)
  }

  /** The 1-based number of the chunk that holds stream byte `position`. */
  function ChunkAt(chunks: seq<Bytes>, position: int): nat
  {
    if chunks == [] then 0
    else if |Flatten(chunks[..|chunks| - 1])| <= position then |chunks|
    else ChunkAt(chunks[..|chunks| - 1], position)
  }

  function Range(from: nat, to: nat): (r: seq<nat>)
    ensures |r| == if from <= to then to - from + 1 else 0
    ensures forall i :: 0 <= i < |r| ==> r[i] == from + i
  {
    if from > to then [] else seq(to - from + 1, i requires 0 <= i => from + i)
  }

  /** Where the byte before a block lies (the block's own first byte when it
      opens the stream). */
  function Before(position: int): int { if position <= 0 then 0 else position - 1 }

  /** The chunks that provenance must name for a block: from the one holding the
      end of the previous block to the one holding this block's blank line. */
  function BlockChunks(block: seq<Line>, base: int, chunks: seq<Bytes>): seq<nat>
    requires block != []
  {
    Range(ChunkAt(chunks, Before(block[0].start - base)), ChunkAt(chunks, block[|block| - 1].end - 1 - base))
  }

  /** The events of the closed blocks, numbered from 1. */
  function EventsOf(blocks: seq<seq<Line>>, base: int, chunks: seq<Bytes>): seq<LogicalEvent>
    requires forall i :: 0 <= i < |blocks| ==> blocks[i] != []
  {
    if blocks == [] then []
    else
      var n := |blocks| - 1;
      var before := EventsOf(blocks[..n], base, chunks);
      if FieldLines(blocks[n]) == [] then before
      else before + [LogicalEvent(
             Interpret(|before| + 1, FieldLines(blocks[n])[0].start, Fields(blocks[n])),
             BlockChunks(blocks[n], base, chunks))]
  }

  /** The whole-stream reading. */
  function Events(bytes: Bytes, base: int, chunks: seq<Bytes>): seq<LogicalEvent>
  {
    EventsOf(BlocksOf(bytes, base).groups, base, chunks)
  }

  function Contents(events: seq<LogicalEvent>): (cs: seq<Content>)
    ensures |cs| == |events|
  {
    seq(|events|, i requires 0 <= i < |events| => events[i].content)
  }

  predicate BlockWithinLimit(block: seq<Line>) { |FieldLines(block)| <= MAX_FIELDS_PER_EVENT }

  /** No block, closed or open, has more fields than an event may hold. */
  predicate WithinLimit(p: Pieces<Line>)
  {
    (forall i :: 0 <= i < |p.groups| ==> BlockWithinLimit(p.groups[i])) && BlockWithinLimit(p.rest)
  }

  predicate WithinFieldLimit(bytes: Bytes, base: int)
  {
    WithinLimit(BlocksOf(bytes, base))
  }

  /** The size of a block: its nonblank lines, each with one byte for its end. */
  function BlockBytes(block: seq<Line>): nat
  {
    if block == [] then 0
    else
      var text := block[|block| - 1].text;
      BlockBytes(block[..|block| - 1]) + if text == [] then 0 else |text| + 1
  }

  /** No block, closed or open, is larger than `max`. */
  predicate WithinSize(p: Pieces<Line>, max: int)
  {
    (forall i :: 0 <= i < |p.groups| ==> BlockBytes(p.groups[i]) <= max) && BlockBytes(p.rest) <= max
  }

  /** Fields and sizes of all blocks are within their limits. */
  predicate WithinLimits(bytes: Bytes, base: int, max: int)
  {
    WithinFieldLimit(bytes, base) && WithinSize(BlocksOf(bytes, base), max)
  }

  /** The open block and the unterminated line together are no larger than `max`. */
  predicate TailFits(bytes: Bytes, base: int, max: int)
  {
    BlockBytes(BlocksOf(bytes, base).rest) + |Unterminated(bytes)| <= max
  }
}
