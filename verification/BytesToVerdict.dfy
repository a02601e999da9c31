/**
 From bytes to verdict: what a server writes as server-sent events, message by
 message, is what the decoder is given and what acceptance is about, however the
 bytes are divided into reads.
 */
module BytesToVerdict {
  import opened Common
  import SseFraming
  import SseAssembler
  import SseChunking
  import opened SseRendering
  import Lifecycle
  import opened StreamDecoder
  import opened StreamOracle
  import ResponsesStreams
  import AnthropicStreams
  import ChatAcceptance

  /** A message of a stream: its event name, which may be absent, and one line of data. */
  datatype Message = Message(name: Bytes, data: Bytes)

  /** One line, without any line ending inside. */
  predicate OneLine(text: Bytes) { SseFraming.LF !in text && SseFraming.CR !in text }

  predicate Plain(m: Message) { OneLine(m.name) && OneLine(m.data) }

  function DataField(m: Message): SseFraming.Field { SseFraming.Field(Ascii("data"), m.data) }

  function NameField(m: Message): SseFraming.Field { SseFraming.Field(Ascii("event"), m.name) }

  /** An `event:` line if there is a name, a `data:` line and a blank line, each ended by LF or CRLF. */
  function BlockOf(m: Message, crlf: bool): Block
  {
    var data := FieldLine(DataField(m), Spaced, crlf);
    Block(if m.name == [] then [data] else [FieldLine(NameField(m), Spaced, crlf), data], crlf)
  }

  function BlocksOf(messages: seq<Message>, crlf: bool): (blocks: seq<Block>)
    ensures |blocks| == |messages|
  {
    seq(|messages|, i requires 0 <= i < |messages| => BlockOf(messages[i], crlf))
  }

  function FieldsIn(m: Message): seq<SseFraming.Field>
  {
    if m.name == [] then [DataField(m)] else [NameField(m), DataField(m)]
  }

  lemma BlockSays(m: Message, crlf: bool)
    requires Plain(m)
    ensures WrittenFields(BlockOf(m, crlf).lines) == FieldsIn(m)
    ensures WritableBlock(BlockOf(m, crlf))
  {
    BlockFields(m, crlf);
    BlockWritable(m, crlf);
  }

  lemma BlockFields(m: Message, crlf: bool)
    ensures WrittenFields(BlockOf(m, crlf).lines) == FieldsIn(m)
  {
    hide Ascii, WrittenFields;
    var data, name := FieldLine(DataField(m), Spaced, crlf), FieldLine(NameField(m), Spaced, crlf);
    assert WrittenFields([]) == [] by { NoneWritten(); }
    WrittenSnoc([], data);
    WrittenSnoc([], name);
    WrittenSnoc([name], data);
    assert [] + [data] == [data] && [] + [name] == [name] && [name] + [data] == [name, data];
  }

  lemma NoneWritten()
    ensures WrittenFields([]) == []
  {
  }

  lemma BlockWritable(m: Message, crlf: bool)
    requires Plain(m)
    ensures WritableBlock(BlockOf(m, crlf))
  {
    hide Ascii, Writable;
    NamesAreProper();
    WritableLine(DataField(m), crlf);
    if m.name != [] { WritableLine(NameField(m), crlf); }
  }

  lemma NamesAreProper()
    ensures Ascii("data") != [] && Ascii("event") != [] && Ascii("data") != Ascii("event")
    ensures forall b :: b in Ascii("data") || b in Ascii("event") ==> b != SseFraming.COLON && b != SseFraming.LF
  {
    assert Ascii("data") == [100, 97, 116, 97];
    assert Ascii("event") == [101, 118, 101, 110, 116];
  }

  lemma WritableLine(f: SseFraming.Field, crlf: bool)
    requires f.name != [] && SseFraming.COLON !in f.name && SseFraming.LF !in f.name && OneLine(f.value)
    ensures Writable(FieldLine(f, Spaced, crlf))
  {
    var text := Text(FieldLine(f, Spaced, crlf));
    assert text[|text| - 1] == if f.value == [] then SseFraming.SPACE else f.value[|f.value| - 1];
    assert f.value != [] ==> f.value[|f.value| - 1] in f.value;
  }

  lemma AllWritable(messages: seq<Message>, crlf: bool)
    requires forall i :: 0 <= i < |messages| ==> Plain(messages[i])
    ensures WritableStream(BlocksOf(messages, crlf)) && FewFields(BlocksOf(messages, crlf))
  {
    hide WritableBlock, BlockOf, WrittenFields, Plain;
    forall i | 0 <= i < |messages| ensures WritableBlock(BlockOf(messages[i], crlf)) && |WrittenFields(BlockOf(messages[i], crlf).lines)| <= 2 {
      BlockSays(messages[i], crlf);
    }
  }

  lemma {:induction false} SaysMessages(messages: seq<Message>, crlf: bool, base: int)
    requires forall i :: 0 <= i < |messages| ==> Plain(messages[i])
    ensures |Says(BlocksOf(messages, crlf), base)| == |messages|
    ensures forall i :: 0 <= i < |messages| ==> Says(BlocksOf(messages, crlf), base)[i].fields == FieldsIn(messages[i])
  {
    hide WrittenFields, BlockOf, FieldsIn, Preamble, WriteStream, Plain;
    if messages != [] {
      var n := |messages| - 1;
      SaysMessages(messages[..n], crlf, base);
      BlockSays(messages[n], crlf);
      FieldsNonempty(messages[n]);
      assert BlocksOf(messages, crlf)[..n] == BlocksOf(messages[..n], crlf);
    }
  }

  lemma FieldsNonempty(m: Message)
    ensures FieldsIn(m) != []
  {
  }

  /** An event read out of a message carries its name and data. */
  lemma ContentOf(m: Message, c: SseFraming.Content)
    requires Plain(m) && Means(c, FieldsIn(m))
    ensures c.event == m.name && c.data == m.data
  {
    hide Ascii, Means;
    NamesAreProper();
    MessageNames(m);
    MeansNames(m, c);
    SplitsToOne(c.data, m.data);
  }

  lemma MessageNames(m: Message)
    requires Ascii("data") != Ascii("event")
    ensures Named(FieldsIn(m), Ascii("data")) == [m.data]
    ensures Named(FieldsIn(m), Ascii("event")) == if m.name == [] then [] else [m.name]
  {
    hide Ascii;
    var data, name := DataField(m), NameField(m);
    NamedSnoc([], data, Ascii("data"));
    NamedSnoc([], data, Ascii("event"));
    NamedSnoc([], name, Ascii("data"));
    NamedSnoc([], name, Ascii("event"));
    assert [] + [data] == [data] && [] + [name] == [name] && [name] + [data] == [name, data];
    NamedSnoc([name], data, Ascii("data"));
    NamedSnoc([name], data, Ascii("event"));
  }

  lemma MeansNames(m: Message, c: SseFraming.Content)
    requires Means(c, FieldsIn(m)) && Named(FieldsIn(m), Ascii("data")) == [m.data]
    requires Named(FieldsIn(m), Ascii("event")) == if m.name == [] then [] else [m.name]
    ensures c.event == m.name && SplitLines(c.data) == [m.data]
  {
    hide LastClean, LastNumber, Complaints, SplitLines, Ascii, Named;
  }

  lemma SplitsToOne(text: Bytes, line: Bytes)
    requires SplitLines(text) == [line]
    ensures text == line
  {
    if SseFraming.LF in text {
      var i := SseFraming.IndexOf(text, SseFraming.LF);
      SplitsToSome(text[i + 1..]);
    }
  }

  lemma SplitsToSome(text: Bytes)
    ensures |SplitLines(text)| >= 1
  {
  }

  /** The frames that the messages amount to. */
  function FramesFor(messages: seq<Message>, text: Bytes -> string): (frames: seq<Frame>)
    ensures |frames| == |messages|
  {
    seq(|messages|, i requires 0 <= i < |messages| => Frame(text(messages[i].name), text(messages[i].data)))
  }

  /** A stream of messages, written and read in any division, is judged as exactly those messages. */
  lemma MessagesAreJudged(protocol: Protocol, limit: int, chunks: seq<Bytes>, messages: seq<Message>, crlf: bool,
                          text: Bytes -> string, decode: Decode)
    requires (forall i :: 0 <= i < |chunks| ==> chunks[i] != []) && forall i :: 0 <= i < |messages| ==> Plain(messages[i])
    requires Flatten(chunks) == WriteStream(BlocksOf(messages, crlf))
    requires |Flatten(chunks)| <= (if limit <= 0 then 1024 * 1024 else limit)
    ensures TraceOf(protocol, limit, chunks, text, decode) == Some(DecodeAll(protocol, FramesFor(messages, text), decode).events)
  {
    hide WriteStream, Says, SseChunking.FeedAll, Delivers, Plain, DecodeAll, WritableStream, FewFields;
    var blocks := BlocksOf(messages, crlf);
    AllWritable(messages, crlf);
    WritingIsRead(limit, 0, chunks, blocks);
    SaysMessages(messages, crlf, 0);
    var events := SseChunking.FeedAll(limit, 0, chunks).value.events;
    DeliveredFrames(events, Says(blocks, 0), messages, text);
  }

  lemma DeliveredFrames(events: seq<SseFraming.LogicalEvent>, said: seq<Said>, messages: seq<Message>, text: Bytes -> string)
    requires Delivers(events, said) && |said| == |messages|
    requires forall i :: 0 <= i < |messages| ==> Plain(messages[i]) && said[i].fields == FieldsIn(messages[i])
    ensures FramesOf(SseFraming.Contents(events), text) == FramesFor(messages, text)
  {
    hide Means, Plain, FieldsIn;
    forall i | 0 <= i < |messages| ensures FramesOf(SseFraming.Contents(events), text)[i] == FramesFor(messages, text)[i] {
      assert DeliversAt(events[i].content, said[i], i);
      ContentOf(messages[i], events[i].content);
    }
  }

  /** A Responses server is accepted, from its bytes, exactly when what its messages carry is well formed. */
  lemma ResponsesBytesAccepted(limit: int, chunks: seq<Bytes>, messages: seq<Message>, crlf: bool, text: Bytes -> string, decode: Decode,
                               h: seq<ResponsesStreams.Native>)
    requires (forall i :: 0 <= i < |chunks| ==> chunks[i] != []) && forall i :: 0 <= i < |messages| ==> Plain(messages[i])
    requires Flatten(chunks) == WriteStream(BlocksOf(messages, crlf))
    requires |Flatten(chunks)| <= (if limit <= 0 then 1024 * 1024 else limit)
    requires ResponsesStreams.CarriesAll(FramesFor(messages, text), decode, h)
    ensures TraceOf(Responses, limit, chunks, text, decode).Some?
    ensures Lifecycle.Accepted(TraceOf(Responses, limit, chunks, text, decode).value) <==> ResponsesStreams.WellFormed(h)
  {
    hide WriteStream, Plain, DecodeAll, TraceOf, ResponsesStreams.WellFormed, ResponsesStreams.CarriesAll, Lifecycle.Accepted;
    MessagesAreJudged(Responses, limit, chunks, messages, crlf, text, decode);
    ResponsesStreams.AcceptedIffWellFormed(FramesFor(messages, text), decode);
  }

  /** The same for an Anthropic server. */
  lemma AnthropicBytesAccepted(limit: int, chunks: seq<Bytes>, messages: seq<Message>, crlf: bool, text: Bytes -> string, decode: Decode,
                               h: seq<AnthropicStreams.Native>)
    requires (forall i :: 0 <= i < |chunks| ==> chunks[i] != []) && forall i :: 0 <= i < |messages| ==> Plain(messages[i])
    requires Flatten(chunks) == WriteStream(BlocksOf(messages, crlf))
    requires |Flatten(chunks)| <= (if limit <= 0 then 1024 * 1024 else limit)
    requires |h| == |messages| && forall i :: 0 <= i < |h| ==> AnthropicStreams.Carries(FramesFor(messages, text)[i], decode, h[i])
    ensures TraceOf(Anthropic, limit, chunks, text, decode).Some?
    ensures Lifecycle.Accepted(TraceOf(Anthropic, limit, chunks, text, decode).value) <==> AnthropicStreams.WellFormed(h)
  {
    hide WriteStream, Plain, DecodeAll, TraceOf, AnthropicStreams.WellFormed, AnthropicStreams.Carries, Lifecycle.Accepted;
    MessagesAreJudged(Anthropic, limit, chunks, messages, crlf, text, decode);
    AnthropicStreams.CarriedAreRead(FramesFor(messages, text), decode, h);
    AnthropicStreams.AcceptedIffWellFormed(FramesFor(messages, text), decode);
  }

  /** The same for a Chat server. */
  lemma ChatBytesAccepted(limit: int, chunks: seq<Bytes>, messages: seq<Message>, crlf: bool, text: Bytes -> string, decode: Decode,
                          carried: seq<ChatAcceptance.Carried>)
    requires (forall i :: 0 <= i < |chunks| ==> chunks[i] != []) && forall i :: 0 <= i < |messages| ==> Plain(messages[i])
    requires Flatten(chunks) == WriteStream(BlocksOf(messages, crlf))
    requires |Flatten(chunks)| <= (if limit <= 0 then 1024 * 1024 else limit)
    requires |carried| == |messages|
    requires forall i :: 0 <= i < |carried| ==> ChatAcceptance.Carries(FramesFor(messages, text)[i], decode, carried[i])
    ensures TraceOf(Chat, limit, chunks, text, decode).Some?
    ensures Lifecycle.Accepted(TraceOf(Chat, limit, chunks, text, decode).value) <==>
            ChatAcceptance.WellFormed(ChatAcceptance.AllNatives(carried))
  {
    hide WriteStream, Plain, DecodeAll, TraceOf, ChatAcceptance.WellFormed, ChatAcceptance.Carries, Lifecycle.Accepted;
    MessagesAreJudged(Chat, limit, chunks, messages, crlf, text, decode);
    ChatAcceptance.CarriedAreRead(FramesFor(messages, text), decode, carried);
    ChatAcceptance.AcceptedIffWellFormed(FramesFor(messages, text), decode);
  }
}
