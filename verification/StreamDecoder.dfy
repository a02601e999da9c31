/**
 From provider stream events to lifecycle events (internal/rawdriver/evaluate.go):
 the decoder of three wire protocols, and the separate count of terminal markers
 that parseStream keeps beside it.
 */
module StreamDecoder {
  import opened Common
  import opened Lifecycle
  import Decimal
  import Sorting

  // ----- decoded JSON

  /** A number keeps only its value when its literal is a signed 64-bit integer. */
  datatype Json =
    | Null
    | Bool(flag: bool)
    | Number(int64: Option<int>)
    | Str(text: string)
    | Arr(items: seq<Json>)
    | Obj(fields: map<string, Json>)

  type Object = map<string, Json>

  /** Object decoding is library code; every theorem holds for any such function. */
  type Decode = string -> Option<Object>

  function Get(fields: Object, key: string): Json { if key in fields then fields[key] else Null }

  function AsObject(value: Json): Object { if value.Obj? then value.fields else map[] }

  function AsArray(value: Json): seq<Json> { if value.Arr? then value.items else [] }

  function AsString(value: Json): Option<string> { if value.Str? then Some(value.text) else None }

  function TextOf(value: Json): string { if value.Str? then value.text else "" }

  function FirstObject(value: Json): Option<Object>
  {
    var items := AsArray(value);
    if items != [] && items[0].Obj? then Some(items[0].fields) else None
  }

  /** A nonnegative integer, or -1. */
  function IndexValue(value: Json): (i: int)
    ensures i >= -1
  {
    if value.Number? && value.int64.Some? && value.int64.value >= 0 then value.int64.value else -1
  }

  // ----- what each protocol's event says

  datatype Protocol = Chat | Responses | Anthropic | OtherProtocol

  /** The name and data of one assembled stream event. */
  datatype Frame = Frame(event: string, data: string)

  /** One element of a Chat chunk's tool_calls list; a missing, empty or
      non-string arguments value carries no text. */
  datatype Fragment = Fragment(index: int, callId: string, text: string)

  datatype ChatChunk = ChatChunk(fragments: seq<Fragment>, finish: Option<string>)

  function ReadFragment(call: Json): Fragment
  {
    var fields := AsObject(call);
    Fragment(IndexValue(Get(fields, "index")), TextOf(Get(fields, "id")),
             TextOf(Get(AsObject(Get(fields, "function")), "arguments")))
  }

  function ReadChat(value: Object): ChatChunk
  {
    match FirstObject(Get(value, "choices"))
    case None => ChatChunk([], None)
    case Some(choice) =>
      var calls := AsArray(Get(AsObject(Get(choice, "delta")), "tool_calls"));
      ChatChunk(seq(|calls|, i requires 0 <= i < |calls| => ReadFragment(calls[i])),
                AsString(Get(choice, "finish_reason")))
  }

  datatype AnthropicEvent =
    | MessageStart
    | BlockStart(index: int, kind: string, callId: string)
    | BlockDelta(index: int, partial: string)
    | BlockStop(index: int)
    | MessageStop
    | Ignored

  function ReadAnthropic(name: string, value: Object): AnthropicEvent
  {
    var index := IndexValue(Get(value, "index"));
    if name == "message_start" then MessageStart
    else if name == "content_block_start" then
      var block := AsObject(Get(value, "content_block"));
      BlockStart(index, TextOf(Get(block, "type")), TextOf(Get(block, "id")))
    else if name == "content_block_delta" then
      var delta := AsObject(Get(value, "delta"));
      if Get(delta, "type") == Str("input_json_delta") then BlockDelta(index, TextOf(Get(delta, "partial_json")))
      else Ignored
    else if name == "content_block_stop" then BlockStop(index)
    else if name == "message_stop" then MessageStop
    else Ignored
  }

  function Bare(kind: Kind): Event { Event(0, kind, "", "", 0, "", "", "") }

  function TypeName(value: Object): string { TextOf(Get(value, "type")) }

  /** A Responses event maps to at most one lifecycle event. */
  function ReadResponses(value: Object): Option<Event>
  {
    var name := TypeName(value);
    var item := AsObject(Get(value, "item"));
    if name == "response.created" then Some(Bare(Created))
    else if name == "response.in_progress" then Some(Bare(InProgress))
    else if name == "response.output_item.added" then
      Some(Event(0, ItemAdded, TextOf(Get(item, "id")), TextOf(Get(item, "type")),
                 IndexValue(Get(value, "output_index")), TextOf(Get(item, "call_id")), "", ""))
    else if name == "response.function_call_arguments.delta" then
      Some(Event(0, ArgumentsDelta, TextOf(Get(value, "item_id")), "", 0, TextOf(Get(value, "call_id")),
                 TextOf(Get(value, "delta")), ""))
    else if name == "response.function_call_arguments.done" then
      Some(Event(0, ArgumentsDone, TextOf(Get(value, "item_id")), "", 0, TextOf(Get(value, "call_id")), "",
                 TextOf(Get(value, "arguments"))))
    else if name == "response.output_item.done" then
      Some(Event(0, ItemDone, TextOf(Get(item, "id")), "", 0, TextOf(Get(item, "call_id")), "", ""))
    else match TerminalName(name)
      case Some(kind) => Some(Bare(kind))
      case None => None
  }

  /** The typed terminal events of the Responses protocol. */
  function TerminalName(name: string): Option<Kind>
  {
    if name == "response.completed" then Some(Completed)
    else if name == "response.failed" then Some(Failed)
    else if name == "response.incomplete" then Some(Incomplete)
    else None
  }

  // ----- the decoder

  datatype Tool = Tool(itemId: string, callId: string, arguments: string)

  datatype Decoding = Decoding(events: seq<Event>, chatCreated: bool, chatTools: map<int, Tool>, anthropicItems: map<int, Tool>)

  const START := Decoding([], false, map[], map[])

  predicate IsDone(data: string) { data == "[DONE]" }

  const FUNCTION_CALL := "function_call"

  function ChatItemId(index: int): string { "chat-tool-" + Decimal.Itoa(index) }

  function AnthropicItemId(index: int): string { "anthropic-item-" + Decimal.Itoa(index) }

  /** Every emitted event is numbered by its position. */
  function Emit(d: Decoding, e: Event): Decoding
  {
    d.(events := d.events + [e.(sequence := |d.events| + 1)])
  }

  function EnsureCreated(d: Decoding): Decoding
  {
    if d.chatCreated then d else Emit(d.(chatCreated := true), Bare(Created))
  }

  function Added(itemId: string, kind: string, index: int, callId: string): Event
  {
    Event(0, ItemAdded, itemId, kind, index, callId, "", "")
  }

  function Delta(tool: Tool, callId: string, text: string): Event
  {
    Event(0, ArgumentsDelta, tool.itemId, "", 0, callId, text, "")
  }

  function ArgsDoneOf(tool: Tool): Event
  {
    Event(0, ArgumentsDone, tool.itemId, "", 0, tool.callId, "", tool.arguments)
  }

  function ItemDoneOf(tool: Tool): Event
  {
    Event(0, ItemDone, tool.itemId, "", 0, tool.callId, "", "")
  }

  function OpenTool(d: Decoding, f: Fragment): (r: Decoding)
    ensures f.index in r.chatTools
  {
    if f.index in d.chatTools then d
    else
      var id := ChatItemId(f.index);
      Emit(d.(chatTools := d.chatTools[f.index := Tool(id, f.callId, "")]), Added(id, FUNCTION_CALL, f.index, f.callId))
  }

  function ChatFragment(d: Decoding, f: Fragment): Decoding
  {
    var ready := OpenTool(d, f);
    if f.text == "" then ready
    else
      var tool := ready.chatTools[f.index];
      Emit(ready.(chatTools := ready.chatTools[f.index := tool.(arguments := tool.arguments + f.text)]),
           Delta(tool, f.callId, f.text))
  }

  function ChatFragments(d: Decoding, fragments: seq<Fragment>): Decoding
  {
    if fragments == [] then d
    else ChatFragment(ChatFragments(d, fragments[..|fragments| - 1]), fragments[|fragments| - 1])
  }

  /** Close the tools at `indexes`, in that order. */
  function CloseTools(d: Decoding, indexes: seq<int>): (r: Decoding)
    ensures r.chatTools == d.chatTools
  {
    if indexes == [] then d
    else CloseTool(CloseTools(d, indexes[..|indexes| - 1]), indexes[|indexes| - 1])
  }

  function CloseTool(d: Decoding, index: int): (r: Decoding)
    ensures r.chatTools == d.chatTools
  {
    if index !in d.chatTools then d
    else Emit(Emit(d, ArgsDoneOf(d.chatTools[index])), ItemDoneOf(d.chatTools[index]))
  }

  function ConsumeChat(d: Decoding, chunk: ChatChunk): Decoding
  {
    var read := ChatFragments(EnsureCreated(d), chunk.fragments);
    if chunk.finish.Some? then CloseTools(read, Sorting.Ascend(read.chatTools.Keys)) else read
  }

  function ConsumeAnthropic(d: Decoding, e: AnthropicEvent): Decoding
  {
    match e
    case MessageStart => Emit(d, Bare(Created))
    case BlockStart(index, kind, callId) =>
      var id := AnthropicItemId(index);
      Emit(d.(anthropicItems := d.anthropicItems[index := Tool(id, callId, "")]),
           Added(id, if kind == "tool_use" then FUNCTION_CALL else kind, index, callId))
    case BlockDelta(index, partial) =>
      if index !in d.anthropicItems then d
      else
        var tool := d.anthropicItems[index];
        Emit(d.(anthropicItems := d.anthropicItems[index := tool.(arguments := tool.arguments + partial)]),
             Delta(tool, tool.callId, partial))
    case BlockStop(index) =>
      if index !in d.anthropicItems then d
      else
        var tool := d.anthropicItems[index];
        Emit(if tool.callId != "" then Emit(d, ArgsDoneOf(tool)) else d, ItemDoneOf(tool))
    case MessageStop => Emit(d, Bare(Completed))
    case Ignored => d
  }

  function Consume(d: Decoding, protocol: Protocol, frame: Frame, decode: Decode): Decoding
  {
    if IsDone(frame.data) then Emit(EnsureCreated(d), Bare(Completed))
    else match decode(frame.data)
      case None => d
      case Some(value) =>
        match protocol
        case Responses => (match ReadResponses(value) case None => d case Some(e) => Emit(d, e))
        case Chat => ConsumeChat(d, ReadChat(value))
        case Anthropic => ConsumeAnthropic(d, ReadAnthropic(frame.event, value))
        case OtherProtocol => d
  }

  function DecodeAll(protocol: Protocol, frames: seq<Frame>, decode: Decode): Decoding
  {
    if frames == [] then START
    else Consume(DecodeAll(protocol, frames[..|frames| - 1], decode), protocol, frames[|frames| - 1], decode)
  }

  // ----- the independent terminal count

  /** countedTerminalMarker: the marker this event is counted under, if any. */
  function CountedMarker(protocol: Protocol, frame: Frame, decode: Decode): Option<string>
  {
    if IsDone(frame.data) then Some("[DONE]")
    else match protocol
      case Anthropic =>
        if frame.event == "message_stop" && decode(frame.data).Some? then Some("message_stop") else None
      case Responses =>
        (match decode(frame.data)
         case None => None
         case Some(value) => if TerminalName(TypeName(value)).Some? then Some(TypeName(value)) else None)
      case _ => None
  }

  /** isTerminalEvent, which decides what counts as data after the end. */
  predicate EndsStream(protocol: Protocol, frame: Frame, decode: Decode)
  {
    match protocol
    case Chat => IsDone(frame.data)
    case Anthropic => frame.event == "message_stop"
    case Responses =>
      !IsDone(frame.data) && decode(frame.data).Some? && TerminalName(TypeName(decode(frame.data).value)).Some?
    case OtherProtocol => false
  }

  function CountMarkers(protocol: Protocol, frames: seq<Frame>, decode: Decode): nat
  {
    if frames == [] then 0
    else CountMarkers(protocol, frames[..|frames| - 1], decode) +
         if CountedMarker(protocol, frames[|frames| - 1], decode).Some? then 1 else 0
  }

  const MAX_TERMINAL_TRACE_ENTRIES := 8

  datatype Facts = Facts(terminalCount: nat, terminalTrace: seq<(nat, string)>, terminalOmitted: nat, postTerminal: nat)

  /** Some event of the list ends the stream. */
  predicate Ended(protocol: Protocol, frames: seq<Frame>, decode: Decode)
  {
    exists j :: 0 <= j < |frames| && EndsStream(protocol, frames[j], decode)
  }

  /** Data-bearing events after the first one that ends the stream. */
  function CountAfterEnd(protocol: Protocol, frames: seq<Frame>, decode: Decode): nat
  {
    if frames == [] then 0
    else
      var n := |frames| - 1;
      CountAfterEnd(protocol, frames[..n], decode) +
      if Ended(protocol, frames[..n], decode) && frames[n].data != "" then 1 else 0
  }

  /** The first marked events, by 1-based position, up to the trace limit. */
  function TraceMarkers(protocol: Protocol, frames: seq<Frame>, decode: Decode): (trace: seq<(nat, string)>)
    ensures |trace| <= MAX_TERMINAL_TRACE_ENTRIES
  {
    if frames == [] then []
    else
      var n := |frames| - 1;
      var before := TraceMarkers(protocol, frames[..n], decode);
      var marker := CountedMarker(protocol, frames[n], decode);
      if marker.Some? && |before| < MAX_TERMINAL_TRACE_ENTRIES then before + [(n + 1, marker.value)] else before
  }

  // ----- the decoder object

  class Decoder {
    const protocol: Protocol
    var events: seq<Event>
    var chatCreated: bool
    var chatTools: map<int, Tool>
    var anthropicItems: map<int, Tool>

    ghost function Model(): Decoding
      reads this
    {
      Decoding(events, chatCreated, chatTools, anthropicItems)
    }

    constructor (protocol: Protocol)
      ensures this.protocol == protocol && Model() == START
    {
      this.protocol := protocol;
      events, chatCreated, chatTools, anthropicItems := [], false, map[], map[];
    }

    method Append(event: Event)
      modifies this`events
      ensures Model() == Emit(old(Model()), event)
    {
      events := events + [event.(sequence := |events| + 1)];
    }

    method EnsureChatCreated()
      modifies this
      ensures Model() == EnsureCreated(old(Model()))
    {
      if !chatCreated {
        chatCreated := true;
        Append(Bare(Created));
      }
    }

    method ReadOneFragment(f: Fragment)
      modifies this
      ensures Model() == ChatFragment(old(Model()), f)
    {
      hide ChatItemId;
      if f.index !in chatTools {
        var id := ChatItemId(f.index);
        chatTools := chatTools[f.index := Tool(id, f.callId, "")];
        Append(Added(id, FUNCTION_CALL, f.index, f.callId));
      }
      assert Model() == OpenTool(old(Model()), f);
      if f.text != "" {
        var tool := chatTools[f.index];
        chatTools := chatTools[f.index := tool.(arguments := tool.arguments + f.text)];
        Append(Delta(tool, f.callId, f.text));
      }
    }

    method ReadChunk(chunk: ChatChunk)
      modifies this
      ensures Model() == ConsumeChat(old(Model()), chunk)
    {
      hide ChatFragment, CloseTools, EnsureCreated;
      EnsureChatCreated();
      ghost var created := Model();
      for i := 0 to |chunk.fragments|
        invariant Model() == ChatFragments(created, chunk.fragments[..i])
      {
        ReadOneFragment(chunk.fragments[i]);
        assert chunk.fragments[..i + 1][..i] == chunk.fragments[..i];
      }
      assert chunk.fragments[..|chunk.fragments|] == chunk.fragments;
      if chunk.finish.Some? {
        var indexes := Sorting.Ascend(chatTools.Keys);
        assert forall i :: 0 <= i < |indexes| ==> indexes[i] in indexes;
        CloseList(indexes);
      }
    }

    method CloseOne(index: int)
      requires index in chatTools
      modifies this`events
      ensures Model() == CloseTool(old(Model()), index)
    {
      var tool := chatTools[index];
      Append(ArgsDoneOf(tool));
      Append(ItemDoneOf(tool));
    }

    method CloseList(indexes: seq<int>)
      requires forall i :: 0 <= i < |indexes| ==> indexes[i] in chatTools
      modifies this`events
      ensures Model() == CloseTools(old(Model()), indexes)
    {
      hide CloseTool;
      for i := 0 to |indexes|
        invariant Model() == CloseTools(old(Model()), indexes[..i])
      {
        assert indexes[..i + 1][..i] == indexes[..i];
        CloseOne(indexes[i]);
      }
      assert indexes[..|indexes|] == indexes;
    }

    method ReadBlockEvent(e: AnthropicEvent)
      modifies this
      ensures Model() == ConsumeAnthropic(old(Model()), e)
    {
      hide AnthropicItemId;
      match e {
        case MessageStart => Append(Bare(Created));
        case BlockStart(index, kind, callId) =>
          var itemKind := kind;
          if kind == "tool_use" { itemKind := FUNCTION_CALL; }
          var tool := Tool(AnthropicItemId(index), callId, "");
          anthropicItems := anthropicItems[index := tool];
          Append(Added(tool.itemId, itemKind, index, callId));
        case BlockDelta(index, partial) =>
          if index in anthropicItems {
            var tool := anthropicItems[index];
            anthropicItems := anthropicItems[index := tool.(arguments := tool.arguments + partial)];
            Append(Delta(tool, tool.callId, partial));
          }
        case BlockStop(index) =>
          if index in anthropicItems {
            var tool := anthropicItems[index];
            if tool.callId != "" { Append(ArgsDoneOf(tool)); }
            Append(ItemDoneOf(tool));
          }
        case MessageStop => Append(Bare(Completed));
        case Ignored =>
      }
    }

    method ConsumeFrame(frame: Frame, decode: Decode)
      modifies this
      ensures Model() == Consume(old(Model()), protocol, frame, decode)
    {
      hide ReadResponses, ReadChat, ReadAnthropic, ConsumeChat, ConsumeAnthropic, IsDone;
      if IsDone(frame.data) {
        EnsureChatCreated();
        Append(Bare(Completed));
        return;
      }
      var value := decode(frame.data);
      if value.None? { return; }
      match protocol {
        case Responses =>
          var e := ReadResponses(value.value);
          if e.Some? { Append(e.value); }
        case Chat => ReadChunk(ReadChat(value.value));
        case Anthropic => ReadBlockEvent(ReadAnthropic(frame.event, value.value));
        case OtherProtocol =>
      }
    }
  }

  ghost predicate FactsHold(facts: Facts, protocol: Protocol, frames: seq<Frame>, decode: Decode)
  {
    && facts.terminalCount == CountMarkers(protocol, frames, decode)
    && facts.terminalTrace == TraceMarkers(protocol, frames, decode)
    && facts.terminalOmitted == facts.terminalCount - |facts.terminalTrace|
    && (facts.terminalOmitted > 0 ==> |facts.terminalTrace| == MAX_TERMINAL_TRACE_ENTRIES)
    && facts.postTerminal == CountAfterEnd(protocol, frames, decode)
  }

  /** The counters after one more event. */
  function Note(facts: Facts, terminalSeen: bool, position: nat, data: string, marker: Option<string>): Facts
  {
    var late := if terminalSeen && data != "" then facts.(postTerminal := facts.postTerminal + 1) else facts;
    if marker.None? then late
    else if |late.terminalTrace| < MAX_TERMINAL_TRACE_ENTRIES then
      late.(terminalCount := late.terminalCount + 1, terminalTrace := late.terminalTrace + [(position, marker.value)])
    else late.(terminalCount := late.terminalCount + 1, terminalOmitted := late.terminalOmitted + 1)
  }

  lemma NoteKeepsFacts(facts: Facts, protocol: Protocol, frames: seq<Frame>, frame: Frame, decode: Decode)
    requires FactsHold(facts, protocol, frames, decode)
    ensures FactsHold(Note(facts, Ended(protocol, frames, decode), |frames| + 1, frame.data, CountedMarker(protocol, frame, decode)),
                      protocol, frames + [frame], decode)
  {
    hide CountedMarker, Ended;
    assert (frames + [frame])[..|frames|] == frames;
  }

  /** The event loop of parseStream. */
  method ParseFrames(protocol: Protocol, frames: seq<Frame>, decode: Decode) returns (facts: Facts, events: seq<Event>)
    ensures events == DecodeAll(protocol, frames, decode).events
    ensures FactsHold(facts, protocol, frames, decode)
  {
    hide CountedMarker, EndsStream, Consume, FactsHold, Ended, Note;
    facts := Facts(0, [], 0, 0);
    NoFacts(protocol, decode);
    var state := new Decoder(protocol);
    var terminalSeen := false;
    for i := 0 to |frames|
      invariant state.protocol == protocol && fresh(state)
      invariant state.Model() == DecodeAll(protocol, frames[..i], decode)
      invariant FactsHold(facts, protocol, frames[..i], decode)
      invariant terminalSeen == Ended(protocol, frames[..i], decode)
    {
      var frame := frames[i];
      assert frames[..i + 1][..i] == frames[..i];
      assert frames[..i + 1] == frames[..i] + [frame];
      NoteKeepsFacts(facts, protocol, frames[..i], frame, decode);
      SeenSnoc(protocol, frames[..i], frame, decode);
      facts := Note(facts, terminalSeen, i + 1, frame.data, CountedMarker(protocol, frame, decode));
      state.ConsumeFrame(frame, decode);
      if EndsStream(protocol, frame, decode) { terminalSeen := true; }
    }
    assert frames[..|frames|] == frames;
    events := state.events;
  }

  lemma NoFacts(protocol: Protocol, decode: Decode)
    ensures FactsHold(Facts(0, [], 0, 0), protocol, [], decode) && !Ended(protocol, [], decode)
  {
  }

  lemma SeenSnoc(protocol: Protocol, frames: seq<Frame>, frame: Frame, decode: Decode)
    ensures Ended(protocol, frames + [frame], decode) <==> Ended(protocol, frames, decode) || EndsStream(protocol, frame, decode)
  {
    var longer := frames + [frame];
    if Ended(protocol, frames, decode) {
      var j :| 0 <= j < |frames| && EndsStream(protocol, frames[j], decode);
      assert longer[j] == frames[j];
    }
    assert longer[|frames|] == frame;
  }
}
