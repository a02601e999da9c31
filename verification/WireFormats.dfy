/**
 What providers put on the wire: encoders for the three protocols, written
 without reference to the readers, and the proof that each reader recovers
 exactly what was encoded, whatever else the objects carry.
 */
module WireFormats {
  import opened Common
  import opened Lifecycle
  import opened StreamDecoder
  import Sorting

  // ----- objects that say at least this

  /** `value` has every member of `wire`, objects inside it likewise, and possibly more; empty texts may be left out. */
  ghost predicate Extends(value: Object, wire: Object)
  {
    forall key :: key in wire ==> if key in value then Matches(value[key], wire[key]) else wire[key] == Str("")
  }

  ghost predicate Matches(value: Json, wire: Json)
  {
    value == wire || (value.Obj? && wire.Obj? && Holds(value.fields, wire.fields))
  }

  ghost predicate Holds(value: Object, wire: Object)
  {
    forall key :: key in wire ==> if key in value then value[key] == wire[key] else wire[key] == Str("")
  }

  lemma TextAt(value: Object, wire: Object, key: string, text: string)
    requires Extends(value, wire) && key in wire && wire[key] == Str(text)
    ensures TextOf(Get(value, key)) == text
  {
  }

  lemma InnerTextAt(value: Object, wire: Object, outer: string, fields: Object, key: string, text: string)
    requires Extends(value, wire) && outer in wire && wire[outer] == Obj(fields) && key in fields && fields[key] == Str(text)
    ensures TextOf(Get(AsObject(Get(value, outer)), key)) == text
  {
  }

  function IndexJson(index: int): Json { if index < 0 then Null else Number(Some(index)) }

  lemma IndexAt(value: Object, wire: Object, key: string, index: int)
    requires Extends(value, wire) && key in wire && wire[key] == IndexJson(index) && index >= -1
    ensures IndexValue(Get(value, key)) == index
  {
  }

  // ----- Responses

  /** The type name that announces a lifecycle event. */
  function ResponsesName(kind: Kind): Option<string>
  {
    match kind
    case Created => Some("response.created")
    case InProgress => Some("response.in_progress")
    case ItemAdded => Some("response.output_item.added")
    case ArgumentsDelta => Some("response.function_call_arguments.delta")
    case ArgumentsDone => Some("response.function_call_arguments.done")
    case ItemDone => Some("response.output_item.done")
    case Completed => Some("response.completed")
    case Failed => Some("response.failed")
    case Incomplete => Some("response.incomplete")
    case ToolResult => None
    case Unknown(_) => None
  }

  /** An event holds no more than the protocol can say about its kind. */
  predicate Sayable(e: Event)
  {
    && e.sequence == 0 && ResponsesName(e.kind).Some?
    && (e.kind != ItemAdded ==> e.itemKind == "" && e.outputIndex == 0) && e.outputIndex >= -1
    && (e.kind != ArgumentsDelta ==> e.delta == "") && (e.kind != ArgumentsDone ==> e.arguments == "")
    && (e.kind in {ItemAdded, ArgumentsDelta, ArgumentsDone, ItemDone} || (e.itemId == "" && e.callId == ""))
  }

  function ResponsesWire(e: Event): Object
    requires ResponsesName(e.kind).Some?
  {
    var name := ResponsesName(e.kind).value;
    match e.kind
    case ItemAdded =>
      map["type" := Str(name), "output_index" := IndexJson(e.outputIndex),
          "item" := Obj(map["id" := Str(e.itemId), "type" := Str(e.itemKind), "call_id" := Str(e.callId)])]
    case ArgumentsDelta =>
      map["type" := Str(name), "item_id" := Str(e.itemId), "call_id" := Str(e.callId), "delta" := Str(e.delta)]
    case ArgumentsDone =>
      map["type" := Str(name), "item_id" := Str(e.itemId), "call_id" := Str(e.callId), "arguments" := Str(e.arguments)]
    case ItemDone =>
      map["type" := Str(name), "item" := Obj(map["id" := Str(e.itemId), "call_id" := Str(e.callId)])]
    case _ => map["type" := Str(name)]
  }

  /** The reader's kind of event is the one whose name the object gives. */
  lemma ReadKind(value: Object)
    ensures match ReadResponses(value)
            case Some(e) => ResponsesName(e.kind) == Some(TypeName(value)) && Sayable(e)
            case None => forall kind :: ResponsesName(kind) != Some(TypeName(value))
  {
    hide Get, TextOf, AsObject;
    if ReadResponses(value).None? {
      forall kind ensures ResponsesName(kind) != Some(TypeName(value)) { OtherName(value, kind); }
    }
  }

  lemma OtherName(value: Object, kind: Kind)
    requires ReadResponses(value).None?
    ensures ResponsesName(kind) != Some(TypeName(value))
  {
    hide Get, TextOf, AsObject;
  }

  lemma OneKindPerName(a: Kind, b: Kind)
    requires ResponsesName(a).Some? && ResponsesName(a) == ResponsesName(b)
    ensures a == b
  {
  }

  /** The fields of an event are the texts at their places. */
  predicate ReadsAs(value: Object, e: Event)
  {
    var item := AsObject(Get(value, "item"));
    match e.kind
    case ItemAdded =>
      && e.itemId == TextOf(Get(item, "id")) && e.itemKind == TextOf(Get(item, "type")) && e.callId == TextOf(Get(item, "call_id"))
      && e.outputIndex == IndexValue(Get(value, "output_index"))
    case ItemDone => e.itemId == TextOf(Get(item, "id")) && e.callId == TextOf(Get(item, "call_id"))
    case ArgumentsDelta =>
      && e.itemId == TextOf(Get(value, "item_id")) && e.callId == TextOf(Get(value, "call_id"))
      && e.delta == TextOf(Get(value, "delta"))
    case ArgumentsDone =>
      && e.itemId == TextOf(Get(value, "item_id")) && e.callId == TextOf(Get(value, "call_id"))
      && e.arguments == TextOf(Get(value, "arguments"))
    case _ => true
  }

  /** Reading is decided by the name and the texts at the places of its kind. */
  lemma ReadIff(value: Object, e: Event)
    ensures ReadResponses(value) == Some(e) <==>
            Sayable(e) && ResponsesName(e.kind) == Some(TypeName(value)) && ReadsAs(value, e)
  {
    hide Sayable, ResponsesName;
    ReadKind(value);
    if ResponsesName(e.kind) == Some(TypeName(value)) && ReadResponses(value).Some? {
      OneKindPerName(e.kind, ReadResponses(value).value.kind);
      ReadFields(value);
      if Sayable(e) && ReadsAs(value, e) { SayableFields(value, e, ReadResponses(value).value); }
    } else if ReadResponses(value) == Some(e) {
      ReadFields(value);
    }
  }

  lemma ReadFields(value: Object)
    requires ReadResponses(value).Some?
    ensures ReadsAs(value, ReadResponses(value).value)
  {
    hide Get, TextOf, AsObject, IndexValue;
  }

  lemma SayableFields(value: Object, a: Event, b: Event)
    requires Sayable(a) && Sayable(b) && a.kind == b.kind && ReadsAs(value, a) && ReadsAs(value, b)
    ensures a == b
  {
  }

  lemma WireReads(value: Object, e: Event)
    requires Sayable(e) && Extends(value, ResponsesWire(e))
    ensures ResponsesName(e.kind) == Some(TypeName(value)) && ReadsAs(value, e)
  {
    hide TextOf, AsObject, IndexValue, Extends, Get;
    var wire := ResponsesWire(e);
    TextAt(value, wire, "type", ResponsesName(e.kind).value);
    match e.kind {
      case ItemAdded =>
        IndexAt(value, wire, "output_index", e.outputIndex);
        InnerTextAt(value, wire, "item", wire["item"].fields, "id", e.itemId);
        InnerTextAt(value, wire, "item", wire["item"].fields, "type", e.itemKind);
        InnerTextAt(value, wire, "item", wire["item"].fields, "call_id", e.callId);
      case ArgumentsDelta =>
        TextAt(value, wire, "item_id", e.itemId);
        TextAt(value, wire, "call_id", e.callId);
        TextAt(value, wire, "delta", e.delta);
      case ArgumentsDone =>
        TextAt(value, wire, "item_id", e.itemId);
        TextAt(value, wire, "call_id", e.callId);
        TextAt(value, wire, "arguments", e.arguments);
      case ItemDone =>
        InnerTextAt(value, wire, "item", wire["item"].fields, "id", e.itemId);
        InnerTextAt(value, wire, "item", wire["item"].fields, "call_id", e.callId);
      case _ =>
    }
  }

  /** A Responses object that says at least what an event's encoding says is read as that event;
      an object with any other type name is ignored. */
  lemma ResponsesRoundTrip(value: Object, e: Event)
    ensures Sayable(e) && Extends(value, ResponsesWire(e)) ==> ReadResponses(value) == Some(e)
    ensures ReadResponses(value).None? <==> forall kind :: ResponsesName(kind) != Some(TypeName(value))
  {
    hide Extends, ReadsAs, ResponsesWire, ReadResponses;
    ReadKind(value);
    if Sayable(e) && Extends(value, ResponsesWire(e)) {
      WireReads(value, e);
      ReadIff(value, e);
    }
  }

  // ----- Chat

  /** A tool call of a chunk; an index below zero stands for one that is no nonnegative number. */
  function FragmentWire(f: Fragment): Object
  {
    map["index" := IndexJson(f.index), "id" := Str(f.callId), "function" := Obj(map["arguments" := Str(f.text)])]
  }

  ghost predicate SaysFragment(call: Json, f: Fragment)
  {
    call.Obj? && f.index >= -1 && Extends(call.fields, FragmentWire(f))
  }

  /** The tool calls of a choice, if it has a list of them. */
  function CallsIn(choice: Object): Option<seq<Json>>
  {
    if "delta" in choice && choice["delta"].Obj? && "tool_calls" in choice["delta"].fields && choice["delta"].fields["tool_calls"].Arr?
    then Some(choice["delta"].fields["tool_calls"].items) else None
  }

  /** A choice lists exactly these fragments, or none and no list. */
  ghost predicate SaysCalls(choice: Object, fragments: seq<Fragment>)
  {
    match CallsIn(choice)
    case Some(calls) => |calls| == |fragments| && forall i :: 0 <= i < |calls| ==> SaysFragment(calls[i], fragments[i])
    case None => fragments == []
  }

  /** A choice finishes exactly if its reason is a string, even an empty one. */
  predicate SaysFinish(choice: Object, finish: Option<string>)
  {
    match finish
    case Some(reason) => "finish_reason" in choice && choice["finish_reason"] == Str(reason)
    case None => "finish_reason" in choice ==> !choice["finish_reason"].Str?
  }

  /** The first choice of a chunk, if it has one. */
  function ChoiceIn(value: Object): Option<Object>
  {
    if "choices" in value && value["choices"].Arr? && value["choices"].items != [] && value["choices"].items[0].Obj?
    then Some(value["choices"].items[0].fields) else None
  }

  ghost predicate SaysChunk(value: Object, chunk: ChatChunk)
  {
    match ChoiceIn(value)
    case Some(choice) => SaysCalls(choice, chunk.fragments) && SaysFinish(choice, chunk.finish)
    case None => chunk == ChatChunk([], None)
  }

  lemma FragmentRoundTrip(call: Json, f: Fragment)
    requires SaysFragment(call, f)
    ensures ReadFragment(call) == f
  {
    hide Extends, TextOf, IndexValue, Get;
    IndexAt(call.fields, FragmentWire(f), "index", f.index);
    TextAt(call.fields, FragmentWire(f), "id", f.callId);
    InnerTextAt(call.fields, FragmentWire(f), "function", map["arguments" := Str(f.text)], "arguments", f.text);
  }

  lemma CallsRoundTrip(choice: Object, fragments: seq<Fragment>)
    requires SaysCalls(choice, fragments)
    ensures var calls := AsArray(Get(AsObject(Get(choice, "delta")), "tool_calls"));
            |calls| == |fragments| && forall i :: 0 <= i < |calls| ==> ReadFragment(calls[i]) == fragments[i]
  {
    hide SaysFragment, ReadFragment;
    if CallsIn(choice).Some? {
      var calls := CallsIn(choice).value;
      forall i | 0 <= i < |calls| ensures ReadFragment(calls[i]) == fragments[i] { FragmentRoundTrip(calls[i], fragments[i]); }
    }
  }

  /** A chunk is read as what its first choice says; other choices and members are ignored, and so is a chunk without a choice. */
  lemma ChatRoundTrip(value: Object, chunk: ChatChunk)
    requires SaysChunk(value, chunk)
    ensures ReadChat(value) == chunk
  {
    hide SaysCalls, ReadFragment;
    if ChoiceIn(value).Some? {
      var choice := ChoiceIn(value).value;
      CallsRoundTrip(choice, chunk.fragments);
      var calls := AsArray(Get(AsObject(Get(choice, "delta")), "tool_calls"));
      assert seq(|calls|, i requires 0 <= i < |calls| => ReadFragment(calls[i])) == chunk.fragments;
    }
  }

  // ----- Anthropic

  function AnthropicName(e: AnthropicEvent): string
  {
    match e
    case MessageStart => "message_start"
    case BlockStart(_, _, _) => "content_block_start"
    case BlockDelta(_, _) => "content_block_delta"
    case BlockStop(_) => "content_block_stop"
    case MessageStop => "message_stop"
    case Ignored => ""
  }

  function AnthropicWire(e: AnthropicEvent): Object
  {
    match e
    case BlockStart(index, kind, callId) =>
      map["index" := IndexJson(index), "content_block" := Obj(map["type" := Str(kind), "id" := Str(callId)])]
    case BlockDelta(index, partial) =>
      map["index" := IndexJson(index), "delta" := Obj(map["type" := Str("input_json_delta"), "partial_json" := Str(partial)])]
    case BlockStop(index) => map["index" := IndexJson(index)]
    case _ => map[]
  }

  predicate NumberedBlock(e: AnthropicEvent)
  {
    match e
    case BlockStart(index, _, _) => index >= -1
    case BlockDelta(index, _) => index >= -1
    case BlockStop(index) => index >= -1
    case _ => true
  }

  lemma DeltaTypeAt(value: Object, wire: Object, fields: Object)
    requires Extends(value, wire) && "delta" in wire && wire["delta"] == Obj(fields)
    requires "type" in fields && fields["type"].Str? && fields["type"].text != ""
    ensures Get(AsObject(Get(value, "delta")), "type") == fields["type"]
  {
  }

  /** Another event name, or a delta that is not one of tool input. */
  predicate Silent(name: string, value: Object)
  {
    if name == "content_block_delta" then
      !("delta" in value && value["delta"].Obj? && "type" in value["delta"].fields &&
        value["delta"].fields["type"] == Str("input_json_delta"))
    else name !in {"message_start", "content_block_start", "content_block_stop", "message_stop"}
  }

  lemma SilentDelta(value: Object)
    ensures Silent("content_block_delta", value) <==> Get(AsObject(Get(value, "delta")), "type") != Str("input_json_delta")
  {
  }

  /** An Anthropic object under its event name is read back; everything else is ignored, and so is a delta of another type. */
  lemma AnthropicRoundTrip(name: string, value: Object, e: AnthropicEvent)
    ensures e != Ignored && NumberedBlock(e) && name == AnthropicName(e) && Extends(value, AnthropicWire(e)) ==>
              ReadAnthropic(name, value) == e
    ensures ReadAnthropic(name, value) == Ignored <==> Silent(name, value)
  {
    hide TextOf, AsObject, IndexValue, Get, Extends;
    SilentDelta(value);
    if e != Ignored && NumberedBlock(e) && name == AnthropicName(e) && Extends(value, AnthropicWire(e)) {
      var wire := AnthropicWire(e);
      match e {
        case BlockStart(index, kind, callId) =>
          IndexAt(value, wire, "index", index);
          InnerTextAt(value, wire, "content_block", wire["content_block"].fields, "type", kind);
          InnerTextAt(value, wire, "content_block", wire["content_block"].fields, "id", callId);
        case BlockDelta(index, partial) =>
          IndexAt(value, wire, "index", index);
          DeltaTypeAt(value, wire, wire["delta"].fields);
          InnerTextAt(value, wire, "delta", wire["delta"].fields, "partial_json", partial);
        case BlockStop(index) => IndexAt(value, wire, "index", index);
        case _ =>
      }
    }
  }

  // ----- what the decoder emits

  /** Events are numbered by position and hold no more than the protocol can say about their kind. */
  ghost predicate Lean(events: seq<Event>)
  {
    forall i :: 0 <= i < |events| ==> events[i].sequence == i + 1 && Sayable(events[i].(sequence := 0))
  }

  lemma EmitLean(d: Decoding, e: Event)
    requires Lean(d.events) && Sayable(e.(sequence := 0))
    ensures Lean(Emit(d, e).events)
  {
    hide Sayable;
    var numbered := e.(sequence := |d.events| + 1);
    assert numbered.(sequence := 0) == e.(sequence := 0);
  }

  lemma EmittedSayable(tool: Tool, itemId: string, kind: string, index: int, callId: string, text: string)
    ensures Sayable(Bare(Created)) && Sayable(Bare(Completed)) && (index >= -1 ==> Sayable(Added(itemId, kind, index, callId)))
    ensures Sayable(Delta(tool, callId, text)) && Sayable(ArgsDoneOf(tool)) && Sayable(ItemDoneOf(tool))
  {
  }

  lemma Unnumbered(e: Event)
    requires e.sequence == 0
    ensures e.(sequence := 0) == e
  {
  }

  lemma CreatedLean(d: Decoding)
    requires Lean(d.events)
    ensures Lean(EnsureCreated(d).events)
  {
    hide Lean;
    EmittedSayable(Tool("", "", ""), "", "", 0, "", "");
    Unnumbered(Bare(Created));
    if !d.chatCreated { EmitLean(d.(chatCreated := true), Bare(Created)); }
  }

  lemma FragmentLean(d: Decoding, f: Fragment)
    requires Lean(d.events) && f.index >= -1
    ensures Lean(ChatFragment(d, f).events)
  {
    hide Lean, ChatItemId, Sayable;
    var id := ChatItemId(f.index);
    var ready := OpenTool(d, f);
    var tool := ready.chatTools[f.index];
    EmittedSayable(tool, id, FUNCTION_CALL, f.index, f.callId, f.text);
    Unnumbered(Added(id, FUNCTION_CALL, f.index, f.callId));
    Unnumbered(Delta(tool, f.callId, f.text));
    if f.index !in d.chatTools {
      EmitLean(d.(chatTools := d.chatTools[f.index := Tool(id, f.callId, "")]), Added(id, FUNCTION_CALL, f.index, f.callId));
    }
    EmitLean(ready.(chatTools := ready.chatTools[f.index := tool.(arguments := tool.arguments + f.text)]), Delta(tool, f.callId, f.text));
  }

  lemma {:induction false} FragmentsLean(d: Decoding, fragments: seq<Fragment>)
    requires Lean(d.events) && forall i :: 0 <= i < |fragments| ==> fragments[i].index >= -1
    ensures Lean(ChatFragments(d, fragments).events)
  {
    hide Lean, ChatFragment;
    if fragments != [] {
      var n := |fragments| - 1;
      FragmentsLean(d, fragments[..n]);
      FragmentLean(ChatFragments(d, fragments[..n]), fragments[n]);
    }
  }

  lemma {:induction false} CloseLean(d: Decoding, indexes: seq<int>)
    requires Lean(d.events)
    ensures Lean(CloseTools(d, indexes).events)
  {
    hide Lean, Sayable;
    if indexes != [] {
      var n := |indexes| - 1;
      CloseLean(d, indexes[..n]);
      var before := CloseTools(d, indexes[..n]);
      if indexes[n] in before.chatTools {
        var tool := before.chatTools[indexes[n]];
        EmittedSayable(tool, "", "", 0, "", "");
        Unnumbered(ArgsDoneOf(tool));
        Unnumbered(ItemDoneOf(tool));
        EmitLean(before, ArgsDoneOf(tool));
        EmitLean(Emit(before, ArgsDoneOf(tool)), ItemDoneOf(tool));
      }
    }
  }

  lemma ChatLean(d: Decoding, value: Object)
    requires Lean(d.events)
    ensures Lean(ConsumeChat(d, ReadChat(value)).events)
  {
    hide Lean, ChatFragments, CloseTools, EnsureCreated;
    var chunk := ReadChat(value);
    CreatedLean(d);
    FragmentsLean(EnsureCreated(d), chunk.fragments);
    var read := ChatFragments(EnsureCreated(d), chunk.fragments);
    CloseLean(read, Sorting.Ascend(read.chatTools.Keys));
  }

  lemma AnthropicLean(d: Decoding, e: AnthropicEvent)
    requires Lean(d.events) && NumberedBlock(e)
    ensures Lean(ConsumeAnthropic(d, e).events)
  {
    hide Lean, Sayable, AnthropicItemId;
    match e {
      case BlockStart(index, kind, callId) =>
        var id, itemKind := AnthropicItemId(index), if kind == "tool_use" then FUNCTION_CALL else kind;
        EmittedSayable(Tool("", "", ""), id, itemKind, index, callId, "");
        Unnumbered(Added(id, itemKind, index, callId));
        EmitLean(d.(anthropicItems := d.anthropicItems[index := Tool(id, callId, "")]), Added(id, itemKind, index, callId));
      case BlockDelta(index, partial) =>
        if index in d.anthropicItems {
          var tool := d.anthropicItems[index];
          EmittedSayable(tool, "", "", 0, tool.callId, partial);
          Unnumbered(Delta(tool, tool.callId, partial));
          EmitLean(d.(anthropicItems := d.anthropicItems[index := tool.(arguments := tool.arguments + partial)]), Delta(tool, tool.callId, partial));
        }
      case BlockStop(index) =>
        if index in d.anthropicItems {
          var tool := d.anthropicItems[index];
          EmittedSayable(tool, "", "", 0, "", "");
          Unnumbered(ArgsDoneOf(tool));
          Unnumbered(ItemDoneOf(tool));
          EmitLean(d, ArgsDoneOf(tool));
          EmitLean(if tool.callId != "" then Emit(d, ArgsDoneOf(tool)) else d, ItemDoneOf(tool));
        }
      case _ =>
        EmittedSayable(Tool("", "", ""), "", "", 0, "", "");
        EmitLean(d, Bare(Created));
        EmitLean(d, Bare(Completed));
    }
  }

  lemma BlocksNumbered(name: string, value: Object)
    ensures NumberedBlock(ReadAnthropic(name, value))
  {
    hide TextOf, AsObject, Get;
  }

  lemma ConsumeLean(d: Decoding, protocol: Protocol, frame: Frame, decode: Decode)
    requires Lean(d.events)
    ensures Lean(Consume(d, protocol, frame, decode).events)
  {
    hide Lean, Sayable, ConsumeChat, ReadChat, ConsumeAnthropic, ReadAnthropic, ReadResponses, EnsureCreated;
    CreatedLean(d);
    EmittedSayable(Tool("", "", ""), "", "", 0, "", "");
    Unnumbered(Bare(Completed));
    EmitLean(EnsureCreated(d), Bare(Completed));
    if decode(frame.data).Some? {
      var value := decode(frame.data).value;
      ChatLean(d, value);
      BlocksNumbered(frame.event, value);
      AnthropicLean(d, ReadAnthropic(frame.event, value));
      ReadKind(value);
      if ReadResponses(value).Some? {
        var e := ReadResponses(value).value;
        assert e.sequence == 0 by { SayableZero(e); }
        Unnumbered(e);
        EmitLean(d, e);
      }
    }
  }

  lemma SayableZero(e: Event)
    requires Sayable(e)
    ensures e.sequence == 0
  {
  }

  /** Every decoded event is numbered by its position and holds only what its kind can say. */
  lemma {:induction false} DecodedAreLean(protocol: Protocol, frames: seq<Frame>, decode: Decode)
    ensures Lean(DecodeAll(protocol, frames, decode).events)
  {
    hide Consume, Sayable;
    if frames != [] {
      var n := |frames| - 1;
      DecodedAreLean(protocol, frames[..n], decode);
      ConsumeLean(DecodeAll(protocol, frames[..n], decode), protocol, frames[n], decode);
    }
  }
}
