/**
 What the decoder guarantees about every stream: its numbering, its agreement
 with the terminal count kept beside it, and the violations it can never cause.
 */
module StreamTheorems {
  import opened Common
  import opened Lifecycle
  import opened LifecycleGrammar
  import opened StreamDecoder
  import Decimal
  import Sorting

  // ----- the terminal count

  lemma TerminalsSnoc(trace: seq<Event>, e: Event)
    ensures Terminals(trace + [e]) == Terminals(trace) + if IsTerminal(e.kind) then 1 else 0
  {
    assert (trace + [e])[..|trace|] == trace;
  }

  lemma EmitTerminals(d: Decoding, e: Event)
    ensures Terminals(Emit(d, e).events) == Terminals(d.events) + if IsTerminal(e.kind) then 1 else 0
  {
    TerminalsSnoc(d.events, e.(sequence := |d.events| + 1));
  }

  lemma CreatedTerminals(d: Decoding)
    ensures Terminals(EnsureCreated(d).events) == Terminals(d.events)
  {
    EmitTerminals(d.(chatCreated := true), Bare(Created));
  }

  lemma {:induction false} FragmentsTerminals(d: Decoding, fragments: seq<Fragment>)
    ensures Terminals(ChatFragments(d, fragments).events) == Terminals(d.events)
  {
    hide Terminals, ChatItemId, Emit;
    if fragments != [] {
      var f := fragments[|fragments| - 1];
      FragmentsTerminals(d, fragments[..|fragments| - 1]);
      var before := ChatFragments(d, fragments[..|fragments| - 1]);
      var ready := OpenTool(before, f);
      EmitTerminals(before.(chatTools := before.chatTools[f.index := Tool(ChatItemId(f.index), f.callId, "")]),
                    Added(ChatItemId(f.index), FUNCTION_CALL, f.index, f.callId));
      var tool := ready.chatTools[f.index];
      EmitTerminals(ready.(chatTools := ready.chatTools[f.index := tool.(arguments := tool.arguments + f.text)]),
                    Delta(tool, f.callId, f.text));
    }
  }

  lemma {:induction false} CloseTerminals(d: Decoding, indexes: seq<int>)
    ensures Terminals(CloseTools(d, indexes).events) == Terminals(d.events)
  {
    hide Terminals, Emit;
    if indexes != [] {
      CloseTerminals(d, indexes[..|indexes| - 1]);
      var before := CloseTools(d, indexes[..|indexes| - 1]);
      var index := indexes[|indexes| - 1];
      if index in before.chatTools {
        EmitTerminals(before, ArgsDoneOf(before.chatTools[index]));
        EmitTerminals(Emit(before, ArgsDoneOf(before.chatTools[index])), ItemDoneOf(before.chatTools[index]));
      }
    }
  }

  lemma ChatTerminals(d: Decoding, chunk: ChatChunk)
    ensures Terminals(ConsumeChat(d, chunk).events) == Terminals(d.events)
  {
    hide Terminals, ChatFragments, CloseTools, EnsureCreated;
    CreatedTerminals(d);
    FragmentsTerminals(EnsureCreated(d), chunk.fragments);
    var read := ChatFragments(EnsureCreated(d), chunk.fragments);
    CloseTerminals(read, Sorting.Ascend(read.chatTools.Keys));
  }

  lemma AnthropicTerminals(d: Decoding, e: AnthropicEvent)
    ensures Terminals(ConsumeAnthropic(d, e).events) == Terminals(d.events) + if e.MessageStop? then 1 else 0
  {
    hide Terminals, Emit, AnthropicItemId;
    match e
    case MessageStart => EmitTerminals(d, Bare(Created));
    case BlockStart(index, kind, callId) =>
      var id := AnthropicItemId(index);
      EmitTerminals(d.(anthropicItems := d.anthropicItems[index := Tool(id, callId, "")]),
                    Added(id, if kind == "tool_use" then FUNCTION_CALL else kind, index, callId));
    case BlockDelta(index, partial) =>
      if index in d.anthropicItems {
        var tool := d.anthropicItems[index];
        EmitTerminals(d.(anthropicItems := d.anthropicItems[index := tool.(arguments := tool.arguments + partial)]),
                      Delta(tool, tool.callId, partial));
      }
    case BlockStop(index) =>
      if index in d.anthropicItems {
        var tool := d.anthropicItems[index];
        EmitTerminals(d, ArgsDoneOf(tool));
        EmitTerminals(if tool.callId != "" then Emit(d, ArgsDoneOf(tool)) else d, ItemDoneOf(tool));
      }
    case MessageStop => EmitTerminals(d, Bare(Completed));
    case Ignored =>
  }

  lemma ResponsesTerminals(value: Object)
    ensures (ReadResponses(value).Some? && IsTerminal(ReadResponses(value).value.kind)) <==> TerminalName(TypeName(value)).Some?
  {
  }

  lemma AnthropicStops(name: string, value: Object)
    ensures ReadAnthropic(name, value).MessageStop? <==> name == "message_stop"
  {
  }

  lemma ConsumeTerminals(d: Decoding, protocol: Protocol, frame: Frame, decode: Decode)
    ensures Terminals(Consume(d, protocol, frame, decode).events) ==
            Terminals(d.events) + if CountedMarker(protocol, frame, decode).Some? then 1 else 0
  {
    hide Terminals, IsDone, EnsureCreated, ConsumeChat, ConsumeAnthropic, ReadChat, ReadAnthropic, ReadResponses, TerminalName, TypeName, Emit;
    if IsDone(frame.data) {
      CreatedTerminals(d);
      EmitTerminals(EnsureCreated(d), Bare(Completed));
    } else if decode(frame.data).Some? {
      var value := decode(frame.data).value;
      match protocol {
        case Chat => ChatTerminals(d, ReadChat(value));
        case Anthropic =>
          AnthropicTerminals(d, ReadAnthropic(frame.event, value));
          AnthropicStops(frame.event, value);
        case Responses =>
          ResponsesTerminals(value);
          if ReadResponses(value).Some? { EmitTerminals(d, ReadResponses(value).value); }
        case OtherProtocol =>
      }
    }
  }

  /** For every protocol and every stream, the separate counter and the decoder agree. */
  lemma {:induction false} CountersAgree(protocol: Protocol, frames: seq<Frame>, decode: Decode)
    ensures CountMarkers(protocol, frames, decode) == Terminals(DecodeAll(protocol, frames, decode).events)
  {
    hide Consume, CountedMarker;
    if frames != [] {
      var n := |frames| - 1;
      CountersAgree(protocol, frames[..n], decode);
      ConsumeTerminals(DecodeAll(protocol, frames[..n], decode), protocol, frames[n], decode);
    }
  }

  // ----- violations the decoder cannot cause

  function ItemName(protocol: Protocol, index: int): string
  {
    if protocol == Chat then ChatItemId(index) else AnthropicItemId(index)
  }

  lemma ItemNameInjective(protocol: Protocol, i: int, j: int)
    requires ItemName(protocol, i) == ItemName(protocol, j)
    ensures i == j
  {
    hide Decimal.Itoa;
    var prefix := if protocol == Chat then "chat-tool-" else "anthropic-item-";
    assert ItemName(protocol, i) == prefix + Decimal.Itoa(i) && ItemName(protocol, j) == prefix + Decimal.Itoa(j);
    assert Decimal.Itoa(i) == ItemName(protocol, i)[|prefix|..] == ItemName(protocol, j)[|prefix|..] == Decimal.Itoa(j);
    Decimal.ItoaInjective(i, j);
  }

  lemma RunSnoc(trace: seq<Event>, e: Event)
    ensures Run(trace + [e]) == match Run(trace) case Err(v) => Err(v) case Ok(s) => Transition(s, e)
  {
    assert (trace + [e])[..|trace|] == trace;
  }

  ghost predicate Named(protocol: Protocol, tools: map<int, Tool>)
  {
    forall i :: i in tools ==> tools[i].itemId == ItemName(protocol, i)
  }

  /** The machine has gathered for each tool what the decoder has gathered. */
  ghost predicate SameArguments(s: Lifecycle.State, tools: map<int, Tool>)
  {
    forall i :: i in tools && tools[i].itemId in s.items ==> s.items[tools[i].itemId].arguments == tools[i].arguments
  }

  ghost predicate Harmless(v: Violation)
  {
    v != ArgumentsReconstructionMismatch && v != NonMonotonicSequence
  }

  /** The run so far has not failed in one of the two ways, and the machine
      state, if there is one, agrees with the decoder's tools. */
  ghost predicate Synced(protocol: Protocol, events: seq<Event>, tools: map<int, Tool>)
  {
    && Named(protocol, tools)
    && match Run(events)
       case Err(v) => Harmless(v)
       case Ok(s) => s.nextSequence == |events| + 1 && SameArguments(s, tools)
  }

  /** Only a differing arguments.done can be a reconstruction mismatch. */
  lemma MismatchCause(s: Lifecycle.State, e: Event)
    requires e.sequence == s.nextSequence
    ensures Transition(s, e) == Err(ArgumentsReconstructionMismatch) ==>
              e.kind == ArgumentsDone && e.itemId in s.items && e.arguments != s.items[e.itemId].arguments
    ensures Transition(s, e) != Err(NonMonotonicSequence)
    ensures Transition(s, e).Ok? ==> Effect(s, e).Ok? && Transition(s, e).value.nextSequence == s.nextSequence + 1 &&
                                     Transition(s, e).value.items == Effect(s, e).value.items
  {
    hide IsFunctionCall;
  }

  lemma QuietKeeps(s: Lifecycle.State, e: Event, tools: map<int, Tool>)
    requires SameArguments(s, tools) && Effect(s, e).Ok? && e.kind != ItemAdded && e.kind != ArgumentsDelta
    ensures SameArguments(Effect(s, e).value, tools)
  {
    hide Effect;
    ItemsEffect(s, e);
  }

  lemma AddedKeeps(s: Lifecycle.State, e: Event, tools: map<int, Tool>, index: int)
    requires SameArguments(s, tools) && Effect(s, e).Ok? && e.kind == ItemAdded
    requires forall i :: i in tools && i != index ==> tools[i].itemId != e.itemId
    ensures SameArguments(Effect(s, e).value, tools[index := Tool(e.itemId, e.callId, "")])
  {
    hide Effect;
    ItemsEffect(s, e);
  }

  lemma TextKeeps(s: Lifecycle.State, e: Event, tools: map<int, Tool>, index: int)
    requires SameArguments(s, tools) && Effect(s, e).Ok? && e.kind == ArgumentsDelta
    requires index in tools && tools[index].itemId == e.itemId
    requires forall i :: i in tools && i != index ==> tools[i].itemId != e.itemId
    ensures SameArguments(Effect(s, e).value, tools[index := tools[index].(arguments := tools[index].arguments + e.delta)])
  {
    hide Effect;
    ItemsEffect(s, e);
  }

  /** The common part of every emission. */
  lemma EmitStep(protocol: Protocol, d: Decoding, e: Event, tools: map<int, Tool>, after: map<int, Tool>)
    requires Synced(protocol, d.events, tools) && Named(protocol, after)
    requires var numbered := e.(sequence := |d.events| + 1);
             Run(d.events).Ok? ==>
               var s := Run(d.events).value;
               && (Effect(s, numbered).Ok? ==> SameArguments(Effect(s, numbered).value, after))
               && (e.kind == ArgumentsDone && e.itemId in s.items ==> e.arguments == s.items[e.itemId].arguments)
    ensures Synced(protocol, Emit(d, e).events, after)
  {
    hide Effect, Transition, Named, Run;
    var numbered := e.(sequence := |d.events| + 1);
    RunSnoc(d.events, numbered);
    if Run(d.events).Ok? { MismatchCause(Run(d.events).value, numbered); }
  }

  /** An event that adds no item and no text. */
  lemma EmitQuiet(protocol: Protocol, d: Decoding, e: Event, tools: map<int, Tool>)
    requires Synced(protocol, d.events, tools)
    requires e.kind != ItemAdded && e.kind != ArgumentsDelta
    requires e.kind == ArgumentsDone ==> exists i :: i in tools && e.itemId == tools[i].itemId && e.arguments == tools[i].arguments
    ensures Synced(protocol, Emit(d, e).events, tools)
  {
    hide Effect, Run;
    var numbered := e.(sequence := |d.events| + 1);
    if Run(d.events).Ok? && Effect(Run(d.events).value, numbered).Ok? {
      QuietKeeps(Run(d.events).value, numbered, tools);
    }
    EmitStep(protocol, d, e, tools, tools);
  }

  lemma OtherNames(protocol: Protocol, tools: map<int, Tool>, index: int)
    requires Named(protocol, tools)
    ensures forall i :: i in tools && i != index ==> tools[i].itemId != ItemName(protocol, index)
  {
    hide ItemName;
    forall i | i in tools && tools[i].itemId == ItemName(protocol, index) ensures i == index {
      ItemNameInjective(protocol, i, index);
    }
  }

  /** A new item, under a name no other tool has. */
  lemma EmitAdded(protocol: Protocol, d: Decoding, tools: map<int, Tool>, index: int, kind: string, callId: string)
    requires Synced(protocol, d.events, tools)
    ensures var id := ItemName(protocol, index);
            Synced(protocol, Emit(d, Added(id, kind, index, callId)).events, tools[index := Tool(id, callId, "")])
  {
    hide Effect, Run, ItemName, SameArguments;
    var e := Added(ItemName(protocol, index), kind, index, callId);
    var numbered := e.(sequence := |d.events| + 1);
    OtherNames(protocol, tools, index);
    if Run(d.events).Ok? && Effect(Run(d.events).value, numbered).Ok? {
      AddedKeeps(Run(d.events).value, numbered, tools, index);
    }
    EmitStep(protocol, d, e, tools, tools[index := Tool(e.itemId, callId, "")]);
  }

  /** More text for one tool. */
  lemma EmitText(protocol: Protocol, d: Decoding, tools: map<int, Tool>, index: int, callId: string, text: string)
    requires Synced(protocol, d.events, tools) && index in tools
    ensures var tool := tools[index];
            Synced(protocol, Emit(d, Delta(tool, callId, text)).events, tools[index := tool.(arguments := tool.arguments + text)])
  {
    hide Effect, Run, ItemName, SameArguments;
    var tool := tools[index];
    var e := Delta(tool, callId, text);
    var numbered := e.(sequence := |d.events| + 1);
    OtherNames(protocol, tools, index);
    if Run(d.events).Ok? && Effect(Run(d.events).value, numbered).Ok? {
      TextKeeps(Run(d.events).value, numbered, tools, index);
    }
    EmitStep(protocol, d, e, tools, tools[index := tool.(arguments := tool.arguments + text)]);
  }

  lemma CreatedSynced(protocol: Protocol, d: Decoding, tools: map<int, Tool>)
    requires Synced(protocol, d.events, tools)
    ensures Synced(protocol, EnsureCreated(d).events, tools)
    ensures EnsureCreated(d).chatTools == d.chatTools && EnsureCreated(d).anthropicItems == d.anthropicItems
  {
    hide Synced;
    EmitQuiet(protocol, d.(chatCreated := true), Bare(Created), tools);
  }

  lemma FragmentSynced(d: Decoding, f: Fragment)
    requires Synced(Chat, d.events, d.chatTools)
    ensures var r := ChatFragment(d, f); Synced(Chat, r.events, r.chatTools)
  {
    hide Synced, ChatItemId;
    if f.index !in d.chatTools {
      EmitAdded(Chat, d.(chatTools := d.chatTools[f.index := Tool(ChatItemId(f.index), f.callId, "")]), d.chatTools,
                f.index, FUNCTION_CALL, f.callId);
    }
    var ready := OpenTool(d, f);
    assert Synced(Chat, ready.events, ready.chatTools);
    if f.text != "" {
      var tool := ready.chatTools[f.index];
      EmitText(Chat, ready.(chatTools := ready.chatTools[f.index := tool.(arguments := tool.arguments + f.text)]),
               ready.chatTools, f.index, f.callId, f.text);
    }
  }

  lemma {:induction false} FragmentsSynced(d: Decoding, fragments: seq<Fragment>)
    requires Synced(Chat, d.events, d.chatTools)
    ensures var r := ChatFragments(d, fragments); Synced(Chat, r.events, r.chatTools)
  {
    hide Synced, ChatFragment;
    if fragments != [] {
      FragmentsSynced(d, fragments[..|fragments| - 1]);
      FragmentSynced(ChatFragments(d, fragments[..|fragments| - 1]), fragments[|fragments| - 1]);
    }
  }

  lemma CloseSynced(d: Decoding, index: int, tools: map<int, Tool>, protocol: Protocol)
    requires Synced(protocol, d.events, tools) && index in tools
    ensures Synced(protocol, Emit(Emit(d, ArgsDoneOf(tools[index])), ItemDoneOf(tools[index])).events, tools)
    ensures Synced(protocol, Emit(d, ItemDoneOf(tools[index])).events, tools)
  {
    hide Synced;
    EmitQuiet(protocol, d, ArgsDoneOf(tools[index]), tools);
    EmitQuiet(protocol, Emit(d, ArgsDoneOf(tools[index])), ItemDoneOf(tools[index]), tools);
    EmitQuiet(protocol, d, ItemDoneOf(tools[index]), tools);
  }

  lemma {:induction false} CloseAllSynced(d: Decoding, indexes: seq<int>)
    requires Synced(Chat, d.events, d.chatTools)
    ensures Synced(Chat, CloseTools(d, indexes).events, d.chatTools)
  {
    hide Synced, Emit;
    if indexes != [] {
      CloseAllSynced(d, indexes[..|indexes| - 1]);
      var before := CloseTools(d, indexes[..|indexes| - 1]);
      var index := indexes[|indexes| - 1];
      if index in d.chatTools { CloseSynced(before, index, d.chatTools, Chat); }
    }
  }

  lemma ChatSynced(d: Decoding, chunk: ChatChunk)
    requires Synced(Chat, d.events, d.chatTools)
    ensures var r := ConsumeChat(d, chunk); Synced(Chat, r.events, r.chatTools)
  {
    hide Synced, EnsureCreated, ChatFragments, CloseTools;
    CreatedSynced(Chat, d, d.chatTools);
    FragmentsSynced(EnsureCreated(d), chunk.fragments);
    var read := ChatFragments(EnsureCreated(d), chunk.fragments);
    CloseAllSynced(read, Sorting.Ascend(read.chatTools.Keys));
  }

  lemma AnthropicSynced(d: Decoding, e: AnthropicEvent)
    requires Synced(Anthropic, d.events, d.anthropicItems)
    ensures var r := ConsumeAnthropic(d, e); Synced(Anthropic, r.events, r.anthropicItems)
  {
    hide Synced, AnthropicItemId;
    match e
    case MessageStart => EmitQuiet(Anthropic, d, Bare(Created), d.anthropicItems);
    case BlockStart(index, kind, callId) =>
      EmitAdded(Anthropic, d.(anthropicItems := d.anthropicItems[index := Tool(AnthropicItemId(index), callId, "")]),
                d.anthropicItems, index, if kind == "tool_use" then FUNCTION_CALL else kind, callId);
    case BlockDelta(index, partial) =>
      if index in d.anthropicItems {
        var tool := d.anthropicItems[index];
        EmitText(Anthropic, d.(anthropicItems := d.anthropicItems[index := tool.(arguments := tool.arguments + partial)]),
                 d.anthropicItems, index, tool.callId, partial);
      }
    case BlockStop(index) =>
      if index in d.anthropicItems { CloseSynced(d, index, d.anthropicItems, Anthropic); }
    case MessageStop => EmitQuiet(Anthropic, d, Bare(Completed), d.anthropicItems);
    case Ignored =>
  }

  ghost predicate StreamSynced(protocol: Protocol, d: Decoding)
  {
    Synced(protocol, d.events, if protocol == Chat then d.chatTools else if protocol == Anthropic then d.anthropicItems else map[])
  }

  lemma ConsumeSynced(d: Decoding, protocol: Protocol, frame: Frame, decode: Decode)
    requires protocol == Chat || protocol == Anthropic
    requires StreamSynced(protocol, d)
    ensures StreamSynced(protocol, Consume(d, protocol, frame, decode))
  {
    hide Synced, IsDone, ConsumeChat, ConsumeAnthropic, ReadChat, ReadAnthropic, EnsureCreated;
    if IsDone(frame.data) {
      var tools := if protocol == Chat then d.chatTools else d.anthropicItems;
      CreatedSynced(protocol, d, tools);
      EmitQuiet(protocol, EnsureCreated(d), Bare(Completed), tools);
    } else if decode(frame.data).Some? {
      if protocol == Chat { ChatSynced(d, ReadChat(decode(frame.data).value)); }
      else { AnthropicSynced(d, ReadAnthropic(frame.event, decode(frame.data).value)); }
    }
  }

  lemma {:induction false} DecodeSynced(protocol: Protocol, frames: seq<Frame>, decode: Decode)
    requires protocol == Chat || protocol == Anthropic
    ensures StreamSynced(protocol, DecodeAll(protocol, frames, decode))
  {
    hide Consume;
    if frames == [] {
      assert Run([]) == Ok(INITIAL);
    } else {
      DecodeSynced(protocol, frames[..|frames| - 1], decode);
      ConsumeSynced(DecodeAll(protocol, frames[..|frames| - 1], decode), protocol, frames[|frames| - 1], decode);
    }
  }

  /** A Chat or Anthropic stream is never blamed for a mismatch the decoder itself reconstructed. */
  lemma NeverMismatch(protocol: Protocol, frames: seq<Frame>, decode: Decode)
    requires protocol == Chat || protocol == Anthropic
    ensures Run(DecodeAll(protocol, frames, decode).events) != Err(ArgumentsReconstructionMismatch)
  {
    DecodeSynced(protocol, frames, decode);
  }

  /** Numbering alone, for protocols whose events come from the wire one to one. */
  ghost predicate InOrder(events: seq<Event>)
  {
    match Run(events)
    case Err(v) => v != NonMonotonicSequence
    case Ok(s) => s.nextSequence == |events| + 1
  }

  lemma EmitInOrder(d: Decoding, e: Event)
    requires InOrder(d.events)
    ensures InOrder(Emit(d, e).events)
  {
    hide Effect, Transition, Run;
    var numbered := e.(sequence := |d.events| + 1);
    RunSnoc(d.events, numbered);
    if Run(d.events).Ok? { MismatchCause(Run(d.events).value, numbered); }
  }

  lemma {:induction false} WireInOrder(protocol: Protocol, frames: seq<Frame>, decode: Decode)
    requires protocol == Responses || protocol == OtherProtocol
    ensures InOrder(DecodeAll(protocol, frames, decode).events)
  {
    hide InOrder, Emit, ReadResponses, IsDone;
    if frames == [] {
      EmptyInOrder();
    } else {
      WireInOrder(protocol, frames[..|frames| - 1], decode);
      var d := DecodeAll(protocol, frames[..|frames| - 1], decode);
      var frame := frames[|frames| - 1];
      EmitInOrder(d.(chatCreated := true), Bare(Created));
      EmitInOrder(EnsureCreated(d), Bare(Completed));
      if decode(frame.data).Some? && ReadResponses(decode(frame.data).value).Some? {
        EmitInOrder(d, ReadResponses(decode(frame.data).value).value);
      }
    }
  }

  lemma EmptyInOrder()
    ensures InOrder([])
  {
  }

  /** No stream of any protocol fails on sequence numbers. */
  lemma AlwaysInOrder(protocol: Protocol, frames: seq<Frame>, decode: Decode)
    ensures Run(DecodeAll(protocol, frames, decode).events) != Err(NonMonotonicSequence)
  {
    hide DecodeAll, Run;
    if protocol == Chat || protocol == Anthropic {
      DecodeSynced(protocol, frames, decode);
    } else {
      WireInOrder(protocol, frames, decode);
    }
  }
}
