/**
 Anthropic streams: exactly which streams of content blocks decode to a trace
 that the lifecycle machine accepts, said in the protocol's own terms.
 */
module AnthropicStreams {
  import opened Common
  import opened Lifecycle
  import opened StreamDecoder
  import opened BlockMirror
  import opened WireFormats

  // ----- the native stream

  datatype Native = Done | Wire(e: AnthropicEvent)

  function NativeOf(frame: Frame, decode: Decode): Native
  {
    if IsDone(frame.data) then Done
    else match decode(frame.data)
      case None => Wire(Ignored)
      case Some(value) => Wire(ReadAnthropic(frame.event, value))
  }

  function NativesOf(frames: seq<Frame>, decode: Decode): (h: seq<Native>)
    ensures |h| == |frames|
  {
    seq(|frames|, i requires 0 <= i < |frames| => NativeOf(frames[i], decode))
  }

  /** The frame carries this native event on the wire. */
  ghost predicate Carries(frame: Frame, decode: Decode, n: Native)
  {
    match n
    case Done => frame.data == "[DONE]"
    case Wire(Ignored) =>
      && frame.data != "[DONE]"
      && (decode(frame.data).Some? ==> Silent(frame.event, decode(frame.data).value))
    case Wire(e) =>
      && frame.data != "[DONE]" && decode(frame.data).Some? && frame.event == AnthropicName(e)
      && NumberedBlock(e) && Extends(decode(frame.data).value, AnthropicWire(e))
  }

  /** What the frames carry is what is read. */
  lemma CarriedAreRead(frames: seq<Frame>, decode: Decode, h: seq<Native>)
    requires |frames| == |h| && forall i :: 0 <= i < |h| ==> Carries(frames[i], decode, h[i])
    ensures NativesOf(frames, decode) == h
  {
    hide NativeOf, Carries;
    forall i | 0 <= i < |h| ensures NativesOf(frames, decode)[i] == h[i] { CarriedIsRead(frames[i], decode, h[i]); }
  }

  lemma CarriedIsRead(frame: Frame, decode: Decode, n: Native)
    requires Carries(frame, decode, n)
    ensures NativeOf(frame, decode) == n
  {
    hide Extends, AnthropicWire, AnthropicName, ReadAnthropic, Silent;
    if n.Wire? && decode(frame.data).Some? { AnthropicRoundTrip(frame.event, decode(frame.data).value, n.e); }
  }

  /** The blocks of a stream: deltas extend and stops close the block that started at their index. */
  function Blocks(h: seq<Native>): map<int, Block>
  {
    if h == [] then map[] else AfterNative(Blocks(h[..|h| - 1]), h[|h| - 1])
  }

  function AfterNative(b: map<int, Block>, n: Native): map<int, Block>
  {
    match n
    case Wire(BlockStart(k, kind, callId)) => b[k := Block(kind, callId, "", false)]
    case Wire(BlockDelta(k, partial)) => if k in b then b[k := b[k].(text := b[k].text + partial)] else b
    case Wire(BlockStop(k)) => if k in b then b[k := b[k].(stopped := true)] else b
    case _ => b
  }

  predicate Begins(n: Native) { n == Done || n == Wire(MessageStart) }

  predicate Ends(n: Native) { n == Done || n == Wire(MessageStop) }

  predicate Begun(h: seq<Native>) { exists i :: 0 <= i < |h| && Begins(h[i]) }

  predicate Over(h: seq<Native>) { exists i :: 0 <= i < |h| && Ends(h[i]) }

  /** The next event is in place after this history. */
  ghost predicate InPlace(h: seq<Native>, n: Native)
  {
    var b := Blocks(h);
    match n
    case Done => !Begun(h)
    case Wire(MessageStart) => !Begun(h)
    case Wire(BlockStart(k, kind, callId)) =>
      && Begun(h) && !Over(h) && k >= 0 && k !in b && kind != ""
      && (if IsFunctionCall(LifecycleKind(kind)) then callId != "" && !CallTaken(b, callId) else callId == "")
    case Wire(BlockDelta(k, _)) => k in b ==> !Over(h) && IsCall(b[k]) && !b[k].stopped
    case Wire(BlockStop(k)) => k in b ==> !Over(h) && !b[k].stopped
    case Wire(MessageStop) => Begun(h) && !Over(h) && forall k :: k in b ==> b[k].stopped
    case Wire(Ignored) => true
  }

  ghost predicate AllInPlace(h: seq<Native>)
  {
    forall i :: 0 <= i < |h| ==> InPlace(h[..i], h[i])
  }

  /** Every event in place, and the message over. */
  ghost predicate WellFormed(h: seq<Native>)
  {
    AllInPlace(h) && Over(h)
  }

  lemma HistorySnoc(h: seq<Native>, n: Native)
    ensures Begun(h + [n]) <==> Begun(h) || Begins(n)
    ensures Over(h + [n]) <==> Over(h) || Ends(n)
    ensures Blocks(h + [n]) == AfterNative(Blocks(h), n)
  {
    var longer := h + [n];
    assert longer[..|h|] == h && longer[|h|] == n;
    if Begun(h) { var i :| 0 <= i < |h| && Begins(h[i]); assert longer[i] == h[i]; }
    if Over(h) { var i :| 0 <= i < |h| && Ends(h[i]); assert longer[i] == h[i]; }
  }

  // ----- the machine beside the native blocks

  /** After a history in place throughout. */
  ghost predicate Related(d: Decoding, h: seq<Native>)
  {
    && Run(d.events).Ok?
    && var s := Run(d.events).value;
       && s.created == Begun(h) && s.terminal.Some? == Over(h) && (Over(h) ==> Begun(h)) && (d.chatCreated ==> Over(h))
       && (Blocks(h) != map[] ==> Begun(h))
       && Mirrors(Anthropic, s, Blocks(h)) && DecoderMirrors(Anthropic, d.anthropicItems, Blocks(h))
  }

  // ----- one native event

  function ConsumeNative(d: Decoding, n: Native): Decoding
  {
    match n
    case Done => Emit(EnsureCreated(d), Bare(Completed))
    case Wire(e) => ConsumeAnthropic(d, e)
  }

  /** The decoder and the machine follow one native event exactly when it is in place. */
  ghost predicate Follows(d: Decoding, h: seq<Native>, n: Native)
  {
    var r := ConsumeNative(d, n);
    if InPlace(h, n) then Related(r, h + [n]) else Run(r.events).Err?
  }

  lemma FollowsStart(d: Decoding, h: seq<Native>, k: int, kind: string, callId: string)
    requires Related(d, h)
    ensures Follows(d, h, Wire(BlockStart(k, kind, callId)))
  {
    hide AnthropicItemId, Mirrors, Effect, Run, CallTaken, Begun, Over, Blocks, IsFunctionCall;
    var n := Wire(BlockStart(k, kind, callId));
    HistorySnoc(h, n);
    var s, b := Run(d.events).value, Blocks(h);
    var e := Added(AnthropicItemId(k), LifecycleKind(kind), k, callId);
    var numbered := e.(sequence := |d.events| + 1);
    EmitRuns(d, e);
    if s.created {
      StartEffect(Anthropic, s, b, k, kind, callId, numbered);
      if Effect(s, numbered).Ok? && !Over(h) {
        StepMirrors(Anthropic, s, numbered, b[k := Block(kind, callId, "", false)]);
      }
    } else {
      NotCreated(s, numbered);
    }
  }

  lemma FollowsDelta(d: Decoding, h: seq<Native>, k: int, partial: string)
    requires Related(d, h)
    ensures Follows(d, h, Wire(BlockDelta(k, partial)))
  {
    hide AnthropicItemId, Mirrors, Effect, Run, Begun, Over, Blocks, IsCall;
    var n := Wire(BlockDelta(k, partial));
    HistorySnoc(h, n);
    var s, b := Run(d.events).value, Blocks(h);
    if k in b {
      var e := Delta(ToolOf(Anthropic, k, b[k]), b[k].callId, partial);
      var numbered := e.(sequence := |d.events| + 1);
      EmitRuns(d, e);
      DeltaEffect(Anthropic, s, b, k, b[k].callId, partial, numbered);
      if Effect(s, numbered).Ok? && !Over(h) { StepMirrors(Anthropic, s, numbered, b[k := b[k].(text := b[k].text + partial)]); }
    }
  }

  lemma FollowsStop(d: Decoding, h: seq<Native>, k: int)
    requires Related(d, h)
    ensures Follows(d, h, Wire(BlockStop(k)))
  {
    hide AnthropicItemId, Mirrors, Effect, Run, Begun, Over, Blocks, IsCall;
    var n := Wire(BlockStop(k));
    HistorySnoc(h, n);
    var s, b := Run(d.events).value, Blocks(h);
    if k in b {
      var tool := ToolOf(Anthropic, k, b[k]);
      var m := |d.events| + 1;
      CallsHaveIds(Anthropic, s, b, k);
      if IsCall(b[k]) {
        CloseCall(Anthropic, d, b, k);
      } else {
        StopEffect(Anthropic, s, b, k, m, m);
        EmitRuns(d, ItemDoneOf(tool));
        if !Over(h) && !b[k].stopped { StepMirrors(Anthropic, s, ItemDoneOf(tool).(sequence := m), b[k := b[k].(stopped := true)]); }
      }
    }
  }

  lemma FollowsMessageStart(d: Decoding, h: seq<Native>)
    requires Related(d, h)
    ensures Follows(d, h, Wire(MessageStart))
  {
    hide AnthropicItemId, Mirrors, Run, Begun, Over, Blocks, AddItem, AddArguments, FinishArguments, FinishItem, AcceptToolResult, FinishResponse;
    var n := Wire(MessageStart);
    HistorySnoc(h, n);
    EmitRuns(d, Bare(Created));
    var s := Run(d.events).value;
    if !s.created { CreatedMirrors(Anthropic, s, Blocks(h), s.nextSequence + 1, None); }
  }

  lemma FollowsMessageStop(d: Decoding, h: seq<Native>)
    requires Related(d, h)
    ensures Follows(d, h, Wire(MessageStop))
  {
    hide AnthropicItemId, Mirrors, Run, Begun, Over, Blocks, Effect;
    var n := Wire(MessageStop);
    HistorySnoc(h, n);
    var e := Bare(Completed);
    var numbered := e.(sequence := |d.events| + 1);
    EmitRuns(d, e);
    var s, b := Run(d.events).value, Blocks(h);
    if s.created {
      EndEffect(Anthropic, s, b, numbered);
      CreatedMirrors(Anthropic, s, b, s.nextSequence + 1, Some(Completed));
    } else {
      NotCreated(s, numbered);
    }
  }

  lemma FollowsDone(d: Decoding, h: seq<Native>)
    requires Related(d, h)
    ensures Follows(d, h, Done)
  {
    hide AnthropicItemId, Mirrors, Run, Begun, Over, Blocks, Effect;
    HistorySnoc(h, Done);
    var s, b := Run(d.events).value, Blocks(h);
    if !Begun(h) {
      DoneFromNothing(d, h);
    } else {
      DoneAgain(d);
    }
  }

  /** A sentinel before anything began makes an empty message of its own. */
  lemma DoneFromNothing(d: Decoding, h: seq<Native>)
    requires Related(d, h) && !Begun(h)
    ensures var r := ConsumeNative(d, Done);
            && Run(r.events).Ok? && Run(r.events).value.created && Run(r.events).value.terminal.Some?
            && Mirrors(Anthropic, Run(r.events).value, Blocks(h)) && r.anthropicItems == d.anthropicItems
  {
    hide AnthropicItemId, Mirrors, Run, Begun, Over, Blocks, AddItem, AddArguments, FinishArguments, FinishItem, AcceptToolResult, FinishResponse;
    var s, b := Run(d.events).value, Blocks(h);
    var created := d.(chatCreated := true);
    EmitRuns(created, Bare(Created));
    var middle := Emit(created, Bare(Created));
    CreatedMirrors(Anthropic, s, b, s.nextSequence + 1, s.terminal);
    EmitRuns(middle, Bare(Completed));
    var t := Run(middle.events).value;
    EndEffect(Anthropic, t, b, Bare(Completed).(sequence := |middle.events| + 1));
    CreatedMirrors(Anthropic, t, b, t.nextSequence + 1, Some(Completed));
  }

  /** After the message began, a sentinel is a second creation or comes after the end. */
  lemma DoneAgain(d: Decoding)
    requires Run(d.events).Ok? && Run(d.events).value.created && (d.chatCreated ==> Run(d.events).value.terminal.Some?)
    ensures Run(ConsumeNative(d, Done).events).Err?
  {
    hide Run, AddItem, AddArguments, FinishArguments, FinishItem, AcceptToolResult, FinishResponse;
    if d.chatCreated {
      EmitRuns(d, Bare(Completed));
    } else {
      var created := d.(chatCreated := true);
      EmitRuns(created, Bare(Created));
      EmitStaysFailed(Emit(created, Bare(Created)), Bare(Completed));
    }
  }

  lemma FollowsAny(d: Decoding, h: seq<Native>, n: Native)
    requires Related(d, h)
    ensures Follows(d, h, n)
  {
    hide Follows, Related;
    match n
    case Done => FollowsDone(d, h);
    case Wire(MessageStart) => FollowsMessageStart(d, h);
    case Wire(BlockStart(k, kind, callId)) => FollowsStart(d, h, k, kind, callId);
    case Wire(BlockDelta(k, partial)) => FollowsDelta(d, h, k, partial);
    case Wire(BlockStop(k)) => FollowsStop(d, h, k);
    case Wire(MessageStop) => FollowsMessageStop(d, h);
    case Wire(Ignored) => FollowsIgnored(d, h);
  }

  lemma FollowsIgnored(d: Decoding, h: seq<Native>)
    requires Related(d, h)
    ensures Follows(d, h, Wire(Ignored))
  {
    hide Mirrors, Run, Begun, Over, Blocks;
    HistorySnoc(h, Wire(Ignored));
  }

  // ----- whole streams

  function DecodeNatives(h: seq<Native>): Decoding
  {
    if h == [] then START else ConsumeNative(DecodeNatives(h[..|h| - 1]), h[|h| - 1])
  }

  lemma ConsumeOne(d: Decoding, frame: Frame, decode: Decode)
    ensures Consume(d, Anthropic, frame, decode) == ConsumeNative(d, NativeOf(frame, decode))
  {
    hide ReadAnthropic, EnsureCreated, AnthropicItemId;
  }

  lemma {:induction false} DecodeByNatives(frames: seq<Frame>, decode: Decode)
    ensures DecodeAll(Anthropic, frames, decode) == DecodeNatives(NativesOf(frames, decode))
  {
    hide Consume, ConsumeNative;
    if frames != [] {
      var n := |frames| - 1;
      DecodeByNatives(frames[..n], decode);
      ConsumeOne(DecodeAll(Anthropic, frames[..n], decode), frames[n], decode);
      assert NativesOf(frames, decode)[..n] == NativesOf(frames[..n], decode);
    }
  }

  lemma AllInPlaceSnoc(h: seq<Native>, n: Native)
    ensures AllInPlace(h + [n]) <==> AllInPlace(h) && InPlace(h, n)
  {
    hide InPlace;
    var longer := h + [n];
    assert longer[|h|] == n && longer[..|h|] == h;
    assert forall i :: 0 <= i < |h| ==> longer[i] == h[i] && longer[..i] == h[..i];
  }

  lemma ConsumeStaysFailed(d: Decoding, n: Native)
    requires Run(d.events).Err?
    ensures Run(ConsumeNative(d, n).events).Err?
  {
    hide AnthropicItemId, Run;
    forall x: Decoding, e: Event | Run(x.events).Err? ensures Run(Emit(x, e).events).Err? { EmitStaysFailed(x, e); }
  }

  lemma StartIsRelated()
    ensures Related(START, [])
  {
  }

  /** The run is good exactly as long as every native event is in place. */
  lemma {:induction false} RunIffInPlace(h: seq<Native>)
    ensures Run(DecodeNatives(h).events).Ok? <==> AllInPlace(h)
    ensures AllInPlace(h) ==> Related(DecodeNatives(h), h)
  {
    hide Related, InPlace, ConsumeNative, Run, AllInPlace;
    if h == [] {
      StartIsRelated();
      NothingOutOfPlace();
      RelatedRuns(START, []);
    } else {
      var n := |h| - 1;
      RunIffInPlace(h[..n]);
      assert h == h[..n] + [h[n]];
      AllInPlaceSnoc(h[..n], h[n]);
      var before := DecodeNatives(h[..n]);
      if AllInPlace(h[..n]) {
        FollowsAny(before, h[..n], h[n]);
        if InPlace(h[..n], h[n]) { RelatedRuns(DecodeNatives(h), h); }
      } else {
        ConsumeStaysFailed(before, h[n]);
      }
    }
  }

  lemma NothingOutOfPlace()
    ensures AllInPlace([])
  {
  }

  lemma RelatedRuns(d: Decoding, h: seq<Native>)
    requires Related(d, h)
    ensures Run(d.events).Ok? && (Run(d.events).value.terminal.Some? <==> Over(h))
  {
  }

  /**
   An Anthropic stream is accepted if and only if it is well formed: one
   message_start before every block, blocks at fresh nonnegative indexes with fresh
   call ids for tools only, deltas for open tool blocks, each block stopped once,
   and one message_stop after all of them; or a lone [DONE] in place of both.
   Deltas and stops at indexes where no block started are in place anywhere.  The
   arguments kept for a block are its deltas, in order.
   */
  lemma AcceptedIffWellFormed(frames: seq<Frame>, decode: Decode)
    ensures var h := NativesOf(frames, decode);
            var events := DecodeAll(Anthropic, frames, decode).events;
            && (Accepted(events) <==> WellFormed(h))
            && (Accepted(events) ==>
                  forall k :: k in Blocks(h) ==>
                    var id := AnthropicItemId(k);
                    id in Run(events).value.items && Run(events).value.items[id].arguments == Blocks(h)[k].text)
  {
    hide InPlace, Blocks, DecodeAll, DecodeNatives, AnthropicItemId, NativesOf, Over, Begun, NamesBlock, CallTaken, Run;
    var h := NativesOf(frames, decode);
    DecodeByNatives(frames, decode);
    RunIffInPlace(h);
  }
}
