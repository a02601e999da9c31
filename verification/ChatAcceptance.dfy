/**
 Chat streams: exactly which streams of tool fragments, finish reasons and
 sentinels decode to a trace that the lifecycle machine accepts.
 */
module ChatAcceptance {
  import opened Common
  import opened Lifecycle
  import opened StreamDecoder
  import opened StreamTheorems
  import opened BlockMirror
  import opened WireFormats
  import Sorting

  // ----- the native stream

  /** A decoded chunk begins or continues the message, brings tool fragments, and may finish. */
  datatype Native = Begin | Piece(f: Fragment) | Finish | Done

  function PiecesOf(fragments: seq<Fragment>): (h: seq<Native>)
    ensures |h| == |fragments|
  {
    seq(|fragments|, i requires 0 <= i < |fragments| => Piece(fragments[i]))
  }

  function ChunkNatives(chunk: ChatChunk): seq<Native>
  {
    [Begin] + PiecesOf(chunk.fragments) + if chunk.finish.Some? then [Finish] else []
  }

  function FrameNatives(frame: Frame, decode: Decode): seq<Native>
  {
    if IsDone(frame.data) then [Done]
    else match decode(frame.data)
      case None => []
      case Some(value) => ChunkNatives(ReadChat(value))
  }

  function NativesOf(frames: seq<Frame>, decode: Decode): seq<Native>
  {
    if frames == [] then []
    else NativesOf(frames[..|frames| - 1], decode) + FrameNatives(frames[|frames| - 1], decode)
  }

  /** What one frame of a Chat stream carries. */
  datatype Carried = Sentinel | Chunk(chunk: ChatChunk) | Noise

  function CarriedNatives(c: Carried): seq<Native>
  {
    match c
    case Sentinel => [Done]
    case Chunk(chunk) => ChunkNatives(chunk)
    case Noise => []
  }

  ghost predicate Carries(frame: Frame, decode: Decode, c: Carried)
  {
    match c
    case Sentinel => frame.data == "[DONE]"
    case Chunk(chunk) => frame.data != "[DONE]" && decode(frame.data).Some? && SaysChunk(decode(frame.data).value, chunk)
    case Noise => frame.data != "[DONE]" && decode(frame.data).None?
  }

  function AllNatives(carried: seq<Carried>): seq<Native>
  {
    if carried == [] then [] else AllNatives(carried[..|carried| - 1]) + CarriedNatives(carried[|carried| - 1])
  }

  /** What the frames carry is what is read. */
  lemma {:induction false} CarriedAreRead(frames: seq<Frame>, decode: Decode, carried: seq<Carried>)
    requires |frames| == |carried| && forall i :: 0 <= i < |frames| ==> Carries(frames[i], decode, carried[i])
    ensures NativesOf(frames, decode) == AllNatives(carried)
  {
    hide Carries, FrameNatives, CarriedNatives;
    if frames != [] {
      var n := |frames| - 1;
      CarriedAreRead(frames[..n], decode, carried[..n]);
      CarriedIsRead(frames[n], decode, carried[n]);
    }
  }

  lemma CarriedIsRead(frame: Frame, decode: Decode, c: Carried)
    requires Carries(frame, decode, c)
    ensures FrameNatives(frame, decode) == CarriedNatives(c)
  {
    hide SaysChunk, ReadChat, ChunkNatives;
    if c.Chunk? { ChatRoundTrip(decode(frame.data).value, c.chunk); }
  }

  function CloseAll(b: map<int, Block>): map<int, Block>
  {
    map k | k in b :: b[k].(stopped := true)
  }

  function AfterNative(b: map<int, Block>, n: Native): map<int, Block>
  {
    match n
    case Piece(f) =>
      if f.index in b then b[f.index := b[f.index].(text := b[f.index].text + f.text)]
      else b[f.index := Block(FUNCTION_CALL, f.callId, f.text, false)]
    case Finish => CloseAll(b)
    case _ => b
  }

  /** The tools of a stream: the first fragment at an index opens one, later ones extend it, a finish closes all. */
  function Blocks(h: seq<Native>): map<int, Block>
  {
    if h == [] then map[] else AfterNative(Blocks(h[..|h| - 1]), h[|h| - 1])
  }

  predicate Begun(h: seq<Native>) { exists i :: 0 <= i < |h| && (h[i] == Begin || h[i] == Done) }

  predicate Over(h: seq<Native>) { exists i :: 0 <= i < |h| && h[i] == Done }

  /**
   The next event is in place after this history.  A fragment without text for an
   open or closed tool says nothing and is always in place, whatever id it names;
   so is a finish while there are no tools.
   */
  ghost predicate InPlace(h: seq<Native>, n: Native)
  {
    var b := Blocks(h);
    match n
    case Begin => true
    case Piece(f) =>
      if f.index in b
      then f.text == "" || (!Over(h) && !b[f.index].stopped && (f.callId == "" || f.callId == b[f.index].callId))
      else Begun(h) && !Over(h) && f.index >= 0 && f.callId != "" && !CallTaken(b, f.callId)
    case Finish => b == map[] || (!Over(h) && forall k :: k in b ==> !b[k].stopped)
    case Done => !Over(h) && forall k :: k in b ==> b[k].stopped
  }

  ghost predicate AllInPlace(h: seq<Native>)
  {
    forall i :: 0 <= i < |h| ==> InPlace(h[..i], h[i])
  }

  /** Every event in place, and the message over. */
  ghost predicate WellFormed(h: seq<Native>)
  {
    AllInPlace(h) && Over(h)
  }

  lemma HistorySnoc(h: seq<Native>, n: Native)
    ensures Begun(h + [n]) <==> Begun(h) || n == Begin || n == Done
    ensures Over(h + [n]) <==> Over(h) || n == Done
    ensures Blocks(h + [n]) == AfterNative(Blocks(h), n)
  {
    var longer := h + [n];
    assert longer[..|h|] == h && longer[|h|] == n;
    if Begun(h) { var i :| 0 <= i < |h| && (h[i] == Begin || h[i] == Done); assert longer[i] == h[i]; }
    if Over(h) { var i :| 0 <= i < |h| && h[i] == Done; assert longer[i] == h[i]; }
  }

  // ----- the decoder and the machine beside it

  function ConsumeNative(d: Decoding, n: Native): Decoding
  {
    match n
    case Begin => EnsureCreated(d)
    case Piece(f) => ChatFragment(d, f)
    case Finish => CloseTools(d, Sorting.Ascend(d.chatTools.Keys))
    case Done => Emit(EnsureCreated(d), Bare(Completed))
  }

  /** The decoder and a good machine agree with a table of tools. */
  ghost predicate Tracks(d: Decoding, b: map<int, Block>)
  {
    && Run(d.events).Ok? && Mirrors(Chat, Run(d.events).value, b) && DecoderMirrors(Chat, d.chatTools, b)
    && forall k :: k in b ==> IsCall(b[k])
  }

  /** After a history in place throughout. */
  ghost predicate Related(d: Decoding, h: seq<Native>)
  {
    && Tracks(d, Blocks(h))
    && var s := Run(d.events).value;
       && s.created == Begun(h) == d.chatCreated && s.terminal.Some? == Over(h)
       && (Over(h) ==> Begun(h)) && (Blocks(h) != map[] ==> Begun(h))
  }

  /** The decoder and the machine follow one native event exactly when it is in place. */
  ghost predicate Follows(d: Decoding, h: seq<Native>, n: Native)
  {
    var r := ConsumeNative(d, n);
    if InPlace(h, n) then Related(r, h + [n]) else Run(r.events).Err?
  }

  // ----- beginning

  lemma CreateRuns(d: Decoding)
    requires Run(d.events).Ok? && !Run(d.events).value.created && Run(d.events).value.terminal.None?
    ensures var s, t := Run(d.events).value, Run(Emit(d, Bare(Created)).events);
            t == Ok(s.(created := true, nextSequence := s.nextSequence + 1))
  {
    hide Run, AddItem, AddArguments, FinishArguments, FinishItem, AcceptToolResult, FinishResponse;
    EmitRuns(d, Bare(Created));
  }

  lemma FollowsBegin(d: Decoding, h: seq<Native>)
    requires Related(d, h)
    ensures Follows(d, h, Begin)
  {
    hide Mirrors, Run, Begun, Over, Blocks;
    HistorySnoc(h, Begin);
    if !d.chatCreated {
      var s := Run(d.events).value;
      CreateRuns(d.(chatCreated := true));
      CreatedMirrors(Chat, s, Blocks(h), s.nextSequence + 1, s.terminal);
    }
  }

  // ----- fragments

  lemma ChatName(k: int)
    ensures ItemName(Chat, k) == ChatItemId(k)
  {
  }

  lemma ToolKind()
    ensures LifecycleKind(FUNCTION_CALL) == FUNCTION_CALL && IsFunctionCall(FUNCTION_CALL) && FUNCTION_CALL != ""
  {
  }

  /** Opening a tool: accepted exactly at a fresh nonnegative index with a fresh id, while the message goes on. */
  lemma OpenIff(d: Decoding, b: map<int, Block>, f: Fragment)
    requires Tracks(d, b) && f.index !in b
    ensures var s, r := Run(d.events).value, OpenTool(d, f);
            if s.created && s.terminal.None? && f.index >= 0 && f.callId != "" && !CallTaken(b, f.callId)
            then Tracks(r, b[f.index := Block(FUNCTION_CALL, f.callId, "", false)]) &&
                 Run(r.events).value.created && Run(r.events).value.terminal.None? && r.chatCreated == d.chatCreated
            else Run(r.events).Err?
  {
    hide ChatItemId, Mirrors, Effect, Run, CallTaken, ItemName, IsFunctionCall;
    var s := Run(d.events).value;
    ChatName(f.index);
    ToolKind();
    var e := Added(ChatItemId(f.index), FUNCTION_CALL, f.index, f.callId);
    var extended := d.(chatTools := d.chatTools[f.index := Tool(ChatItemId(f.index), f.callId, "")]);
    var numbered := e.(sequence := |d.events| + 1);
    EmitRuns(extended, e);
    if s.created {
      StartEffect(Chat, s, b, f.index, FUNCTION_CALL, f.callId, numbered);
      if Effect(s, numbered).Ok? && s.terminal.None? {
        StepMirrors(Chat, s, numbered, b[f.index := Block(FUNCTION_CALL, f.callId, "", false)]);
      }
    } else {
      NotCreated(s, numbered);
    }
  }

  /** Adding text: accepted exactly for an open tool under its own id or none, while the message goes on. */
  lemma TextIff(d: Decoding, b: map<int, Block>, f: Fragment)
    requires Tracks(d, b) && f.index in b && Run(d.events).value.created && f.text != ""
    ensures var s, r := Run(d.events).value, ChatFragment(d, f);
            if s.terminal.None? && !b[f.index].stopped && (f.callId == "" || f.callId == b[f.index].callId)
            then Tracks(r, b[f.index := b[f.index].(text := b[f.index].text + f.text)]) &&
                 Run(r.events).value.created && Run(r.events).value.terminal.None? && r.chatCreated == d.chatCreated
            else Run(r.events).Err?
  {
    hide ChatItemId, Mirrors, Effect, Run, CallTaken, ItemName, IsFunctionCall;
    var s, k := Run(d.events).value, f.index;
    var tool := d.chatTools[k];
    assert OpenTool(d, f) == d && tool == ToolOf(Chat, k, b[k]);
    var e := Delta(tool, f.callId, f.text);
    var numbered := e.(sequence := |d.events| + 1);
    EmitRuns(d.(chatTools := d.chatTools[k := tool.(arguments := tool.arguments + f.text)]), e);
    DeltaEffect(Chat, s, b, k, f.callId, f.text, numbered);
    if Effect(s, numbered).Ok? && s.terminal.None? {
      StepMirrors(Chat, s, numbered, b[k := b[k].(text := b[k].text + f.text)]);
    }
  }

  lemma FollowsPiece(d: Decoding, h: seq<Native>, f: Fragment)
    requires Related(d, h)
    ensures Follows(d, h, Piece(f))
  {
    hide Tracks, Run, Begun, Over, Blocks, CallTaken, Emit, Delta;
    HistorySnoc(h, Piece(f));
    var b, k := Blocks(h), f.index;
    TracksTools(d, b);
    if k in b {
      if f.text == "" {
        NoText(d, b, f);
      } else {
        TextIff(d, b, f);
      }
    } else {
      OpenIff(d, b, f);
      var ready := OpenTool(d, f);
      FragmentInTwo(d, f);
      if InPlace(h, Piece(f)) {
        var b1 := b[k := Block(FUNCTION_CALL, f.callId, "", false)];
        if f.text != "" {
          TextIff(ready, b1, f);
          assert "" + f.text == f.text;
          assert b1[k := b1[k].(text := b1[k].text + f.text)] == b[k := Block(FUNCTION_CALL, f.callId, f.text, false)];
        }
      } else if f.text != "" {
        FragmentStaysFailed(ready, f);
      }
    }
  }

  lemma TracksTools(d: Decoding, b: map<int, Block>)
    requires Tracks(d, b)
    ensures d.chatTools.Keys == b.Keys && Run(d.events).Ok?
  {
  }

  lemma NoText(d: Decoding, b: map<int, Block>, f: Fragment)
    requires Tracks(d, b) && f.index in b && f.text == ""
    ensures ChatFragment(d, f) == d && b[f.index := b[f.index].(text := b[f.index].text + f.text)] == b
  {
    hide Mirrors, Run;
    assert b[f.index].text + "" == b[f.index].text;
  }

  /** A first fragment opens its tool and then adds its text as any later one would. */
  lemma FragmentInTwo(d: Decoding, f: Fragment)
    ensures ChatFragment(d, f) == if f.text == "" then OpenTool(d, f) else ChatFragment(OpenTool(d, f), f)
  {
    hide Emit, ChatItemId;
  }

  lemma FragmentStaysFailed(d: Decoding, f: Fragment)
    requires Run(d.events).Err? && f.index in d.chatTools
    ensures Run(ChatFragment(d, f).events).Err?
  {
    hide Run;
    if f.text != "" {
      var tool := d.chatTools[f.index];
      EmitStaysFailed(d.(chatTools := d.chatTools[f.index := tool.(arguments := tool.arguments + f.text)]), Delta(tool, f.callId, f.text));
    }
  }

  // ----- finishing

  function CloseSome(b: map<int, Block>, indexes: seq<int>): map<int, Block>
  {
    map k | k in b :: if k in indexes then b[k].(stopped := true) else b[k]
  }

  lemma CloseSomeSnoc(b: map<int, Block>, indexes: seq<int>, k: int)
    requires k in b && k !in indexes
    ensures var before := CloseSome(b, indexes);
            k in before && CloseSome(b, indexes + [k]) == before[k := before[k].(stopped := true)] && before[k] == b[k]
  {
  }

  /** None of these tools is closed. */
  ghost predicate AllOpen(b: map<int, Block>, indexes: seq<int>)
  {
    forall k :: k in indexes && k in b ==> !b[k].stopped
  }

  lemma AllOpenSnoc(b: map<int, Block>, indexes: seq<int>, k: int)
    requires k in b
    ensures AllOpen(b, indexes + [k]) <==> AllOpen(b, indexes) && !b[k].stopped
  {
    assert forall j :: j in indexes + [k] <==> j in indexes || j == k;
  }

  /** Closing tools one by one is accepted exactly while the message goes on and none of them is closed yet. */
  ghost predicate ClosesRight(d: Decoding, b: map<int, Block>, indexes: seq<int>)
    requires Run(d.events).Ok?
  {
    var s, r := Run(d.events).value, CloseTools(d, indexes);
    if indexes == [] || (s.terminal.None? && AllOpen(b, indexes))
    then Tracks(r, CloseSome(b, indexes)) && r.chatCreated == d.chatCreated &&
         Run(r.events).value.created == s.created && Run(r.events).value.terminal == s.terminal
    else Run(r.events).Err?
  }

  lemma CloseToolsSnoc(d: Decoding, indexes: seq<int>, k: int)
    ensures CloseTools(d, indexes + [k]) == CloseTool(CloseTools(d, indexes), k)
  {
    hide CloseTool;
    assert (indexes + [k])[..|indexes|] == indexes;
  }

  lemma CloseStep(d: Decoding, b: map<int, Block>, indexes: seq<int>, k: int)
    requires Run(d.events).Ok? && Run(d.events).value.created && ClosesRight(d, b, indexes) && k in b && k !in indexes
    ensures ClosesRight(d, b, indexes + [k])
  {
    hide Tracks, Run, AllOpen, CloseTool, CloseTools, CloseSome;
    var s, before, closed := Run(d.events).value, CloseTools(d, indexes), CloseSome(b, indexes);
    CloseToolsSnoc(d, indexes, k);
    CloseSomeSnoc(b, indexes, k);
    AllOpenSnoc(b, indexes, k);
    NoneIsOpen(b, indexes);
    if indexes == [] || (s.terminal.None? && AllOpen(b, indexes)) {
      CloseOneIff(before, closed, k);
    } else {
      CloseStaysFailed(before, k);
    }
  }

  lemma {:induction false} CloseIff(d: Decoding, b: map<int, Block>, indexes: seq<int>)
    requires Tracks(d, b) && (b != map[] ==> Run(d.events).value.created)
    requires Distinct(indexes) && forall i :: 0 <= i < |indexes| ==> indexes[i] in b
    ensures Run(d.events).Ok? && ClosesRight(d, b, indexes)
  {
    hide Tracks, Run, ClosesRight;
    TracksTools(d, b);
    if indexes == [] {
      CloseNone(d, b);
    } else {
      var n := |indexes| - 1;
      CloseIff(d, b, indexes[..n]);
      CloseStep(d, b, indexes[..n], indexes[n]);
      assert indexes == indexes[..n] + [indexes[n]];
    }
  }

  lemma CloseNone(d: Decoding, b: map<int, Block>)
    requires Run(d.events).Ok? && Tracks(d, b)
    ensures ClosesRight(d, b, [])
  {
    hide Tracks, Run;
    assert CloseSome(b, []) == b;
  }

  lemma NoneIsOpen(b: map<int, Block>, indexes: seq<int>)
    ensures indexes == [] ==> AllOpen(b, indexes)
  {
  }

  lemma CloseOneIff(d: Decoding, b: map<int, Block>, k: int)
    requires Tracks(d, b) && k in b && Run(d.events).value.created
    ensures var s, r := Run(d.events).value, CloseTool(d, k);
            if s.terminal.None? && !b[k].stopped
            then Tracks(r, b[k := b[k].(stopped := true)]) && r.chatCreated == d.chatCreated &&
                 Run(r.events).value.created && Run(r.events).value.terminal.None?
            else Run(r.events).Err?
  {
    hide Mirrors, Run, ItemName, ChatItemId;
    CloseCall(Chat, d, b, k);
  }

  lemma CloseStaysFailed(d: Decoding, k: int)
    requires Run(d.events).Err?
    ensures Run(CloseTool(d, k).events).Err?
  {
    hide Run;
    if k in d.chatTools {
      EmitStaysFailed(d, ArgsDoneOf(d.chatTools[k]));
      EmitStaysFailed(Emit(d, ArgsDoneOf(d.chatTools[k])), ItemDoneOf(d.chatTools[k]));
    }
  }

  lemma FollowsFinish(d: Decoding, h: seq<Native>)
    requires Related(d, h)
    ensures Follows(d, h, Finish)
  {
    hide Tracks, Run, Begun, Over, Blocks, CloseTools, Sorting.Ascend;
    HistorySnoc(h, Finish);
    var b := Blocks(h);
    TracksTools(d, b);
    var indexes := Sorting.Ascend(d.chatTools.Keys);
    assert forall i :: 0 <= i < |indexes| ==> indexes[i] in indexes && indexes[i] in b;
    CloseIff(d, b, indexes);
    assert CloseSome(b, indexes) == CloseAll(b);
    assert indexes != [] ==> indexes[0] in b;
    if b != map[] {
      var k :| k in b;
      assert k in indexes;
    }
  }

  lemma FollowsDone(d: Decoding, h: seq<Native>)
    requires Related(d, h)
    ensures Follows(d, h, Done)
  {
    hide Mirrors, Run, Begun, Over, Blocks, Effect, ItemName;
    HistorySnoc(h, Done);
    var b := Blocks(h);
    FollowsBegin(d, h);
    HistorySnoc(h, Begin);
    var ready := EnsureCreated(d);
    var s := Run(ready.events).value;
    var e := Bare(Completed);
    var numbered := e.(sequence := |ready.events| + 1);
    EmitRuns(ready, e);
    EndEffect(Chat, s, b, numbered);
    CreatedMirrors(Chat, s, b, s.nextSequence + 1, Some(Completed));
  }

  lemma FollowsAny(d: Decoding, h: seq<Native>, n: Native)
    requires Related(d, h)
    ensures Follows(d, h, n)
  {
    hide Follows, Related;
    match n
    case Begin => FollowsBegin(d, h);
    case Piece(f) => FollowsPiece(d, h, f);
    case Finish => FollowsFinish(d, h);
    case Done => FollowsDone(d, h);
  }

  // ----- whole streams

  function ConsumeNatives(d: Decoding, h: seq<Native>): Decoding
  {
    if h == [] then d else ConsumeNative(ConsumeNatives(d, h[..|h| - 1]), h[|h| - 1])
  }

  lemma {:induction false} ConsumeAppend(d: Decoding, a: seq<Native>, b: seq<Native>)
    ensures ConsumeNatives(d, a + b) == ConsumeNatives(ConsumeNatives(d, a), b)
  {
    hide ConsumeNative;
    if b == [] {
      assert a + b == a;
    } else {
      var n := |b| - 1;
      ConsumeAppend(d, a, b[..n]);
      assert (a + b)[..|a + b| - 1] == a + b[..n];
    }
  }

  lemma {:induction false} ConsumePieces(d: Decoding, fragments: seq<Fragment>)
    ensures ConsumeNatives(d, PiecesOf(fragments)) == ChatFragments(d, fragments)
  {
    hide ChatFragment;
    if fragments != [] {
      var n := |fragments| - 1;
      ConsumePieces(d, fragments[..n]);
      assert PiecesOf(fragments)[..n] == PiecesOf(fragments[..n]);
    }
  }

  lemma ConsumeChunk(d: Decoding, chunk: ChatChunk)
    ensures ConsumeNatives(d, ChunkNatives(chunk)) == ConsumeChat(d, chunk)
  {
    hide ChatFragments, CloseTools, EnsureCreated;
    var pieces := PiecesOf(chunk.fragments);
    var last := if chunk.finish.Some? then [Finish] else [];
    ConsumeAppend(d, [Begin] + pieces, last);
    ConsumeAppend(d, [Begin], pieces);
    ConsumeOne(d, Begin);
    ConsumePieces(EnsureCreated(d), chunk.fragments);
    ConsumeOne(ConsumeNatives(d, [Begin] + pieces), Finish);
  }

  lemma ConsumeOne(d: Decoding, n: Native)
    ensures ConsumeNatives(d, [n]) == ConsumeNative(d, n)
  {
    hide ConsumeNative;
    assert [n][..0] == [];
  }

  lemma {:induction false} DecodeByNatives(frames: seq<Frame>, decode: Decode)
    ensures DecodeAll(Chat, frames, decode) == ConsumeNatives(START, NativesOf(frames, decode))
  {
    hide ConsumeChat, ReadChat, ConsumeNatives, ChunkNatives;
    if frames == [] {
      NothingConsumed(START);
    } else {
      var n := |frames| - 1;
      DecodeByNatives(frames[..n], decode);
      var before := DecodeAll(Chat, frames[..n], decode);
      ConsumeAppend(START, NativesOf(frames[..n], decode), FrameNatives(frames[n], decode));
      NothingConsumed(before);
      ConsumeOne(before, Done);
      if !IsDone(frames[n].data) && decode(frames[n].data).Some? {
        ConsumeChunk(before, ReadChat(decode(frames[n].data).value));
      }
    }
  }

  lemma NothingConsumed(d: Decoding)
    ensures ConsumeNatives(d, []) == d
  {
  }

  lemma AllInPlaceSnoc(h: seq<Native>, n: Native)
    ensures AllInPlace(h + [n]) <==> AllInPlace(h) && InPlace(h, n)
  {
    hide InPlace;
    var longer := h + [n];
    assert longer[|h|] == n && longer[..|h|] == h;
    assert forall i :: 0 <= i < |h| ==> longer[i] == h[i] && longer[..i] == h[..i];
  }

  lemma {:induction false} CloseToolsStayFailed(d: Decoding, indexes: seq<int>)
    requires Run(d.events).Err?
    ensures Run(CloseTools(d, indexes).events).Err?
  {
    hide Run, CloseTool;
    if indexes != [] {
      CloseToolsStayFailed(d, indexes[..|indexes| - 1]);
      CloseStaysFailed(CloseTools(d, indexes[..|indexes| - 1]), indexes[|indexes| - 1]);
    }
  }

  lemma ConsumeStaysFailed(d: Decoding, n: Native)
    requires Run(d.events).Err?
    ensures Run(ConsumeNative(d, n).events).Err?
  {
    hide ChatItemId, Run, CloseTools;
    forall x: Decoding, e: Event | Run(x.events).Err? ensures Run(Emit(x, e).events).Err? { EmitStaysFailed(x, e); }
    CloseToolsStayFailed(d, Sorting.Ascend(d.chatTools.Keys));
  }

  lemma StartIsRelated()
    ensures Related(START, [])
  {
  }

  /** The run is good exactly as long as every native event is in place. */
  lemma {:induction false} RunIffInPlace(h: seq<Native>)
    ensures Run(ConsumeNatives(START, h).events).Ok? <==> AllInPlace(h)
    ensures AllInPlace(h) ==> Related(ConsumeNatives(START, h), h)
  {
    hide Related, InPlace, ConsumeNative, Run, AllInPlace;
    if h == [] {
      StartIsRelated();
      NothingOutOfPlace();
      RelatedRuns(START, []);
    } else {
      var n := |h| - 1;
      RunIffInPlace(h[..n]);
      assert h == h[..n] + [h[n]];
      AllInPlaceSnoc(h[..n], h[n]);
      var before := ConsumeNatives(START, h[..n]);
      if AllInPlace(h[..n]) {
        FollowsAny(before, h[..n], h[n]);
        if InPlace(h[..n], h[n]) { RelatedRuns(ConsumeNatives(START, h), h); }
      } else {
        ConsumeStaysFailed(before, h[n]);
      }
    }
  }

  lemma NothingOutOfPlace()
    ensures AllInPlace([])
  {
  }

  lemma RelatedRuns(d: Decoding, h: seq<Native>)
    requires Related(d, h)
    ensures Run(d.events).Ok? && (Run(d.events).value.terminal.Some? <==> Over(h))
  {
  }

  /**
   A Chat stream is accepted if and only if it is well formed.  The arguments kept
   for a tool are then its fragments, in order.
   */
  lemma AcceptedIffWellFormed(frames: seq<Frame>, decode: Decode)
    ensures var h := NativesOf(frames, decode);
            var events := DecodeAll(Chat, frames, decode).events;
            && (Accepted(events) <==> WellFormed(h))
            && (Accepted(events) ==>
                  forall k :: k in Blocks(h) ==>
                    var id := ChatItemId(k);
                    id in Run(events).value.items && Run(events).value.items[id].arguments == Blocks(h)[k].text)
  {
    hide InPlace, Blocks, DecodeAll, ConsumeNatives, NativesOf, Over, Begun, Run;
    var h := NativesOf(frames, decode);
    DecodeByNatives(frames, decode);
    RunIffInPlace(h);
    if AllInPlace(h) {
      var d := ConsumeNatives(START, h);
      RelatedRuns(d, h);
      forall k | k in Blocks(h) ensures ChatItemId(k) in Run(d.events).value.items &&
                                        Run(d.events).value.items[ChatItemId(k)].arguments == Blocks(h)[k].text
      {
        ChatName(k);
        MirroredItem(Chat, Run(d.events).value, Blocks(h), k);
      }
    }
  }
}
