/**
 Responses streams: exactly which streams decode to a trace that the lifecycle
 machine accepts, said of the events on the wire.
 */
module ResponsesStreams {
  import opened Common
  import opened Lifecycle
  import opened LifecycleGrammar
  import opened StreamDecoder
  import opened WireFormats

  // ----- the native stream

  datatype Native = Done | Said(e: Event) | Nothing

  function NativeOf(frame: Frame, decode: Decode): Native
  {
    if IsDone(frame.data) then Done
    else match decode(frame.data)
      case None => Nothing
      case Some(value) => (match ReadResponses(value) case None => Nothing case Some(e) => Said(e))
  }

  function NativesOf(frames: seq<Frame>, decode: Decode): (h: seq<Native>)
    ensures |h| == |frames|
  {
    seq(|frames|, i requires 0 <= i < |frames| => NativeOf(frames[i], decode))
  }

  /** The frame carries this native event on the wire. */
  ghost predicate Carries(frame: Frame, decode: Decode, n: Native)
  {
    match n
    case Done => frame.data == "[DONE]"
    case Said(e) =>
      && frame.data != "[DONE]" && decode(frame.data).Some?
      && Sayable(e) && Extends(decode(frame.data).value, ResponsesWire(e))
    case Nothing =>
      && frame.data != "[DONE]"
      && (decode(frame.data).Some? ==> forall kind :: ResponsesName(kind) != Some(TypeName(decode(frame.data).value)))
  }

  ghost predicate CarriesAll(frames: seq<Frame>, decode: Decode, h: seq<Native>)
  {
    |frames| == |h| && forall i :: 0 <= i < |h| ==> Carries(frames[i], decode, h[i])
  }

  lemma CarriedIsRead(frame: Frame, decode: Decode, n: Native)
    requires Carries(frame, decode, n)
    ensures NativeOf(frame, decode) == n
  {
    hide Sayable, ResponsesWire, Extends, ResponsesName, ReadResponses, TypeName;
    if decode(frame.data).Some? {
      ResponsesRoundTrip(decode(frame.data).value, if n.Said? then n.e else Bare(Created));
    }
  }

  lemma CarriedAreRead(frames: seq<Frame>, decode: Decode, h: seq<Native>)
    requires CarriesAll(frames, decode, h)
    ensures NativesOf(frames, decode) == h
  {
    hide Carries, NativeOf;
    forall i | 0 <= i < |h| ensures NativesOf(frames, decode)[i] == h[i] { CarriedIsRead(frames[i], decode, h[i]); }
  }

  // ----- the trace of a stream

  function ConsumeNative(d: Decoding, n: Native): Decoding
  {
    match n
    case Done => Emit(EnsureCreated(d), Bare(Completed))
    case Said(e) => Emit(d, e)
    case Nothing => d
  }

  function DecodeNatives(h: seq<Native>): Decoding
  {
    if h == [] then START else ConsumeNative(DecodeNatives(h[..|h| - 1]), h[|h| - 1])
  }

  lemma {:induction false} DecodeByNatives(frames: seq<Frame>, decode: Decode)
    ensures DecodeAll(Responses, frames, decode) == DecodeNatives(NativesOf(frames, decode))
  {
    hide ReadResponses, Emit, EnsureCreated;
    if frames != [] {
      var n := |frames| - 1;
      DecodeByNatives(frames[..n], decode);
      assert NativesOf(frames, decode)[..n] == NativesOf(frames[..n], decode);
    }
  }

  /** What was said, in order. */
  function Sayings(h: seq<Native>): seq<Event>
  {
    if h == [] then []
    else
      var n := |h| - 1;
      Sayings(h[..n]) + if h[n].Said? then [h[n].e] else []
  }

  /** Events numbered by their position. */
  function InOrder(events: seq<Event>): (trace: seq<Event>)
    ensures |trace| == |events|
  {
    seq(|events|, i requires 0 <= i < |events| => events[i].(sequence := i + 1))
  }

  lemma InOrderSnoc(events: seq<Event>, e: Event)
    ensures InOrder(events + [e]) == InOrder(events) + [e.(sequence := |events| + 1)]
  {
  }

  /** Without a sentinel the trace is what was said. */
  lemma {:induction false} TraceOfSayings(h: seq<Native>)
    requires Done !in h
    ensures DecodeNatives(h) == START.(events := InOrder(Sayings(h)))
  {
    if h != [] {
      var n := |h| - 1;
      assert h[n] in h && forall x :: x in h[..n] ==> x in h;
      TraceOfSayings(h[..n]);
      if h[n].Said? { InOrderSnoc(Sayings(h[..n]), h[n].e); }
    }
  }

  lemma ConsumeGrows(d: Decoding, n: Native)
    ensures d.events <= ConsumeNative(d, n).events
    ensures n != Nothing ==> |ConsumeNative(d, n).events| > |d.events|
  {
  }

  lemma {:induction false} TraceGrows(h: seq<Native>, k: nat)
    requires k <= |h|
    ensures DecodeNatives(h[..k]).events <= DecodeNatives(h).events
    ensures (exists i :: k <= i < |h| && h[i] != Nothing) ==> |DecodeNatives(h).events| > |DecodeNatives(h[..k]).events|
    decreases |h| - k
  {
    hide ConsumeNative;
    if k == |h| {
      assert h[..k] == h;
    } else {
      TraceGrows(h, k + 1);
      assert h[..k + 1][..k] == h[..k] && h[..k + 1][k] == h[k];
      ConsumeGrows(DecodeNatives(h[..k]), h[k]);
    }
  }

  /** A sentinel says that a response of its own was created and completed. */
  lemma TraceAtDone(h: seq<Native>, k: nat)
    requires k < |h| && h[k] == Done && Done !in h[..k]
    ensures var said := InOrder(Sayings(h[..k]));
            && |DecodeNatives(h[..k + 1]).events| == |said| + 2
            && DecodeNatives(h[..k + 1]).events ==
               said + [Bare(Created).(sequence := |said| + 1), Bare(Completed).(sequence := |said| + 2)]
  {
    TraceOfSayings(h[..k]);
    assert h[..k + 1][..k] == h[..k] && h[..k + 1][k] == Done;
  }

  /** Nothing but one sentinel was said. */
  ghost predicate OnlyDone(h: seq<Native>)
  {
    exists k :: 0 <= k < |h| && OnlyDoneAt(h, k)
  }

  ghost predicate OnlyDoneAt(h: seq<Native>, k: nat)
    requires k < |h|
  {
    h[k] == Done && forall i :: 0 <= i < |h| && i != k ==> h[i] == Nothing
  }

  /** The stream says a grammatical lifecycle and no sentinel, or nothing but one sentinel. */
  ghost predicate WellFormed(h: seq<Native>)
  {
    OnlyDone(h) || (Done !in h && Grammatical(InOrder(Sayings(h))))
  }

  lemma FirstDone(h: seq<Native>) returns (k: nat)
    requires Done in h
    ensures k < |h| && h[k] == Done && Done !in h[..k]
  {
    if h[|h| - 1] == Done && Done !in h[..|h| - 1] {
      k := |h| - 1;
    } else {
      var n := |h| - 1;
      assert Done in h[..n] by { assert h == h[..n] + [h[n]]; }
      k := FirstDone(h[..n]);
      assert h[..n][..k] == h[..k];
    }
  }

  /** In a grammatical trace a creation is the first event and a completion the last. */
  lemma CreatedThenCompleted(trace: seq<Event>, k: nat)
    requires Grammatical(trace) && k + 1 < |trace| && trace[k].kind == Created && trace[k + 1].kind == Completed
    ensures k == 0 && |trace| == 2
  {
    hide Fits;
  }

  lemma DoneAloneIsGrammatical()
    ensures Grammatical([Bare(Created).(sequence := 1), Bare(Completed).(sequence := 2)])
  {
    var trace := [Bare(Created).(sequence := 1), Bare(Completed).(sequence := 2)];
    assert trace[..1] == [trace[0]];
    assert AllClosed([trace[0]]);
  }

  lemma {:induction false} NothingSaid(h: seq<Native>)
    requires forall i :: 0 <= i < |h| ==> h[i] == Nothing
    ensures Sayings(h) == []
  {
    if h != [] { NothingSaid(h[..|h| - 1]); }
  }

  lemma {:induction false} NothingAfter(h: seq<Native>, k: nat)
    requires k <= |h| && forall i :: k <= i < |h| ==> h[i] == Nothing
    ensures DecodeNatives(h) == DecodeNatives(h[..k])
    decreases |h| - k
  {
    if k == |h| {
      assert h[..k] == h;
    } else {
      NothingAfter(h, k + 1);
      assert h[..k + 1][..k] == h[..k] && h[..k + 1][k] == h[k];
    }
  }

  lemma OnlyDoneTrace(h: seq<Native>, k: nat)
    requires k < |h| && OnlyDoneAt(h, k)
    ensures DecodeNatives(h).events == [Bare(Created).(sequence := 1), Bare(Completed).(sequence := 2)]
  {
    hide DecodeNatives, Sayings, InOrder;
    assert Done !in h[..k];
    NothingAfter(h, k + 1);
    TraceAtDone(h, k);
    NothingSaid(h[..k]);
    assert InOrder([]) == [] by { NoneInOrder(); }
  }

  lemma NoneInOrder()
    ensures InOrder([]) == []
  {
  }

  lemma DoneIsAlone(h: seq<Native>)
    requires Done in h && Grammatical(DecodeNatives(h).events)
    ensures OnlyDone(h)
  {
    hide DecodeNatives, Grammatical, Sayings, InOrder;
    var k := FirstDone(h);
    TraceAtDone(h, k);
    TraceGrows(h, k + 1);
    var trace, said := DecodeNatives(h).events, InOrder(Sayings(h[..k]));
    var prefix := DecodeNatives(h[..k + 1]).events;
    assert trace[|said|] == prefix[|said|] && trace[|said| + 1] == prefix[|said| + 1];
    CreatedThenCompleted(trace, |said|);
    forall i | 0 <= i < |h| && i != k ensures h[i] == Nothing {
      if i < k {
        assert h[..k][i] == h[i] && h[i] != Done;
        SomethingSaid(h[..k], i);
      }
    }
    assert OnlyDoneAt(h, k);
  }

  lemma {:induction false} SomethingSaid(h: seq<Native>, i: nat)
    requires i < |h| && Sayings(h) == []
    ensures !h[i].Said?
  {
    if i < |h| - 1 { SomethingSaid(h[..|h| - 1], i); }
  }

  lemma TraceIffWellFormed(h: seq<Native>)
    ensures Accepted(DecodeNatives(h).events) <==> WellFormed(h)
  {
    hide DecodeNatives, Grammatical, Accepted, Sayings, InOrder, OnlyDoneAt;
    AcceptedIffGrammatical(DecodeNatives(h).events);
    if OnlyDone(h) {
      var k :| 0 <= k < |h| && OnlyDoneAt(h, k);
      OnlyDoneTrace(h, k);
      DoneAloneIsGrammatical();
    } else if Done in h {
      if Grammatical(DecodeNatives(h).events) { DoneIsAlone(h); }
    } else {
      TraceOfSayings(h);
    }
  }

  /**
   A Responses stream is accepted if and only if it is well formed: its typed events, in
   order, are a grammatical lifecycle and there is no sentinel, or a lone [DONE] says it all.
   */
  lemma AcceptedIffWellFormed(frames: seq<Frame>, decode: Decode)
    ensures Accepted(DecodeAll(Responses, frames, decode).events) <==> WellFormed(NativesOf(frames, decode))
    ensures forall h :: CarriesAll(frames, decode, h) ==> NativesOf(frames, decode) == h
  {
    hide DecodeAll, DecodeNatives, Accepted, WellFormed, CarriesAll, NativesOf;
    DecodeByNatives(frames, decode);
    TraceIffWellFormed(NativesOf(frames, decode));
    forall h | CarriesAll(frames, decode, h) ensures NativesOf(frames, decode) == h { CarriedAreRead(frames, decode, h); }
  }
}
