/**
 What the terminal counters beside the decoder count: which frames are markers,
 which come after the end, and which markers the bounded trace keeps.
 */
module StreamCounters {
  import opened Common
  import opened StreamDecoder

  predicate IsTerminalName(name: string)
  {
    name == "response.completed" || name == "response.failed" || name == "response.incomplete"
  }

  /** The marker of a frame: the sentinel everywhere, a decodable message_stop, or a typed terminal event. */
  lemma MarkerIff(protocol: Protocol, frame: Frame, decode: Decode, marker: string)
    ensures CountedMarker(protocol, frame, decode) == Some(marker) <==>
            if frame.data == "[DONE]" then marker == "[DONE]"
            else match protocol
              case Anthropic => frame.event == "message_stop" == marker && decode(frame.data).Some?
              case Responses => IsTerminalName(marker) && decode(frame.data).Some? && TypeName(decode(frame.data).value) == marker
              case _ => false
  {
    hide Get, TextOf;
  }

  /** The frame after which data counts as late. */
  lemma EndsIff(protocol: Protocol, frame: Frame, decode: Decode)
    ensures EndsStream(protocol, frame, decode) <==>
            match protocol
            case Chat => frame.data == "[DONE]"
            case Anthropic => frame.event == "message_stop"
            case Responses =>
              frame.data != "[DONE]" && decode(frame.data).Some? && IsTerminalName(TypeName(decode(frame.data).value))
            case OtherProtocol => false
  {
    hide Get, TextOf;
  }

  predicate IsMarked(protocol: Protocol, frame: Frame, decode: Decode) { CountedMarker(protocol, frame, decode).Some? }

  /** The positions of the marked frames. */
  ghost function Marked(protocol: Protocol, frames: seq<Frame>, decode: Decode): set<int>
  {
    set i | 0 <= i < |frames| && IsMarked(protocol, frames[i], decode)
  }

  predicate IsLate(protocol: Protocol, frames: seq<Frame>, decode: Decode, i: nat)
    requires i < |frames|
  {
    frames[i].data != "" && exists j :: 0 <= j < i && EndsStream(protocol, frames[j], decode)
  }

  /** The positions of the data-bearing frames that follow one that ends the stream. */
  ghost function Late(protocol: Protocol, frames: seq<Frame>, decode: Decode): set<int>
  {
    set i | 0 <= i < |frames| && IsLate(protocol, frames, decode, i)
  }

  lemma {:induction false} CountsMarked(protocol: Protocol, frames: seq<Frame>, decode: Decode)
    ensures CountMarkers(protocol, frames, decode) == |Marked(protocol, frames, decode)|
  {
    hide Marked, CountedMarker;
    MarkedGrows(protocol, frames, decode);
    if frames != [] { CountsMarked(protocol, frames[..|frames| - 1], decode); }
  }

  lemma MarkedGrows(protocol: Protocol, frames: seq<Frame>, decode: Decode)
    ensures frames == [] ==> Marked(protocol, frames, decode) == {}
    ensures frames != [] ==>
              var n := |frames| - 1;
              var before := Marked(protocol, frames[..n], decode);
              && n !in before
              && Marked(protocol, frames, decode) == before + (if CountedMarker(protocol, frames[n], decode).Some? then {n} else {})
  {
    hide CountedMarker;
    if frames != [] {
      var n := |frames| - 1;
      assert forall i :: 0 <= i < n ==> frames[..n][i] == frames[i];
    }
  }

  lemma MarkedIs(protocol: Protocol, frame: Frame, decode: Decode)
    ensures IsMarked(protocol, frame, decode) == CountedMarker(protocol, frame, decode).Some?
  {
  }

  lemma {:induction false} CountsLate(protocol: Protocol, frames: seq<Frame>, decode: Decode)
    ensures CountAfterEnd(protocol, frames, decode) == |Late(protocol, frames, decode)|
  {
    hide Late, Ended;
    LateGrows(protocol, frames, decode);
    if frames != [] { CountsLate(protocol, frames[..|frames| - 1], decode); }
  }

  lemma LateGrows(protocol: Protocol, frames: seq<Frame>, decode: Decode)
    ensures frames == [] ==> Late(protocol, frames, decode) == {}
    ensures frames != [] ==>
              var n := |frames| - 1;
              var before := Late(protocol, frames[..n], decode);
              && n !in before
              && Late(protocol, frames, decode) ==
                 before + (if Ended(protocol, frames[..n], decode) && frames[n].data != "" then {n} else {})
  {
    hide IsLate, Ended;
    if frames != [] {
      var n := |frames| - 1;
      forall i | 0 <= i < n ensures IsLate(protocol, frames, decode, i) == IsLate(protocol, frames[..n], decode, i) {
        LateEarlier(protocol, frames, decode, n, i);
      }
      LateLast(protocol, frames, decode);
    }
  }

  lemma LateEarlier(protocol: Protocol, frames: seq<Frame>, decode: Decode, n: nat, i: nat)
    requires i < n <= |frames|
    ensures IsLate(protocol, frames, decode, i) == IsLate(protocol, frames[..n], decode, i)
  {
    hide EndsStream;
    assert forall j :: 0 <= j <= i ==> frames[..n][j] == frames[j];
  }

  lemma LateLast(protocol: Protocol, frames: seq<Frame>, decode: Decode)
    requires frames != []
    ensures var n := |frames| - 1;
            IsLate(protocol, frames, decode, n) <==> Ended(protocol, frames[..n], decode) && frames[n].data != ""
  {
    hide EndsStream;
    var n := |frames| - 1;
    assert forall j :: 0 <= j < n ==> frames[..n][j] == frames[j];
  }

  /** Entry k of a trace names a marked frame and its marker, and entries ascend. */
  ghost predicate Entries(protocol: Protocol, frames: seq<Frame>, decode: Decode, trace: seq<(nat, string)>)
  {
    && (forall k :: 0 <= k < |trace| ==> IsEntry(protocol, frames, decode, trace[k]))
    && (forall j, k :: 0 <= j < k < |trace| ==> trace[j].0 < trace[k].0)
  }

  predicate IsEntry(protocol: Protocol, frames: seq<Frame>, decode: Decode, entry: (nat, string))
  {
    1 <= entry.0 <= |frames| && CountedMarker(protocol, frames[entry.0 - 1], decode) == Some(entry.1)
  }

  /** The trace holds every marked frame, or the first eight. */
  ghost predicate Complete(protocol: Protocol, frames: seq<Frame>, decode: Decode, trace: seq<(nat, string)>)
  {
    forall i :: 0 <= i < |frames| && IsMarked(protocol, frames[i], decode) ==> Covers(trace, i)
  }

  ghost predicate Covers(trace: seq<(nat, string)>, i: nat)
  {
    (exists k :: 0 <= k < |trace| && trace[k].0 == i + 1) || (|trace| == 8 && forall k :: 0 <= k < |trace| ==> trace[k].0 < i + 1)
  }

  /** A trace with room for one more marker. */
  function Noted(trace: seq<(nat, string)>, position: nat, marker: Option<string>): seq<(nat, string)>
  {
    if marker.Some? && |trace| < 8 then trace + [(position, marker.value)] else trace
  }

  lemma TraceUnfolds(protocol: Protocol, frames: seq<Frame>, decode: Decode)
    ensures frames == [] ==> TraceMarkers(protocol, frames, decode) == []
    ensures frames != [] ==>
              var n := |frames| - 1;
              TraceMarkers(protocol, frames, decode) ==
              Noted(TraceMarkers(protocol, frames[..n], decode), n + 1, CountedMarker(protocol, frames[n], decode))
  {
    hide CountedMarker;
  }

  /** The trace lists the marked frames in order: all of them, or the first eight. */
  lemma {:induction false} TraceKeepsFirst(protocol: Protocol, frames: seq<Frame>, decode: Decode)
    ensures Entries(protocol, frames, decode, TraceMarkers(protocol, frames, decode))
    ensures Complete(protocol, frames, decode, TraceMarkers(protocol, frames, decode))
  {
    hide CountedMarker, TraceMarkers, Entries, Complete, Noted;
    TraceUnfolds(protocol, frames, decode);
    if frames == [] {
      NoEntries(protocol, decode);
    } else {
      var n := |frames| - 1;
      TraceKeepsFirst(protocol, frames[..n], decode);
      var before := TraceMarkers(protocol, frames[..n], decode);
      NotedEntries(protocol, frames, decode, before);
      NotedComplete(protocol, frames, decode, before);
    }
  }

  lemma NoEntries(protocol: Protocol, decode: Decode)
    ensures Entries(protocol, [], decode, []) && Complete(protocol, [], decode, [])
  {
  }

  lemma NotedEntries(protocol: Protocol, frames: seq<Frame>, decode: Decode, before: seq<(nat, string)>)
    requires frames != [] && Entries(protocol, frames[..|frames| - 1], decode, before)
    ensures Entries(protocol, frames, decode, Noted(before, |frames|, CountedMarker(protocol, frames[|frames| - 1], decode)))
  {
    hide CountedMarker, IsEntry;
    var n := |frames| - 1;
    var marker := CountedMarker(protocol, frames[n], decode);
    var trace := Noted(before, |frames|, marker);
    forall k | 0 <= k < |trace| ensures IsEntry(protocol, frames, decode, trace[k]) {
      if k < |before| { EntryStays(protocol, frames, decode, before[k]); } else { NewEntry(protocol, frames, decode, trace[k]); }
    }
    forall k | 0 <= k < |before| ensures before[k].0 < |frames| { EntryStays(protocol, frames, decode, before[k]); }
  }

  lemma EntryStays(protocol: Protocol, frames: seq<Frame>, decode: Decode, entry: (nat, string))
    requires frames != [] && IsEntry(protocol, frames[..|frames| - 1], decode, entry)
    ensures IsEntry(protocol, frames, decode, entry) && entry.0 < |frames|
  {
    hide CountedMarker;
  }

  lemma NewEntry(protocol: Protocol, frames: seq<Frame>, decode: Decode, entry: (nat, string))
    requires frames != [] && entry.0 == |frames| && CountedMarker(protocol, frames[|frames| - 1], decode) == Some(entry.1)
    ensures IsEntry(protocol, frames, decode, entry)
  {
  }

  lemma NotedComplete(protocol: Protocol, frames: seq<Frame>, decode: Decode, before: seq<(nat, string)>)
    requires frames != [] && |before| <= 8
    requires Entries(protocol, frames[..|frames| - 1], decode, before) && Complete(protocol, frames[..|frames| - 1], decode, before)
    ensures Complete(protocol, frames, decode, Noted(before, |frames|, CountedMarker(protocol, frames[|frames| - 1], decode)))
  {
    hide CountedMarker, Covers, IsMarked, Noted;
    var n := |frames| - 1;
    var marker := CountedMarker(protocol, frames[n], decode);
    MarkedIs(protocol, frames[n], decode);
    forall i | 0 <= i < |frames| && IsMarked(protocol, frames[i], decode) ensures Covers(Noted(before, |frames|, marker), i) {
      if i < n {
        assert frames[..n][i] == frames[i];
        CoversMore(before, i, n, marker);
      } else {
        CoversLast(before, n, marker);
      }
    }
  }

  lemma CoversMore(before: seq<(nat, string)>, i: nat, n: nat, marker: Option<string>)
    requires Covers(before, i) && i < n && |before| <= 8
    ensures Covers(Noted(before, n + 1, marker), i)
  {
    var trace := Noted(before, n + 1, marker);
    if k :| 0 <= k < |before| && before[k].0 == i + 1 { assert trace[k].0 == i + 1; }
  }

  lemma CoversLast(before: seq<(nat, string)>, n: nat, marker: Option<string>)
    requires marker.Some? && |before| <= 8 && forall k :: 0 <= k < |before| ==> before[k].0 <= n
    ensures Covers(Noted(before, n + 1, marker), n)
  {
    var trace := Noted(before, n + 1, marker);
    if |before| < 8 { assert trace[|before|].0 == n + 1; }
  }

  /** The facts of a parsed stream, counted over its frames. */
  lemma FactsCount(facts: Facts, protocol: Protocol, frames: seq<Frame>, decode: Decode)
    requires FactsHold(facts, protocol, frames, decode)
    ensures facts.terminalCount == |Marked(protocol, frames, decode)|
    ensures facts.postTerminal == |Late(protocol, frames, decode)|
    ensures Entries(protocol, frames, decode, facts.terminalTrace) && Complete(protocol, frames, decode, facts.terminalTrace)
    ensures |facts.terminalTrace| + facts.terminalOmitted == facts.terminalCount
  {
    hide Entries, Complete;
    CountsMarked(protocol, frames, decode);
    CountsLate(protocol, frames, decode);
    TraceKeepsFirst(protocol, frames, decode);
  }
}
