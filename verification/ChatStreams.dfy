/**
 The Chat streams that the protocol describes: tools opened properly, one finish
 after the last fragment and one [DONE] at the end.  They are all accepted, with
 every tool's arguments intact.
 */
module ChatStreams {
  import opened Common
  import opened Lifecycle
  import opened StreamDecoder
  import opened BlockMirror
  import opened ChatAcceptance

  // ----- the native stream

  datatype ChatItem = DoneMark | Skipped | Part(chunk: ChatChunk)

  function ItemOfFrame(frame: Frame, decode: Decode): ChatItem
  {
    if IsDone(frame.data) then DoneMark
    else match decode(frame.data)
      case None => Skipped
      case Some(value) => Part(ReadChat(value))
  }

  function ItemsOf(frames: seq<Frame>, decode: Decode): (items: seq<ChatItem>)
    ensures |items| == |frames|
  {
    seq(|frames|, i requires 0 <= i < |frames| => ItemOfFrame(frames[i], decode))
  }

  /** The tool fragments of a stream, in order. */
  function FragmentsOf(items: seq<ChatItem>): seq<Fragment>
  {
    if items == [] then []
    else
      var n := |items| - 1;
      FragmentsOf(items[..n]) + if items[n].Part? then items[n].chunk.fragments else []
  }

  /** The native argument text of one tool, in order. */
  function TextsOf(fragments: seq<Fragment>, index: int): string
  {
    if fragments == [] then ""
    else
      var n := |fragments| - 1;
      TextsOf(fragments[..n], index) + if fragments[n].index == index then fragments[n].text else ""
  }

  predicate Opens(fragments: seq<Fragment>, i: nat)
    requires i < |fragments|
  {
    forall j :: 0 <= j < i ==> fragments[j].index != fragments[i].index
  }

  /** Tools open at distinct nonnegative indexes with fresh nonempty IDs; later
      fragments repeat or omit the ID their tool opened with. */
  ghost predicate FragmentRules(fragments: seq<Fragment>)
  {
    && (forall i :: 0 <= i < |fragments| && Opens(fragments, i) ==>
          fragments[i].index >= 0 && fragments[i].callId != "" &&
          forall j :: 0 <= j < i && Opens(fragments, j) ==> fragments[j].callId != fragments[i].callId)
    && (forall i, j :: 0 <= j < i < |fragments| && Opens(fragments, j) && fragments[j].index == fragments[i].index ==>
          fragments[i].callId == "" || fragments[i].callId == fragments[j].callId)
  }

  /** One finish_reason, at `finish`, after every fragment; one [DONE], at the end. */
  ghost predicate Proper(items: seq<ChatItem>, finish: nat)
  {
    && finish < |items| - 1
    && items[|items| - 1] == DoneMark
    && (forall i :: 0 <= i < |items| - 1 ==> items[i] != DoneMark)
    && items[finish].Part? && items[finish].chunk.finish.Some?
    && (forall i :: 0 <= i < |items| && i != finish && items[i].Part? ==> items[i].chunk.finish.None?)
    && (forall i :: finish < i < |items| && items[i].Part? ==> items[i].chunk.fragments == [])
    && FragmentRules(FragmentsOf(items))
  }

  // ----- what the table of tools says about the fragments

  ghost predicate Opened(fragments: seq<Fragment>, index: int)
  {
    exists i :: 0 <= i < |fragments| && Opens(fragments, i) && fragments[i].index == index
  }

  ghost predicate Track(b: map<int, Block>, fragments: seq<Fragment>)
  {
    && (forall i :: 0 <= i < |fragments| ==> fragments[i].index in b)
    && (forall k :: k in b ==> Opened(fragments, k))
    && (forall i :: 0 <= i < |fragments| && Opens(fragments, i) ==> b[fragments[i].index].callId == fragments[i].callId)
    && (forall k :: k in b ==> b[k].text == TextsOf(fragments, k))
    && (forall k :: k !in b ==> TextsOf(fragments, k) == "")
  }

  /** What a fragment may look like, given the tools already open. */
  predicate Conforms(b: map<int, Block>, f: Fragment)
  {
    if f.index in b then f.callId == "" || f.callId == b[f.index].callId
    else f.index >= 0 && f.callId != "" && forall k :: k in b ==> b[k].callId != f.callId
  }

  lemma RulesConform(b: map<int, Block>, fragments: seq<Fragment>, f: Fragment)
    requires Track(b, fragments) && FragmentRules(fragments + [f])
    ensures Conforms(b, f)
  {
    hide TextsOf;
    var all := fragments + [f];
    var n := |fragments|;
    assert all[n] == f;
    forall i | 0 <= i < n ensures all[i] == fragments[i] && (Opens(all, i) <==> Opens(fragments, i)) {
      assert forall j :: 0 <= j < i ==> all[j] == fragments[j];
    }
    if f.index in b {
      var i :| 0 <= i < n && Opens(fragments, i) && fragments[i].index == f.index;
      assert Opens(all, i);
    } else {
      assert Opens(all, n);
      forall k | k in b ensures b[k].callId != f.callId {
        var i :| 0 <= i < n && Opens(fragments, i) && fragments[i].index == k;
        assert Opens(all, i);
      }
    }
  }

  lemma RulesPrefix(fragments: seq<Fragment>, more: seq<Fragment>)
    requires FragmentRules(fragments + more)
    ensures FragmentRules(fragments)
  {
    var all := fragments + more;
    forall i | 0 <= i < |fragments| ensures all[i] == fragments[i] && (Opens(all, i) <==> Opens(fragments, i)) {
      assert forall j :: 0 <= j < i ==> all[j] == fragments[j];
    }
  }

  lemma TextsSnoc(fragments: seq<Fragment>, f: Fragment, index: int)
    ensures TextsOf(fragments + [f], index) == TextsOf(fragments, index) + if f.index == index then f.text else ""
  {
    assert (fragments + [f])[..|fragments|] == fragments;
  }

  lemma OpensSnoc(fragments: seq<Fragment>, f: Fragment, i: nat)
    requires i <= |fragments|
    ensures Opens(fragments + [f], i) <==>
            if i < |fragments| then Opens(fragments, i) else forall j :: 0 <= j < |fragments| ==> fragments[j].index != f.index
  {
    var all := fragments + [f];
    assert forall j :: 0 <= j < |fragments| ==> all[j] == fragments[j];
    assert all[|fragments|] == f;
  }

  lemma OpenedSnoc(fragments: seq<Fragment>, f: Fragment, index: int)
    requires Opened(fragments, index) || (f.index == index && forall j :: 0 <= j < |fragments| ==> fragments[j].index != index)
    ensures Opened(fragments + [f], index)
  {
    var all := fragments + [f];
    if Opened(fragments, index) {
      var i :| 0 <= i < |fragments| && Opens(fragments, i) && fragments[i].index == index;
      OpensSnoc(fragments, f, i);
      assert all[i].index == index;
    } else {
      OpensSnoc(fragments, f, |fragments|);
      assert all[|fragments|].index == index;
    }
  }

  lemma NeverOpened(fragments: seq<Fragment>, index: int)
    requires forall j :: 0 <= j < |fragments| ==> fragments[j].index != index
    ensures !Opened(fragments, index)
  {
  }

  lemma TrackStep(b: map<int, Block>, fragments: seq<Fragment>, f: Fragment)
    requires Track(b, fragments)
    ensures Track(AfterNative(b, Piece(f)), fragments + [f])
  {
    hide TextsOf, Opens, Opened;
    var all, after := fragments + [f], AfterNative(b, Piece(f));
    forall k ensures TextsOf(all, k) == TextsOf(fragments, k) + if f.index == k then f.text else "" { TextsSnoc(fragments, f, k); }
    forall k | k in after ensures Opened(all, k) { OpenedSnoc(fragments, f, k); }
    forall i | 0 <= i < |all| && Opens(all, i) ensures after[all[i].index].callId == all[i].callId {
      OpensSnoc(fragments, f, i);
      if i == |fragments| { NeverOpened(fragments, f.index); }
    }
    forall k | k in after ensures after[k].text == TextsOf(all, k) {
      if k != f.index { assert TextsOf(fragments, k) + "" == TextsOf(fragments, k); }
      if k == f.index && f.index !in b { assert "" + f.text == f.text; }
    }
  }

  // ----- the stream, native event by native event

  function ItemNatives(item: ChatItem): seq<Native>
  {
    match item
    case DoneMark => [Done]
    case Skipped => []
    case Part(chunk) => ChunkNatives(chunk)
  }

  function AllNatives(items: seq<ChatItem>): seq<Native>
  {
    if items == [] then [] else AllNatives(items[..|items| - 1]) + ItemNatives(items[|items| - 1])
  }

  lemma {:induction false} NativesByItem(frames: seq<Frame>, decode: Decode)
    ensures NativesOf(frames, decode) == AllNatives(ItemsOf(frames, decode))
  {
    hide ReadChat, ChunkNatives;
    if frames != [] {
      var n := |frames| - 1;
      NativesByItem(frames[..n], decode);
      assert ItemsOf(frames, decode)[..n] == ItemsOf(frames[..n], decode);
    }
  }

  /** Everything so far is in place, the fragments are in, and the tools are all open or all closed. */
  ghost predicate Collected(h: seq<Native>, fragments: seq<Fragment>, closed: bool)
  {
    && AllInPlace(h) && !Over(h) && Track(Blocks(h), fragments)
    && forall k :: k in Blocks(h) ==> Blocks(h)[k].stopped == closed
  }

  lemma CollectBegin(h: seq<Native>, fragments: seq<Fragment>, closed: bool)
    requires Collected(h, fragments, closed)
    ensures Collected(h + [Begin], fragments, closed) && Begun(h + [Begin])
  {
    hide AllInPlace, Over, Begun, Blocks, Track;
    AllInPlaceSnoc(h, Begin);
    HistorySnoc(h, Begin);
  }

  lemma CollectPiece(h: seq<Native>, fragments: seq<Fragment>, f: Fragment)
    requires Collected(h, fragments, false) && Begun(h) && FragmentRules(fragments + [f])
    ensures Collected(h + [Piece(f)], fragments + [f], false) && Begun(h + [Piece(f)])
  {
    hide AllInPlace, Over, Begun, Blocks, Track, FragmentRules;
    AllInPlaceSnoc(h, Piece(f));
    HistorySnoc(h, Piece(f));
    RulesConform(Blocks(h), fragments, f);
    TrackStep(Blocks(h), fragments, f);
  }

  lemma {:induction false} CollectPieces(h: seq<Native>, earlier: seq<Fragment>, fragments: seq<Fragment>)
    requires Collected(h, earlier, false) && Begun(h) && FragmentRules(earlier + fragments)
    ensures Collected(h + PiecesOf(fragments), earlier + fragments, false) && Begun(h + PiecesOf(fragments))
  {
    hide Collected, Begun, FragmentRules;
    if fragments == [] {
      assert h + PiecesOf(fragments) == h && earlier + fragments == earlier;
    } else {
      var n := |fragments| - 1;
      assert earlier + fragments == (earlier + fragments[..n]) + [fragments[n]];
      RulesPrefix(earlier + fragments[..n], [fragments[n]]);
      CollectPieces(h, earlier, fragments[..n]);
      CollectPiece(h + PiecesOf(fragments[..n]), earlier + fragments[..n], fragments[n]);
      assert h + PiecesOf(fragments) == (h + PiecesOf(fragments[..n])) + [Piece(fragments[n])];
    }
  }

  lemma CollectFinish(h: seq<Native>, fragments: seq<Fragment>)
    requires Collected(h, fragments, false)
    ensures Collected(h + [Finish], fragments, true)
  {
    hide AllInPlace, Over, Begun, Blocks, Track;
    AllInPlaceSnoc(h, Finish);
    HistorySnoc(h, Finish);
    TrackClosed(Blocks(h), fragments);
  }

  lemma TrackClosed(b: map<int, Block>, fragments: seq<Fragment>)
    requires Track(b, fragments)
    ensures Track(CloseAll(b), fragments)
  {
    hide TextsOf, Opens, Opened;
  }

  lemma CollectChunk(h: seq<Native>, fragments: seq<Fragment>, chunk: ChatChunk)
    requires Collected(h, fragments, false) && FragmentRules(fragments + chunk.fragments)
    ensures Collected(h + ChunkNatives(chunk), fragments + chunk.fragments, chunk.finish.Some?)
  {
    hide Collected, Begun, FragmentRules;
    CollectBegin(h, fragments, false);
    CollectPieces(h + [Begin], fragments, chunk.fragments);
    var read := h + [Begin] + PiecesOf(chunk.fragments);
    if chunk.finish.Some? {
      CollectFinish(read, fragments + chunk.fragments);
      assert h + ChunkNatives(chunk) == read + [Finish];
    } else {
      assert h + ChunkNatives(chunk) == read;
    }
  }

  function ItemFragments(item: ChatItem): seq<Fragment> { if item.Part? then item.chunk.fragments else [] }

  lemma FragmentsSnoc(items: seq<ChatItem>, item: ChatItem)
    ensures FragmentsOf(items + [item]) == FragmentsOf(items) + ItemFragments(item)
  {
    assert (items + [item])[..|items|] == items;
  }

  lemma {:induction false} FragmentsPrefix(items: seq<ChatItem>, more: seq<ChatItem>) returns (extra: seq<Fragment>)
    ensures FragmentsOf(items + more) == FragmentsOf(items) + extra
    ensures (forall i :: 0 <= i < |more| ==> ItemFragments(more[i]) == []) ==> extra == []
  {
    hide FragmentsOf, ItemFragments;
    if more == [] {
      assert items + more == items;
      extra := [];
    } else {
      var n := |more| - 1;
      var before := FragmentsPrefix(items, more[..n]);
      assert forall i :: 0 <= i < n ==> more[..n][i] == more[i];
      FragmentsSnoc(items + more[..n], more[n]);
      assert items + more == (items + more[..n]) + [more[n]];
      extra := before + ItemFragments(more[n]);
      assert (FragmentsOf(items) + before) + ItemFragments(more[n]) == FragmentsOf(items) + extra;
    }
  }

  lemma CollectItem(h: seq<Native>, fragments: seq<Fragment>, item: ChatItem)
    requires Collected(h, fragments, false) && item != DoneMark && FragmentRules(fragments + ItemFragments(item))
    ensures Collected(h + ItemNatives(item), fragments + ItemFragments(item), item.Part? && item.chunk.finish.Some?)
  {
    hide Collected, FragmentRules, ChunkNatives;
    if item.Part? {
      CollectChunk(h, fragments, item.chunk);
    } else {
      assert fragments + [] == fragments && h + [] == h;
    }
  }

  lemma RulesUpTo(items: seq<ChatItem>, i: nat)
    requires i <= |items| && FragmentRules(FragmentsOf(items))
    ensures FragmentRules(FragmentsOf(items[..i]))
  {
    hide FragmentRules;
    assert items == items[..i] + items[i..];
    var extra := FragmentsPrefix(items[..i], items[i..]);
    RulesPrefix(FragmentsOf(items[..i]), extra);
  }

  /** Up to and including the finish. */
  lemma {:induction false} CollectAll(items: seq<ChatItem>, finish: nat, i: nat)
    requires Proper(items, finish) && i <= finish + 1
    ensures Collected(AllNatives(items[..i]), FragmentsOf(items[..i]), i == finish + 1)
  {
    hide Collected, FragmentRules, ItemNatives;
    if i == 0 {
      assert items[..0] == [];
      CollectNothing();
    } else {
      CollectAll(items, finish, i - 1);
      var before, item := items[..i - 1], items[i - 1];
      assert items[..i][..i - 1] == before && items[..i][i - 1] == item;
      RulesUpTo(items, i);
      CollectItem(AllNatives(before), FragmentsOf(before), item);
    }
  }

  lemma CollectNothing()
    ensures Collected([], [], false)
  {
  }

  /** From the finish to the last item but one. */
  lemma {:induction false} QuietAfterFinish(items: seq<ChatItem>, finish: nat, i: nat)
    requires Proper(items, finish) && finish < i < |items|
    ensures Collected(AllNatives(items[..i]), FragmentsOf(items[..finish + 1]), true)
  {
    hide Collected, FragmentRules, ItemNatives, FragmentsOf;
    if i == finish + 1 {
      CollectAll(items, finish, i);
    } else {
      QuietAfterFinish(items, finish, i - 1);
      var before, item := items[..i - 1], items[i - 1];
      assert items[..i][..i - 1] == before && items[..i][i - 1] == item;
      QuietItem(AllNatives(before), FragmentsOf(items[..finish + 1]), item);
    }
  }

  lemma QuietItem(h: seq<Native>, fragments: seq<Fragment>, item: ChatItem)
    requires Collected(h, fragments, true) && item != DoneMark && (item.Part? ==> item.chunk == ChatChunk([], None))
    ensures Collected(h + ItemNatives(item), fragments, true)
  {
    hide Collected;
    if item.Part? {
      CollectBegin(h, fragments, true);
      assert ChunkNatives(item.chunk) == [Begin];
    } else {
      assert h + [] == h;
    }
  }

  /** Every proper stream is well formed, and its tools hold their native text. */
  lemma ProperIsWellFormed(items: seq<ChatItem>, finish: nat)
    requires Proper(items, finish)
    ensures ChatAcceptance.WellFormed(AllNatives(items)) && Track(Blocks(AllNatives(items)), FragmentsOf(items))
  {
    hide Over, Begun, Blocks, Track, FragmentRules, AllInPlace, InPlace;
    var n := |items| - 1;
    QuietAfterFinish(items, finish, n);
    FragmentsEnd(items, finish);
    EndCollected(AllNatives(items[..n]), FragmentsOf(items));
  }

  lemma FragmentsEnd(items: seq<ChatItem>, finish: nat)
    requires Proper(items, finish)
    ensures FragmentsOf(items[..finish + 1]) == FragmentsOf(items)
  {
    hide FragmentRules, FragmentsOf;
    var more := items[finish + 1..];
    assert items == items[..finish + 1] + more;
    assert forall i :: 0 <= i < |more| ==> more[i] == items[finish + 1 + i];
    var extra := FragmentsPrefix(items[..finish + 1], more);
  }

  lemma EndCollected(h: seq<Native>, fragments: seq<Fragment>)
    requires Collected(h, fragments, true)
    ensures ChatAcceptance.WellFormed(h + [Done]) && Track(Blocks(h + [Done]), fragments)
  {
    hide Over, Begun, Blocks, Track, AllInPlace;
    AllInPlaceSnoc(h, Done);
    HistorySnoc(h, Done);
  }

  /**
   Every proper Chat stream is accepted, and the arguments kept for each tool are
   exactly the stream's native text for it.
   */
  lemma WellFormedChatIsAccepted(frames: seq<Frame>, decode: Decode, finish: nat)
    requires Proper(ItemsOf(frames, decode), finish)
    ensures var events := DecodeAll(Chat, frames, decode).events;
            var fragments := FragmentsOf(ItemsOf(frames, decode));
            && Accepted(events)
            && (forall i :: 0 <= i < |fragments| ==>
                  var id := ChatItemId(fragments[i].index);
                  var items := Run(events).value.items;
                  id in items && items[id].arguments == TextsOf(fragments, fragments[i].index))
  {
    hide Proper, DecodeAll, Run, ChatItemId, TextsOf, Blocks, ChatAcceptance.WellFormed, Opened, Opens;
    NativesByItem(frames, decode);
    ProperIsWellFormed(ItemsOf(frames, decode), finish);
    AcceptedIffWellFormed(frames, decode);
  }
}
