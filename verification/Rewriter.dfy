/** The strategies as they run: a request body rewritten in place, loop by loop. */
module Rewriter {
  import opened Wire
  import opened Flattening
  import opened Markers
  import opened Reasoning
  import opened MarkerMoves

  /** The body a strategy owns and rewrites. */
  class Outgoing {
    var body: Body

    constructor (body: Body)
      ensures this.body == body
    {
      this.body := body;
    }

    /** `_clear_message_markers`, string normalisation included. */
    method ClearMessageMarkers()
      modifies this
      ensures body == old(body).(messages := CleanMessages(old(body.messages)))
    {
      var i := 0;
      while i < |body.messages|
        invariant 0 <= i <= |body.messages| == |old(body.messages)|
        invariant body == old(body).(messages := CleanMessages(old(body.messages))[..i] + old(body.messages)[i..])
      {
        var m := body.messages[i];
        assert m == old(body.messages)[i];
        var content := m.content;
        if content.Text? {
          content := Blocks([TextBlock(content.text)]);
        } else if content.Blocks? {
          var blocks := PopMarkers(content.blocks);
          content := Blocks(blocks);
        }
        body := body.(messages := body.messages[i := m.(content := content)]);
        i := i + 1;
      }
    }

    /** `_tail_breakpoints`: clears, lists the blocks, then writes the markers one by one. */
    method PlaceTail(count: nat)
      modifies this
      ensures body == TailBreakpoints(old(body), count)
    {
      ClearMessageMarkers();
      var places := ListPlaces(body.messages, |body.messages|);
      AllPlacesEditable(body.messages);
      PlaceMarkers(places, Backs(|places|, count));
    }

    /** Writes a marker at each position, counted back from the end of the list. */
    method PlaceMarkers(places: seq<Place>, backs: seq<nat>)
      requires AllEditable(body.messages, places)
      modifies this
      ensures AllEditable(old(body.messages), places)
      ensures body == old(body).(messages := MarkBacks(old(body.messages), places, backs, |backs|))
    {
      ghost var ms := body.messages;
      var i := 0;
      while i < |backs|
        invariant 0 <= i <= |backs|
        invariant AllEditable(ms, places) && AllEditable(body.messages, places)
        invariant body == old(body).(messages := MarkBacks(ms, places, backs, i))
      {
        body := body.(messages := MarkNext(body.messages, places, backs[i]));
        i := i + 1;
      }
    }

    /** `_drop_first_system_marker`: says whether there was one. */
    method DropFirstSystemMarker() returns (moved: bool)
      modifies this
      ensures body == old(body).(system := DropFirst(old(body.system)))
      ensures moved == (old(body.system).Blocks? && FirstTruthy(old(body.system).blocks, 0) < |old(body.system).blocks|)
    {
      if !body.system.Blocks? {
        return false;
      }
      var blocks := body.system.blocks;
      var i := 0;
      while i < |blocks|
        invariant 0 <= i <= |blocks|
        invariant FirstTruthy(blocks, 0) == FirstTruthy(blocks, i)
      {
        if Truthy(Get(blocks[i], CacheControl)) {
          body := body.(system := Blocks(blocks[i := Unmark(blocks[i])]));
          return true;
        }
        i := i + 1;
      }
      return false;
    }

    /** `rebalance-1sys-ntail`. */
    method RebalanceTail(count: nat)
      modifies this
      ensures body == Rebalance(old(body), count)
    {
      var _ := DropFirstSystemMarker();
      PlaceTail(count);
    }

    /** `strip-system-breakpoints`. */
    method StripSystemMarkers()
      modifies this
      ensures body == StripSystem(old(body))
    {
      if body.system.Blocks? {
        var blocks := PopMarkers(body.system.blocks);
        body := body.(system := Blocks(blocks));
      }
    }

    /** `_force_ttl`. */
    method ForceTtlTo(ttl: string)
      modifies this
      ensures body == ForceTtl(old(body), ttl)
    {
      if body.system.Blocks? {
        var blocks := RetimeBlocks(body.system.blocks, ttl);
        body := body.(system := Blocks(blocks));
      }
      var messages := RetimeMessages(body.messages, ttl);
      body := body.(messages := messages);
    }

    /** Writes an hour-long marker on each listed block. */
    method MarkForAnHour(places: seq<Place>)
      requires AllEditable(body.messages, places)
      modifies this
      ensures AllEditable(old(body.messages), places)
      ensures body == old(body).(messages := ApplyAll(old(body.messages), Hour(places)))
    {
      ghost var es := Hour(places);
      var i := 0;
      while i < |places|
        invariant 0 <= i <= |places| && AllEditable(body.messages, places) && Fit(body.messages, es[i..])
        invariant body == old(body).(messages := body.messages)
        invariant ApplyAll(body.messages, es[i..]) == ApplyAll(old(body.messages), es)
      {
        assert es[i..][0] == es[i] && es[i..][1..] == es[i + 1..];
        body := body.(messages := MarkAt(body.messages, places[i], Ephemeral("1h")));
        i := i + 1;
      }
    }

    /** `_spread_pair`. */
    method SpreadPair(target: nat)
      modifies this
      ensures body == PairBack(old(body), target)
    {
      ClearMessageMarkers();
      var at := ListPlaces(body.messages, |body.messages|);
      ghost var places := PairPlaces(body.messages, target);
      MarkForAnHour(PairOf(at, target));
    }

    /** `_emulate_proxy_tail`. */
    method EmulateProxyTail(slots: nat)
      modifies this
      ensures body == TailSlots(old(body), slots)
    {
      ClearMessageMarkers();
      var last := ListLastEnds(body.messages, slots);
      MarkForAnHour(last);
    }

    /** `_marked_positions`, and the first marker found. */
    method FindPositions() returns (at: seq<Place>, marked: seq<nat>, control: Json)
      ensures at == Positions(body) && marked == MarkedPositions(body) && control == FirstControl(body)
      ensures AllEditable(body.messages, at) && forall k :: 0 <= k < |marked| ==> marked[k] < |at|
    {
      at := ListPlaces(body.messages, |body.messages|);
      AllPlacesEditable(body.messages);
      marked := FindMarked(body.messages, at);
      control := if marked == [] then Null else Get(BlockAt(body.messages, at[marked[0]]), CacheControl);
    }

    /** `_spread_shipped`, for a fraction between 0 and 1. */
    method SpreadShippedBack(target: nat)
      modifies this
      ensures body == Moved(SpreadShipped(target), old(body))
    {
      var at, marked, control := FindPositions();
      if |marked| == 1 && target < marked[0] {
        Write(at[target], control);
      }
    }

    /** `_anchor_1h`. */
    method AnchorForAnHour(target: nat)
      modifies this
      ensures body == Moved(AnchorHour(target), old(body))
    {
      var at, marked, _ := FindPositions();
      if |marked| == 1 && target < marked[0] {
        Write(at[target], Ephemeral("1h"));
      }
    }

    /** `shipped_tail`. */
    method PushToTail()
      modifies this
      ensures body == Moved(ShippedTail, old(body))
    {
      var at, marked, control := FindPositions();
      if |marked| == 1 && marked[0] != |at| - 1 {
        Carry(at[marked[0]], at[|at| - 1], control);
      }
    }

    /** `_spread_wire`, for a fraction between 0 and 1. */
    method SpreadWireBack(step: nat)
      modifies this
      ensures body == Moved(SpreadWire(step), old(body))
    {
      var at, marked, control := FindPositions();
      var es := PlanWire(at, marked, control, step);
      assert es == Edits(SpreadWire(step), body);
      ApplyEdits(es);
    }

    method ApplyEdits(es: seq<Edit>)
      requires Fit(body.messages, es)
      modifies this
      ensures Fit(old(body.messages), es)
      ensures body == old(body).(messages := ApplyAll(old(body.messages), es))
    {
      var i := 0;
      while i < |es|
        invariant 0 <= i <= |es| && Fit(body.messages, es[i..])
        invariant body == old(body).(messages := body.messages)
        invariant ApplyAll(body.messages, es[i..]) == ApplyAll(old(body.messages), es)
      {
        assert es[i..][0] == es[i] && es[i..][1..] == es[i + 1..];
        body := body.(messages := Apply(body.messages, es[i]));
        i := i + 1;
      }
    }

    method Write(p: Place, control: Json)
      requires Editable(body.messages, p)
      modifies this
      ensures Fit(old(body.messages), [Put(p, control)])
      ensures body == old(body).(messages := ApplyAll(old(body.messages), [Put(p, control)]))
    {
      ApplyFew(body.messages, Put(p, control), Put(p, control));
      body := body.(messages := MarkAt(body.messages, p, control));
    }

    /** Pops the marker of one block and assigns it to another. */
    method Carry(p: Place, q: Place, control: Json)
      requires Editable(body.messages, p) && Editable(body.messages, q)
      modifies this
      ensures Fit(old(body.messages), [Pop(p), Put(q, control)])
      ensures body == old(body).(messages := ApplyAll(old(body.messages), [Pop(p), Put(q, control)]))
    {
      ApplyFew(body.messages, Pop(p), Put(q, control));
      var popped := Apply(body.messages, Pop(p));
      body := body.(messages := MarkAt(popped, q, control));
    }

    /** `_strip_behind_last_assistant`. */
    method StripBehindLastAssistant() returns (last: Option<nat>)
      modifies this
      ensures last == Newest(old(body))
      ensures last.None? ==> body == old(body)
      ensures last.Some? ==> body == old(body).(messages := StripExcept(old(body.messages), last.value))
    {
      last := FindAssistant(body.messages);
      if last.None? {
        return;
      }
      var messages := StripMessages(body.messages, last.value);
      body := body.(messages := messages);
    }

    /** `_mark_last_block_before`. */
    method MarkLastBlockBefore(limit: nat) returns (placed: bool)
      requires limit <= |body.messages|
      modifies this
      ensures body == old(body).(messages := MarkLastBefore(old(body.messages), limit))
      ensures placed == SealBefore(old(body.messages), limit).Some?
    {
      var i := limit;
      while i > 0
        invariant 0 <= i <= limit <= |body.messages| && body == old(body)
        invariant SealBefore(body.messages, limit) == SealBefore(body.messages, i)
      {
        if Sealable(body.messages[i - 1]) {
          body := body.(messages := MarkAt(body.messages, EndOf(body.messages, i - 1), Ephemeral("1h")));
          return true;
        }
        i := i - 1;
      }
      return false;
    }

    /** `strip-old-thinking-safe-marks`. */
    method StripSafeMarks()
      modifies this
      ensures body == SafeMarks(old(body))
    {
      var last := StripBehindLastAssistant();
      if last.None? {
        return;
      }
      ClearMessageMarkers();
      var _ := MarkLastBlockBefore(last.value);
    }

    /** `strip-old-thinking-spread-marks`. */
    method StripSpreadMarks()
      modifies this
      ensures body == SpreadMarks(old(body))
    {
      var last := StripBehindLastAssistant();
      if last.None? {
        return;
      }
      ClearMessageMarkers();
      var places := ListPlaces(body.messages, last.value);
      PlacesBeforeEditable(body.messages, last.value);
      PlaceMarkers(places, Backs(|places|, Budget(body.system)));
    }
  }

  method PopMarkers(blocks: seq<Json>) returns (r: seq<Json>)
    ensures r == UnmarkAll(blocks)
  {
    r := blocks;
    var j := 0;
    while j < |r|
      invariant 0 <= j <= |r| == |blocks|
      invariant r == UnmarkAll(blocks)[..j] + blocks[j..]
    {
      r := r[j := Unmark(r[j])];
      j := j + 1;
    }
  }

  /** The mutable blocks of the first `n` messages, in order. */
  method ListPlaces(ms: seq<Message>, n: nat) returns (places: seq<Place>)
    requires n <= |ms|
    ensures places == Places(ms, n)
  {
    places := [];
    var i := 0;
    while i < n
      invariant 0 <= i <= n && places == Places(ms, i)
    {
      if ms[i].content.Blocks? {
        var blocks := ms[i].content.blocks;
        var j := 0;
        while j < |blocks|
          invariant 0 <= j <= |blocks| && places == Places(ms, i) + PlacesIn(blocks, i, j)
        {
          if blocks[j].Obj? {
            places := places + [Place(i, j)];
          }
          j := j + 1;
        }
      }
      i := i + 1;
    }
  }

  method RetimeBlocks(blocks: seq<Json>, ttl: string) returns (r: seq<Json>)
    ensures r == RetimeAll(blocks, ttl)
  {
    r := [];
    var i := 0;
    while i < |blocks|
      invariant 0 <= i <= |blocks|
      invariant r == RetimeAll(blocks, ttl)[..i]
    {
      var b := blocks[i];
      if Marked(b) {
        b := Mark(b, Ephemeral(ttl));
      }
      r := r + [b];
      i := i + 1;
    }
  }

  method RetimeMessages(ms: seq<Message>, ttl: string) returns (r: seq<Message>)
    ensures |r| == |ms|
    ensures forall i :: 0 <= i < |ms| ==> r[i] == ms[i].(content := Retime(ms[i].content, ttl))
  {
    r := [];
    var i := 0;
    while i < |ms|
      invariant 0 <= i == |r| <= |ms|
      invariant forall k :: 0 <= k < i ==> r[k] == ms[k].(content := Retime(ms[k].content, ttl))
    {
      var content := ms[i].content;
      if content.Text? {
        content := Blocks([TextBlock(content.text)]);
      } else if content.Blocks? {
        var blocks := RetimeBlocks(content.blocks, ttl);
        content := Blocks(blocks);
      }
      r := r + [ms[i].(content := content)];
      i := i + 1;
    }
  }

  /** Where the earlier of two markers goes; a null one is popped and nothing else. */
  method PlanWire(at: seq<Place>, marked: seq<nat>, control: Json, step: nat) returns (es: seq<Edit>)
    requires forall k :: 0 <= k < |marked| ==> marked[k] < |at|
    ensures es == EditsAt(SpreadWire(step), at, marked, control)
  {
    es := [];
    if |marked| == 2 {
      var back := if step == 0 then 1 else step;
      if back <= marked[1] && marked[1] - back != marked[0] {
        es := [Pop(at[marked[0]])];
        if !control.Null? {
          es := es + [Put(at[marked[1] - back], control)];
        }
      }
    }
  }

  /** Which of the listed blocks carry `cache_control`. */
  method FindMarked(ms: seq<Message>, places: seq<Place>) returns (marked: seq<nat>)
    requires AllEditable(ms, places)
    ensures marked == MarkedIn(ms, places, |places|)
  {
    marked := [];
    var i := 0;
    while i < |places|
      invariant 0 <= i <= |places| && marked == MarkedIn(ms, places, i)
    {
      if HasControl(ms, places[i]) {
        marked := marked + [i];
      }
      i := i + 1;
    }
  }

  method ListLastEnds(ms: seq<Message>, slots: nat) returns (last: seq<Place>)
    ensures last == LastEnds(ms, slots)
  {
    var ends := ListEnds(ms);
    last := LastOf(ends, slots);
  }

  /** The last block of every message that can carry a marker there. */
  method ListEnds(ms: seq<Message>) returns (ends: seq<Place>)
    ensures ends == Ends(ms, |ms|)
  {
    ends := [];
    var i := 0;
    while i < |ms|
      invariant 0 <= i <= |ms| && ends == Ends(ms, i)
    {
      if Sealable(ms[i]) {
        ends := ends + [EndOf(ms, i)];
      }
      i := i + 1;
    }
  }

  method FindAssistant(ms: seq<Message>) returns (last: Option<nat>)
    ensures last == NewestAssistant(ms, |ms|)
  {
    last := None;
    var i := 0;
    while i < |ms|
      invariant 0 <= i <= |ms| && last == NewestAssistant(ms, i)
    {
      if ms[i].role == "assistant" {
        last := Some(i);
      }
      i := i + 1;
    }
  }

  method StripMessages(ms: seq<Message>, last: nat) returns (r: seq<Message>)
    ensures r == StripExcept(ms, last)
  {
    r := ms;
    var i := 0;
    while i < |r|
      invariant 0 <= i <= |r| == |ms|
      invariant r == StripExcept(ms, last)[..i] + ms[i..]
    {
      if i != last {
        var stripped := StripOne(ms[i]);
        r := r[i := stripped];
      }
      i := i + 1;
    }
  }

  method StripOne(m: Message) returns (r: Message)
    ensures r == StripMessage(m)
  {
    r := m;
    if m.content.Blocks? {
      var kept := FilterThinking(m.content.blocks);
      r := m.(content := Blocks(kept));
    }
  }

  method FilterThinking(blocks: seq<Json>) returns (kept: seq<Json>)
    ensures kept == DropThinking(blocks)
  {
    kept := [];
    var j := 0;
    while j < |blocks|
      invariant 0 <= j <= |blocks| && kept + DropThinking(blocks[j..]) == DropThinking(blocks)
    {
      assert blocks[j..][1..] == blocks[j + 1..];
      if !IsThinking(blocks[j]) {
        kept := kept + [blocks[j]];
      }
      j := j + 1;
    }
  }
}
