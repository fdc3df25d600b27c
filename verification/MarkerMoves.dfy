/** The strategies that move or add single markers. What each of them does to a body is a short list of
    edits; what a list of edits does to the conversation, and to the set of marked blocks, is proved once. */
module MarkerMoves {
  import opened Wire
  import opened Flattening
  import opened Markers
  import opened Reasoning

  // ---- Edits ----

  /** `block["cache_control"] = control` and `block.pop("cache_control")`. */
  datatype Edit = Put(place: Place, control: Json) | Pop(place: Place)

  function PopAt(ms: seq<Message>, p: Place): (r: seq<Message>)
    requires Editable(ms, p)
    ensures |r| == |ms|
  {
    var m := ms[p.message];
    ms[p.message := m.(content := Blocks(m.content.blocks[p.block := Unmark(BlockAt(ms, p))]))]
  }

  function Apply(ms: seq<Message>, e: Edit): (r: seq<Message>)
    requires Editable(ms, e.place)
    ensures |r| == |ms| && forall p :: Editable(ms, p) <==> Editable(r, p)
  {
    match e
    case Put(p, control) => MarkAt(ms, p, control)
    case Pop(p) => PopAt(ms, p)
  }

  ghost predicate Fit(ms: seq<Message>, es: seq<Edit>) {
    forall i :: 0 <= i < |es| ==> Editable(ms, es[i].place)
  }

  function ApplyAll(ms: seq<Message>, es: seq<Edit>): seq<Message>
    requires Fit(ms, es)
    decreases |es|
  {
    if es == [] then ms else ApplyAll(Apply(ms, es[0]), es[1..])
  }

  lemma {:induction false} ApplyFew(ms: seq<Message>, e: Edit, f: Edit)
    requires Editable(ms, e.place) && Editable(ms, f.place)
    ensures ApplyAll(ms, [e]) == Apply(ms, e)
    ensures ApplyAll(ms, [e, f]) == Apply(Apply(ms, e), f)
  {
    assert [e][1..] == [] && [e, f][1..] == [f] && [f][1..] == [];
    var next := Apply(ms, e);
    assert ApplyAll(next, [f]) == ApplyAll(Apply(next, f), []);
  }

  /** Nothing but markers is written. */
  ghost predicate MarkersOnly(es: seq<Edit>) {
    forall i :: 0 <= i < |es| && es[i].Put? ==> es[i].control.Obj?
  }

  lemma {:induction false} PopInvisible(ms: seq<Message>, p: Place)
    requires Editable(ms, p) && WellFormedMessages(ms)
    ensures SameMessages(ms, PopAt(ms, p)) && WellFormedMessages(PopAt(ms, p))
  {
    var popped := PopAt(ms, p);
    assert WellFormedContent(ms[p.message].content);
    UnmarkInvisible(BlockAt(ms, p));
    forall i | 0 <= i < |ms|
      ensures SameBare(ContentBlocks(ms[i].role, ms[i].content), ContentBlocks(popped[i].role, popped[i].content))
      ensures WellFormedContent(popped[i].content)
    {
      assert WellFormedContent(ms[i].content);
    }
  }

  /** Any moving, adding, retiming or removing of markers leaves the conversation as it was. */
  lemma {:induction false} EditsInvisible(ms: seq<Message>, es: seq<Edit>)
    requires Fit(ms, es) && MarkersOnly(es) && WellFormedMessages(ms)
    ensures SameMessages(ms, ApplyAll(ms, es)) && WellFormedMessages(ApplyAll(ms, es))
    decreases |es|
  {
    if es == [] {
      SameMessagesRefl(ms);
    } else {
      match es[0] {
        case Put(p, control) => MarkAtInvisible(ms, p, control);
        case Pop(p) => PopInvisible(ms, p);
      }
      var next := Apply(ms, es[0]);
      EditsInvisible(next, es[1..]);
      SameMessagesTrans(ms, next, ApplyAll(next, es[1..]));
    }
  }

  // ---- Which blocks are marked ----

  /** `"cache_control" in block`. */
  predicate HasControl(ms: seq<Message>, p: Place)
    requires Editable(ms, p)
  {
    CacheControl in BlockAt(ms, p).fields
  }

  ghost predicate Carries(ms: seq<Message>, p: Place) { Editable(ms, p) && HasControl(ms, p) }

  /** What a list of edits makes of one block. */
  ghost predicate CarriesAfter(es: seq<Edit>, p: Place, before: bool) {
    if es == [] then before
    else
      var e := es[|es| - 1];
      if e.place == p then e.Put? else CarriesAfter(es[..|es| - 1], p, before)
  }

  lemma {:induction false} ApplyCarries(ms: seq<Message>, e: Edit, p: Place)
    requires Editable(ms, e.place)
    ensures Carries(Apply(ms, e), p) <==> if e.place == p then e.Put? else Carries(ms, p)
  {
    var r := Apply(ms, e);
    if Editable(ms, p) {
      assert Editable(r, p);
      if e.place == p {
        assert BlockAt(r, p) == if e.Put? then Mark(BlockAt(ms, p), e.control) else Unmark(BlockAt(ms, p));
      } else {
        assert BlockAt(r, p) == BlockAt(ms, p);
      }
    }
  }

  /** The last edit of a block decides. */
  lemma {:induction false} EditsCarry(ms: seq<Message>, es: seq<Edit>, p: Place)
    requires Fit(ms, es)
    ensures Carries(ApplyAll(ms, es), p) <==> CarriesAfter(es, p, Carries(ms, p))
    decreases |es|
  {
    if es != [] {
      var next := Apply(ms, es[0]);
      EditsCarry(next, es[1..], p);
      ApplyCarries(ms, es[0], p);
      AfterFirst(es, p, Carries(ms, p));
    }
  }

  lemma {:induction false} AfterFirst(es: seq<Edit>, p: Place, before: bool)
    requires es != []
    ensures CarriesAfter(es, p, before)
       <==> CarriesAfter(es[1..], p, if es[0].place == p then es[0].Put? else before)
  {
    if |es| > 1 {
      var n := |es| - 1;
      AfterFirst(es[..n], p, before);
      assert es[..n][1..] == es[1..][..n - 1];
    } else {
      assert es[..0] == [] && es[1..] == [];
    }
  }

  // ---- The marked positions of a body ----

  /** Which of the first `n` listed blocks carry `cache_control`. */
  function MarkedIn(ms: seq<Message>, places: seq<Place>, n: nat): (r: seq<nat>)
    requires n <= |places| && AllEditable(ms, places)
    ensures forall k :: 0 <= k < |r| ==> r[k] < n
  {
    if n == 0 then []
    else MarkedIn(ms, places, n - 1) + if HasControl(ms, places[n - 1]) then [n - 1] else []
  }

  lemma {:induction false} MarkedInIs(ms: seq<Message>, places: seq<Place>, n: nat, i: nat)
    requires n <= |places| && AllEditable(ms, places) && i < |places|
    ensures i in MarkedIn(ms, places, n) <==> i < n && HasControl(ms, places[i])
  {
    if n > 0 {
      MarkedInIs(ms, places, n - 1, i);
    }
  }

  lemma {:induction false} MarkedInOrder(ms: seq<Message>, places: seq<Place>, n: nat)
    requires n <= |places| && AllEditable(ms, places)
    ensures Increasing(MarkedIn(ms, places, n))
  {
    if n > 0 {
      MarkedInOrder(ms, places, n - 1);
    }
  }

  ghost predicate Increasing(ks: seq<nat>) { forall k, l :: 0 <= k < l < |ks| ==> ks[k] < ks[l] }

  function Positions(body: Body): (r: seq<Place>)
    ensures AllEditable(body.messages, r)
  {
    AllPlacesEditable(body.messages);
    Places(body.messages, |body.messages|)
  }

  function MarkedPositions(body: Body): (r: seq<nat>)
    ensures forall k :: 0 <= k < |r| ==> r[k] < |Positions(body)|
  {
    MarkedIn(body.messages, Positions(body), |Positions(body)|)
  }

  /** The value under `cache_control` of a listed block. */
  function ControlAt(body: Body, k: nat): Json
    requires k < |Positions(body)|
  {
    Get(BlockAt(body.messages, Positions(body)[k]), CacheControl)
  }

  // ---- The strategies ----

  /** Where a marker goes is a fraction of the history, rounded; here it is any position. */
  datatype Move =
    | SpreadShipped(target: nat) // a second marker, copied from the only one
    | ShippedTail                // the only marker, pushed to the last block
    | SpreadWire(step: nat)      // the earlier of two, moved to `step` before the later
    | AnchorHour(target: nat)    // a second marker, for an hour

  /** What a move does, given the listed blocks, which of them are marked, and the first one's marker. */
  function EditsAt(move: Move, at: seq<Place>, marked: seq<nat>, control: Json): (es: seq<Edit>)
    requires forall k :: 0 <= k < |marked| ==> marked[k] < |at|
    ensures forall i :: 0 <= i < |es| ==> es[i].place in at
  {
    match move
    case SpreadShipped(target) =>
      if |marked| != 1 || target >= marked[0] then [] else [Put(at[target], control)]
    case ShippedTail =>
      if |marked| != 1 || marked[0] == |at| - 1 then []
      else [Pop(at[marked[0]]), Put(at[|at| - 1], control)]
    case SpreadWire(step) =>
      if |marked| != 2 then []
      else
        var back := if step == 0 then 1 else step;
        if back > marked[1] || marked[1] - back == marked[0] then []
        else if control.Null? then [Pop(at[marked[0]])]
        else [Pop(at[marked[0]]), Put(at[marked[1] - back], control)]
    case AnchorHour(target) =>
      if |marked| != 1 || target >= marked[0] then [] else [Put(at[target], Ephemeral("1h"))]
  }

  function FirstControl(body: Body): Json {
    if MarkedPositions(body) == [] then Null else ControlAt(body, MarkedPositions(body)[0])
  }

  function Edits(move: Move, body: Body): (es: seq<Edit>)
    ensures Fit(body.messages, es)
  {
    EditsAt(move, Positions(body), MarkedPositions(body), FirstControl(body))
  }

  function Moved(move: Move, body: Body): Body { body.(messages := ApplyAll(body.messages, Edits(move, body))) }

  lemma {:induction false} ControlIsMarker(body: Body, k: nat)
    requires WellFormedMessages(body.messages) && k < |MarkedPositions(body)|
    ensures ControlAt(body, MarkedPositions(body)[k]).Obj?
  {
    var at, i := Positions(body), MarkedPositions(body)[k];
    MarkedInIs(body.messages, at, |at|, i);
    var p := at[i];
    assert Editable(body.messages, p);
    assert WellFormedContent(body.messages[p.message].content);
  }

  lemma {:induction false} MovesWriteMarkers(move: Move, body: Body)
    requires WellFormedMessages(body.messages)
    ensures MarkersOnly(Edits(move, body))
  {
    if MarkedPositions(body) != [] {
      ControlIsMarker(body, 0);
    }
  }

  /** Each of them touches nothing but markers. */
  lemma {:induction false} MoveInvisible(move: Move, body: Body)
    requires WellFormedMessages(body.messages)
    ensures SameConversation(body, Moved(move, body)) && WellFormedMessages(Moved(move, body).messages)
  {
    MovesWriteMarkers(move, body);
    EditsInvisible(body.messages, Edits(move, body));
    SameBody(body, Moved(move, body));
  }

  // ---- The strategies that clear first ----

  function Hour(places: seq<Place>): (es: seq<Edit>)
    ensures |es| == |places|
  {
    seq(|places|, i requires 0 <= i < |places| => Put(places[i], Ephemeral("1h")))
  }

  /** The body with its message markers cleared and hour-long ones on the given blocks. */
  function Placed(body: Body, places: seq<Place>): Body
    requires AllEditable(CleanMessages(body.messages), places)
  {
    body.(messages := ApplyAll(CleanMessages(body.messages), Hour(places)))
  }

  /** The last block, and one further back if there is room for it. */
  function PairOf(at: seq<Place>, target: nat): (r: seq<Place>)
    ensures forall p :: p in r ==> p in at
  {
    if at == [] then [] else [at[|at| - 1]] + if target < |at| - 1 then [at[target]] else []
  }

  function PairPlaces(ms: seq<Message>, target: nat): (r: seq<Place>)
    ensures AllEditable(ms, r)
  {
    AllPlacesEditable(ms);
    var r := PairOf(Places(ms, |ms|), target);
    assert forall l :: 0 <= l < |r| ==> r[l] in r;
    r
  }

  /** `pair-back-*`. */
  function PairBack(body: Body, target: nat): Body {
    Placed(body, PairPlaces(CleanMessages(body.messages), target))
  }

  /** The last blocks of the first `n` messages, where they can be marked. */
  function Ends(ms: seq<Message>, n: nat): (r: seq<Place>)
    requires n <= |ms|
    ensures AllEditable(ms, r)
  {
    if n == 0 then [] else Ends(ms, n - 1) + if Sealable(ms[n - 1]) then [EndOf(ms, n - 1)] else []
  }

  function LastOf(places: seq<Place>, slots: nat): seq<Place> {
    if slots < |places| then places[|places| - slots..] else places
  }

  function LastEnds(ms: seq<Message>, slots: nat): (r: seq<Place>)
    ensures AllEditable(ms, r)
  {
    LastOf(Ends(ms, |ms|), slots)
  }

  /** `tail-slots-n`: the ends of the last `slots` messages that have one. */
  function TailSlots(body: Body, slots: nat): Body {
    Placed(body, LastEnds(CleanMessages(body.messages), slots))
  }

  lemma {:induction false} HourWritesMarkers(ms: seq<Message>, places: seq<Place>)
    requires AllEditable(ms, places)
    ensures Fit(ms, Hour(places)) && MarkersOnly(Hour(places))
  {
    forall i | 0 <= i < |places| ensures Hour(places)[i].control.Obj? {
      assert Hour(places)[i] == Put(places[i], Ephemeral("1h"));
    }
  }

  /** Clearing and then writing markers anywhere touches nothing but markers. */
  lemma {:induction false} PlacedInvisible(body: Body, places: seq<Place>)
    requires WellFormedMessages(body.messages) && AllEditable(CleanMessages(body.messages), places)
    ensures SameConversation(body, Placed(body, places))
  {
    var ms := CleanMessages(body.messages);
    ClearingIsInvisible(body.messages);
    CleanedWellFormed(body.messages);
    HourWritesMarkers(ms, places);
    EditsInvisible(ms, Hour(places));
    SameMessagesTrans(body.messages, ms, ApplyAll(ms, Hour(places)));
    SameBody(body, Placed(body, places));
  }

  lemma {:induction false} PairBackInvisible(body: Body, target: nat)
    requires WellFormedMessages(body.messages)
    ensures SameConversation(body, PairBack(body, target))
  {
    PlacedInvisible(body, PairPlaces(CleanMessages(body.messages), target));
  }

  lemma {:induction false} TailSlotsInvisible(body: Body, slots: nat)
    requires WellFormedMessages(body.messages)
    ensures SameConversation(body, TailSlots(body, slots))
  {
    PlacedInvisible(body, LastEnds(CleanMessages(body.messages), slots));
  }

  // ---- Where the markers are afterwards ----

  ghost function AsSet(marked: seq<nat>): set<int> { set k | k in marked }

  /** The blocks that carry a marker afterwards, as positions in the list. */
  ghost function Expected(move: Move, n: nat, marked: seq<nat>): set<int> {
    var before := AsSet(marked);
    match move
    case SpreadShipped(target) => if |marked| == 1 && target < marked[0] then before + {target} else before
    case AnchorHour(target) => if |marked| == 1 && target < marked[0] then before + {target} else before
    case ShippedTail => if |marked| == 1 then {n - 1} else before
    case SpreadWire(step) =>
      var back := if step == 0 then 1 else step;
      if |marked| == 2 && back <= marked[1] then {marked[1] - back, marked[1]} else before
  }

  lemma {:induction false} FewEdits(e: Edit, f: Edit, p: Place, before: bool)
    ensures CarriesAfter([e], p, before) <==> if e.place == p then e.Put? else before
    ensures CarriesAfter([e, f], p, before)
       <==> if f.place == p then f.Put? else if e.place == p then e.Put? else before
  {
    assert [e][..0] == [];
    assert [e, f][..1] == [e];
  }

  lemma {:induction false} PositionsDistinct(body: Body, j: nat, k: nat)
    requires j < |Positions(body)| && k < |Positions(body)|
    ensures Positions(body)[j] == Positions(body)[k] <==> j == k
  {
    if j < k {
      PlacesEditable(body.messages, |body.messages|, k);
    } else if k < j {
      PlacesEditable(body.messages, |body.messages|, j);
    }
  }

  lemma {:induction false} CarriesIsMarked(body: Body, k: nat)
    requires k < |Positions(body)|
    ensures Carries(body.messages, Positions(body)[k]) <==> k in MarkedPositions(body)
  {
    var at := Positions(body);
    assert Editable(body.messages, at[k]);
    MarkedInIs(body.messages, at, |at|, k);
  }

  lemma {:induction false} OneMarked(marked: seq<nat>, k: nat)
    ensures |marked| == 1 ==> (k in marked <==> k == marked[0])
    ensures |marked| == 2 ==> (k in marked <==> k == marked[0] || k == marked[1])
  {
  }

  /** A list of one or two edits, read through positions. */
  lemma {:induction false} PutOne(body: Body, i: nat, control: Json, k: nat)
    requires i < |Positions(body)| && k < |Positions(body)|
    ensures var es := [Put(Positions(body)[i], control)];
            Fit(body.messages, es)
            && (Carries(ApplyAll(body.messages, es), Positions(body)[k]) <==> k == i || k in MarkedPositions(body))
  {
    var at := Positions(body);
    var e := Put(at[i], control);
    EditsCarry(body.messages, [e], at[k]);
    FewEdits(e, e, at[k], Carries(body.messages, at[k]));
    PositionsDistinct(body, i, k);
    CarriesIsMarked(body, k);
  }

  lemma {:induction false} PopThenPut(body: Body, i: nat, j: nat, control: Json, k: nat)
    requires i < |Positions(body)| && j < |Positions(body)| && k < |Positions(body)|
    ensures var es := [Pop(Positions(body)[i]), Put(Positions(body)[j], control)];
            Fit(body.messages, es)
            && (Carries(ApplyAll(body.messages, es), Positions(body)[k]) <==>
                  k == j || (k != i && k in MarkedPositions(body)))
  {
    var at := Positions(body);
    var e, f := Pop(at[i]), Put(at[j], control);
    EditsCarry(body.messages, [e, f], at[k]);
    FewEdits(e, f, at[k], Carries(body.messages, at[k]));
    PositionsDistinct(body, i, k);
    PositionsDistinct(body, j, k);
    CarriesIsMarked(body, k);
  }

  /** Where the markers are afterwards, exactly: the one that is meant to stay stays, and a moved one is at
      its target and nowhere else. */
  lemma {:induction false} MarkedAfterMove(move: Move, body: Body, k: nat)
    requires WellFormedMessages(body.messages) && k < |Positions(body)|
    ensures Carries(Moved(move, body).messages, Positions(body)[k])
       <==> k in Expected(move, |Positions(body)|, MarkedPositions(body))
  {
    CarriesIsMarked(body, k);
    if MarkedPositions(body) != [] {
      ControlIsMarker(body, 0);
    }
    match move
    case SpreadShipped(_) => AfterAdding(move, body, k);
    case AnchorHour(_) => AfterAdding(move, body, k);
    case ShippedTail => AfterTail(body, k);
    case SpreadWire(step) => AfterWire(step, body, k);
  }

  lemma {:induction false} AfterAdding(move: Move, body: Body, k: nat)
    requires (move.SpreadShipped? || move.AnchorHour?) && k < |Positions(body)|
    ensures Carries(Moved(move, body).messages, Positions(body)[k])
       <==> k in Expected(move, |Positions(body)|, MarkedPositions(body))
  {
    var marked := MarkedPositions(body);
    CarriesIsMarked(body, k);
    if |marked| == 1 && move.target < marked[0] {
      PutOne(body, move.target, if move.AnchorHour? then Ephemeral("1h") else FirstControl(body), k);
    }
  }

  lemma {:induction false} TailExpected(n: nat, marked: seq<nat>, k: nat)
    requires n > 0
    ensures k in Expected(ShippedTail, n, marked) <==>
      if |marked| == 1 && marked[0] != n - 1 then k == n - 1 || (k != marked[0] && k in marked) else k in marked
  {
    OneMarked(marked, k);
  }

  lemma {:induction false} AfterTail(body: Body, k: nat)
    requires k < |Positions(body)|
    ensures Carries(Moved(ShippedTail, body).messages, Positions(body)[k])
       <==> k in Expected(ShippedTail, |Positions(body)|, MarkedPositions(body))
  {
    var n, marked := |Positions(body)|, MarkedPositions(body);
    CarriesIsMarked(body, k);
    TailExpected(n, marked, k);
    if |marked| == 1 && marked[0] != n - 1 {
      PopThenPut(body, marked[0], n - 1, FirstControl(body), k);
    }
  }

  ghost predicate WireFires(marked: seq<nat>, back: nat) {
    |marked| == 2 && back <= marked[1] && marked[1] - back != marked[0]
  }

  lemma {:induction false} WireEdits(step: nat, at: seq<Place>, marked: seq<nat>, control: Json, back: nat)
    requires back == (if step == 0 then 1 else step) && (marked != [] ==> control.Obj?)
    requires forall k :: 0 <= k < |marked| ==> marked[k] < |at|
    ensures EditsAt(SpreadWire(step), at, marked, control)
         == if WireFires(marked, back) then [Pop(at[marked[0]]), Put(at[marked[1] - back], control)] else []
  {
  }

  lemma {:induction false} WireExpected(step: nat, n: nat, marked: seq<nat>, back: nat, k: nat)
    requires back == (if step == 0 then 1 else step) && (|marked| == 2 ==> marked[0] < marked[1])
    ensures k in Expected(SpreadWire(step), n, marked) <==>
      if WireFires(marked, back) then k == marked[1] - back || (k != marked[0] && k in marked) else k in marked
  {
    OneMarked(marked, k);
  }

  lemma {:induction false} PairInOrder(body: Body)
    ensures var marked := MarkedPositions(body); |marked| == 2 ==> marked[0] < marked[1]
  {
    MarkedInOrder(body.messages, Positions(body), |Positions(body)|);
  }

  lemma {:induction false} AfterWire(step: nat, body: Body, k: nat)
    requires k < |Positions(body)| && (MarkedPositions(body) != [] ==> FirstControl(body).Obj?)
    ensures Carries(Moved(SpreadWire(step), body).messages, Positions(body)[k])
       <==> k in Expected(SpreadWire(step), |Positions(body)|, MarkedPositions(body))
  {
    var at, marked, control := Positions(body), MarkedPositions(body), FirstControl(body);
    var back := if step == 0 then 1 else step;
    WireEdits(step, at, marked, control, back);
    PairInOrder(body);
    WireExpected(step, |at|, marked, back, k);
    CarriesIsMarked(body, k);
    if WireFires(marked, back) {
      PopThenPut(body, marked[0], marked[1] - back, control, k);
    }
  }

  lemma {:induction false} PlacesInSame(a: seq<Json>, b: seq<Json>, message: nat, n: nat)
    requires n <= |a| == |b| && forall i :: 0 <= i < |a| ==> (a[i].Obj? <==> b[i].Obj?)
    ensures PlacesIn(a, message, n) == PlacesIn(b, message, n)
  {
    if n > 0 {
      PlacesInSame(a, b, message, n - 1);
    }
  }

  /** An edit leaves the list of places as it is. */
  lemma {:induction false} PlacesAfterEdit(ms: seq<Message>, e: Edit, n: nat)
    requires Editable(ms, e.place) && n <= |ms|
    ensures Places(Apply(ms, e), n) == Places(ms, n)
  {
    if n > 0 {
      PlacesAfterEdit(ms, e, n - 1);
      if e.place.message == n - 1 {
        var a, b := ms[n - 1].content.blocks, Apply(ms, e)[n - 1].content.blocks;
        PlacesInSame(a, b, n - 1, |a|);
      }
    }
  }

  lemma {:induction false} PlacesAfterEdits(ms: seq<Message>, es: seq<Edit>)
    requires Fit(ms, es)
    ensures |ApplyAll(ms, es)| == |ms| && Places(ApplyAll(ms, es), |ms|) == Places(ms, |ms|)
    decreases |es|
  {
    if es != [] {
      PlacesAfterEdit(ms, es[0], |ms|);
      PlacesAfterEdits(Apply(ms, es[0]), es[1..]);
    }
  }

  lemma {:induction false} SamePositions(move: Move, body: Body)
    ensures Positions(Moved(move, body)) == Positions(body)
  {
    PlacesAfterEdits(body.messages, Edits(move, body));
  }

  lemma {:induction false} ExpectedInRange(move: Move, n: nat, marked: seq<nat>, k: int)
    requires (forall i :: 0 <= i < |marked| ==> marked[i] < n) && k in Expected(move, n, marked)
    ensures 0 <= k < n
  {
    if k in AsSet(marked) {
      var i :| 0 <= i < |marked| && marked[i] == k;
    }
    if |marked| == 1 || |marked| == 2 {
      assert marked[0] < n && marked[|marked| - 1] < n;
    }
  }

  /** The marked positions of the moved body are the expected ones. */
  lemma {:induction false} MarkedIsExpected(move: Move, body: Body)
    requires WellFormedMessages(body.messages)
    ensures AsSet(MarkedPositions(Moved(move, body))) == Expected(move, |Positions(body)|, MarkedPositions(body))
  {
    var n, before, moved := |Positions(body)|, MarkedPositions(body), Moved(move, body);
    var after, expected := MarkedPositions(moved), Expected(move, n, before);
    SamePositions(move, body);
    forall k | k in after ensures k in expected {
      MarkedExactly(move, body, k);
    }
    forall k | k in expected ensures k in after {
      ExpectedInRange(move, n, before, k);
      MarkedExactly(move, body, k);
    }
  }

  lemma {:induction false} MarkedExactly(move: Move, body: Body, k: nat)
    requires WellFormedMessages(body.messages) && k < |Positions(body)|
    ensures k in MarkedPositions(Moved(move, body)) <==> k in Expected(move, |Positions(body)|, MarkedPositions(body))
  {
    SamePositions(move, body);
    CarriesIsMarked(Moved(move, body), k);
    MarkedAfterMove(move, body, k);
  }

  lemma {:induction false} ExpectedSize(move: Move, n: nat, marked: seq<nat>)
    requires Increasing(marked)
    ensures |Expected(move, n, marked)| <= |marked| + 1
    ensures move.ShippedTail? || move.SpreadWire? ==> |Expected(move, n, marked)| == |marked|
    ensures |Expected(move, n, marked)| >= |marked|
  {
    SizeOf(marked);
    if |marked| == 1 {
      assert AsSet(marked) == {marked[0]};
    }
  }

  /** Moving keeps the number of marked blocks; adding spends one more marker or none. */
  lemma {:induction false} MoveSpends(move: Move, body: Body)
    requires WellFormedMessages(body.messages)
    ensures var before, after := |MarkedPositions(body)|, |MarkedPositions(Moved(move, body))|;
            before <= after <= before + 1 && (move.ShippedTail? || move.SpreadWire? ==> after == before)
  {
    var moved := Moved(move, body);
    MarkedInOrder(body.messages, Positions(body), |Positions(body)|);
    MarkedInOrder(moved.messages, Positions(moved), |Positions(moved)|);
    ExpectedSize(move, |Positions(body)|, MarkedPositions(body));
    MarkedIsExpected(move, body);
    SizeOf(MarkedPositions(moved));
  }

  lemma {:induction false} SizeOf(marked: seq<nat>)
    requires Increasing(marked)
    ensures |AsSet(marked)| == |marked|
  {
    if marked != [] {
      var n := |marked| - 1;
      var rest, last := marked[..n], marked[n];
      SizeOf(rest);
      assert last !in AsSet(rest);
      assert marked == rest + [last];
      assert AsSet(marked) == AsSet(rest) + {last};
    }
  }
}
