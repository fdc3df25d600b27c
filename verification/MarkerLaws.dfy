/** Which blocks the placement strategies mark, and with what, in literal terms. */
module MarkerLaws {
  import opened Wire
  import opened Flattening
  import opened Markers
  import opened MarkerMoves
  import opened OverBudgetArm
  import opened Reasoning

  // ---- Rounding ----

  /** `q` is the integer nearest to `a / b`, the even one if two are. */
  predicate IsNearest(q: nat, a: nat, b: nat)
    requires b > 0
  {
    var over, under := 2 * (a - q * b), 2 * (q * b - a);
    over <= b && under <= b && ((over == b || under == b) ==> q % 2 == 0)
  }

  lemma {:induction false} NearestIsRound(q: nat, a: nat, b: nat)
    requires b > 0
    ensures IsNearest(q, a, b) <==> q == Round(a, b)
  {
    var f, r := a / b, a % b;
    var x, y := q * b, f * b;
    assert a == y + r;
    if q < f {
      Multiples(q, f, b);
    } else if q == f + 1 {
      NextMultiple(f, b);
    } else if q > f + 1 {
      NextMultiple(f, b);
      Multiples(f + 1, q, b);
    }
    NearestOf(q, f, r, a, b, x, y);
  }

  lemma {:induction false} NextMultiple(f: nat, b: nat)
    ensures (f + 1) * b == f * b + b
  {
  }

  /** The same, with the products given. */
  lemma {:induction false} NearestOf(q: nat, f: nat, r: nat, a: nat, b: nat, x: nat, y: nat)
    requires a == y + r && r < b
    requires (q < f ==> x + b <= y) && (q == f ==> x == y)
    requires (q == f + 1 ==> x == y + b) && (q > f + 1 ==> x >= y + b + b)
    ensures var over, under := 2 * (a - x), 2 * (x - a);
            (over <= b && under <= b && ((over == b || under == b) ==> q % 2 == 0)) <==>
              q == if 2 * r > b || (2 * r == b && f % 2 == 1) then f + 1 else f
  {
  }

  lemma {:induction false} Multiples(p: nat, q: nat, b: nat)
    requires p < q && b > 0
    ensures p * b + b <= q * b
  {
    assert q * b == p * b + (q - p) * b;
    assert (q - p) * b == b + (q - p - 1) * b;
  }

  /** Halves go to the even side. */
  lemma {:induction false} HalvesAreEven()
    ensures Round(1, 2) == 0 && Round(3, 2) == 2 && Round(5, 2) == 2 && Round(7, 2) == 4
  {
  }

  // ---- All blocks are listed ----

  lemma {:induction false} ListedIn(blocks: seq<Json>, message: nat, n: nat, k: nat)
    requires k < n <= |blocks| && blocks[k].Obj?
    ensures Place(message, k) in PlacesIn(blocks, message, n)
  {
    if k < n - 1 {
      ListedIn(blocks, message, n - 1, k);
    }
  }

  /** Every block that is an object is listed. */
  lemma {:induction false} AllAreListed(ms: seq<Message>, n: nat, p: Place)
    requires n <= |ms| && Editable(ms, p) && p.message < n
    ensures p in Places(ms, n)
  {
    if p.message < n - 1 {
      AllAreListed(ms, n - 1, p);
    } else {
      var blocks := ms[n - 1].content.blocks;
      ListedIn(blocks, n - 1, |blocks|, p.block);
    }
  }

  // ---- What is written ----

  /** The marker the strategies write. */
  function HourMarker(): Json { Obj(map[Type := Str("ephemeral"), Ttl := Str("1h")]) }

  /** A block holds that marker, or nothing under the key. */
  ghost predicate HourOrNothing(b: Json) {
    b.Obj? && CacheControl in b.fields ==> b.fields[CacheControl] == HourMarker()
  }

  ghost predicate HoursOnly(ms: seq<Message>) { forall p :: Editable(ms, p) ==> HourOrNothing(BlockAt(ms, p)) }

  lemma {:induction false} ClearedHoursOnly(ms: seq<Message>)
    ensures HoursOnly(CleanMessages(ms))
  {
    var cleaned := CleanMessages(ms);
    forall p | Editable(cleaned, p) ensures HourOrNothing(BlockAt(cleaned, p)) {
      assert cleaned[p.message] == CleanMessage(ms[p.message]);
      if ms[p.message].content.Blocks? {
        assert BlockAt(cleaned, p) == Unmark(ms[p.message].content.blocks[p.block]);
      }
    }
  }

  lemma {:induction false} NextHoursOnly(before: seq<Message>, places: seq<Place>, back: nat)
    requires AllEditable(before, places) && HoursOnly(before)
    ensures HoursOnly(MarkNext(before, places, back))
  {
    var after := MarkNext(before, places, back);
    if back < |places| {
      var q := places[|places| - 1 - back];
      assert Editable(before, q);
      forall p | Editable(after, p) ensures HourOrNothing(BlockAt(after, p)) {
        assert Editable(before, p);
        if p != q {
          assert BlockAt(after, p) == BlockAt(before, p);
        }
      }
    }
  }

  lemma {:induction false} BacksHoursOnly(ms: seq<Message>, places: seq<Place>, backs: seq<nat>)
    requires AllEditable(ms, places) && HoursOnly(ms)
    ensures HoursOnly(MarkBacks(ms, places, backs, |backs|))
  {
    var inv := (r: seq<Message>, j: nat) => HoursOnly(r);
    forall before: seq<Message>, j: nat | j < |backs| && AllEditable(before, places) && inv(before, j)
      ensures inv(MarkNext(before, places, backs[j]), j + 1)
    {
      NextHoursOnly(before, places, backs[j]);
    }
    MarkBacksInduction(ms, places, backs, |backs|, inv);
  }

  // ---- Tail breakpoints ----

  lemma {:induction false} BackIsNearest(n: nat, count: nat, back: nat)
    requires count > 0
    ensures back in Backs(n, count) <==> exists i :: 0 <= i < count && IsNearest(back, i * n, 4 * count)
  {
    var backs := Backs(n, count);
    if back in backs {
      var i :| 0 <= i < count && backs[i] == back;
      BackAt(n, count, back, i);
    }
    if i :| 0 <= i < count && IsNearest(back, i * n, 4 * count) {
      BackAt(n, count, back, i);
      assert backs[i] in backs;
    }
  }

  lemma {:induction false} BackAt(n: nat, count: nat, back: nat, i: nat)
    requires i < count
    ensures IsNearest(back, i * n, 4 * count) <==> Backs(n, count)[i] == back
  {
    NearestIsRound(back, i * n, 4 * count);
  }

  lemma {:induction false} NothingMarkedYet(est: Estimator, ms: seq<Message>, n: nat)
    requires n <= |ms| && NoMarkers(Segments(est, MessageBlocks(ms)))
    ensures AllEditable(ms, Places(ms, n)) && Distinct(Places(ms, n)) && MarkedBy(ms, Places(ms, n), [])
  {
    var places := Places(ms, n);
    forall k | 0 <= k < |places| ensures Editable(ms, places[k]) && MarkedAsListed(ms, places, [], k) {
      PlacesEditable(ms, n, k);
      PlaceSegment(est, ms, places[k]);
    }
    forall k, l | 0 <= k < l < |places| ensures places[k] != places[l] {
      PlacesEditable(ms, n, l);
    }
  }

  /** The k-th of `n` listed blocks is marked if and only if its distance from the last one is nearest to
      `i * n / (4 * count)` for some `i` below `count`; and then for an hour. */
  ghost predicate PlacedSo(out: seq<Message>, places: seq<Place>, count: nat, k: nat)
    requires k < |places|
  {
    && Editable(out, places[k]) && HourOrNothing(BlockAt(out, places[k]))
    && (Marked(BlockAt(out, places[k])) <==>
          exists i :: 0 <= i < count && IsNearest(|places| - 1 - k, i * |places|, 4 * count))
  }

  lemma {:induction false} PlacedFrom(est: Estimator, ms: seq<Message>, cut: nat, places: seq<Place>, count: nat,
                                      k: nat, out: seq<Message>)
    requires cut <= |ms| && places == Places(ms, cut) && k < |places| && HoursOnly(ms)
    requires NoMarkers(Segments(est, MessageBlocks(ms))) && AllEditable(ms, places)
    requires out == MarkBacks(ms, places, Backs(|places|, count), count)
    ensures PlacedSo(out, places, count, k)
  {
    var backs := Backs(|places|, count);
    NothingMarkedYet(est, ms, cut);
    MarkBacksCount(est, ms, places, backs);
    BacksHoursOnly(ms, places, backs);
    PlacedIs(out, places, backs, count, k);
  }

  lemma {:induction false} PlacedIs(out: seq<Message>, places: seq<Place>, backs: seq<nat>, count: nat, k: nat)
    requires MarkedBy(out, places, backs) && HoursOnly(out) && backs == Backs(|places|, count) && k < |places|
    ensures PlacedSo(out, places, count, k)
  {
    assert Editable(out, places[k]) && MarkedAsListed(out, places, backs, k);
    if count > 0 {
      BackIsNearest(|places|, count, |places| - 1 - k);
    }
  }

  lemma {:induction false} TailPlacement(est: Estimator, body: Body, count: nat, k: nat)
    requires var ms := CleanMessages(body.messages); k < |Places(ms, |ms|)|
    ensures var ms := CleanMessages(body.messages);
            PlacedSo(TailBreakpoints(body, count).messages, Places(ms, |ms|), count, k)
  {
    var ms := CleanMessages(body.messages);
    CleanUnmarked(est, body.messages);
    ClearedHoursOnly(body.messages);
    AllPlacesEditable(ms);
    PlacedFrom(est, ms, |ms|, Places(ms, |ms|), count, k, TailBreakpoints(body, count).messages);
  }

  /** The same model, tools and system. */
  ghost predicate SameHead(a: Body, b: Body) { a.model == b.model && a.tools == b.tools && a.system == b.system }

  /** The placements write to messages only, and `rebalance-1sys-ntail` to the system besides, with the same tail. */
  lemma {:induction false} HeadIsKept(body: Body, count: nat, target: nat, move: Move)
    ensures SameHead(TailBreakpoints(body, count), body) && SameHead(PairBack(body, target), body)
    ensures SameHead(TailSlots(body, count), body) && SameHead(Moved(move, body), body)
    ensures Rebalance(body, count).messages == TailBreakpoints(body, count).messages
    ensures Rebalance(body, count).model == body.model && Rebalance(body, count).tools == body.tools
    ensures Rebalance(body, count).system == DropFirst(body.system)
  {
  }

  // ---- The spread ----

  /** What four markers leave when the system has some: at least one. */
  function Left(system: nat): nat { if system <= 3 then 4 - system else 1 }

  /** How many system blocks hold a non-empty marker object or any other value that is true. */
  lemma {:induction false} SystemMarkersAre(blocks: seq<Json>, b: Json)
    requires b.Obj?
    ensures CacheControl !in b.fields ==> SystemMarkers(Blocks([b] + blocks)) == SystemMarkers(Blocks(blocks))
    ensures CacheControl in b.fields && b.fields[CacheControl] in {Null, Bool(false), Str(""), Arr([]), Obj(map[])} ==>
      SystemMarkers(Blocks([b] + blocks)) == SystemMarkers(Blocks(blocks))
    ensures CacheControl in b.fields && b.fields[CacheControl].Obj? && b.fields[CacheControl].fields != map[] ==>
      SystemMarkers(Blocks([b] + blocks)) == SystemMarkers(Blocks(blocks)) + 1
  {
    assert ([b] + blocks)[1..] == blocks;
  }

  /** Ahead of the newest answer, the blocks are marked the same way, with as many markers as are left. */
  lemma {:induction false} SpreadPlacement(est: Estimator, body: Body, last: nat, k: nat)
    requires Newest(body) == Some(last) && k < |Places(Base(body.messages, last), last)|
    ensures var places := Places(Base(body.messages, last), last);
            PlacedSo(SpreadMarks(body).messages, places, Left(SystemMarkers(body.system)), k)
  {
    var ms := Base(body.messages, last);
    CleanUnmarked(est, StripExcept(body.messages, last));
    ClearedHoursOnly(StripExcept(body.messages, last));
    PlacesBeforeEditable(ms, last);
    PlacedFrom(est, ms, last, Places(ms, last), Left(SystemMarkers(body.system)), k, SpreadMarks(body).messages);
  }

  /** A body that asked for no more than three markers on its system asks for no more than four. */
  lemma {:induction false} SpreadFits(est: Estimator, body: Body)
    requires Newest(body).Some? && SystemMarkers(body.system) <= 3
    ensures MarkersIn(est, SpreadMarks(body).messages) + SystemMarkers(body.system) <= 4
  {
    var last := Newest(body).value;
    var ms := Base(body.messages, last);
    var places, budget := Places(ms, last), Left(SystemMarkers(body.system));
    var backs := Backs(|places|, budget);
    CleanUnmarked(est, StripExcept(body.messages, last));
    NothingMarkedYet(est, ms, last);
    NoneMarked(Segments(est, MessageBlocks(ms)));
    MarkBacksCount(est, ms, places, backs);
    FreshAtMost(backs, |places|, |backs|);
  }

  lemma {:induction false} FreshAtMost(backs: seq<nat>, n: nat, k: nat)
    requires k <= |backs|
    ensures Fresh(backs, n, k) <= k
  {
    if k > 0 {
      FreshAtMost(backs, n, k - 1);
    }
  }

  // ---- The single seal ----

  /** The end of the last message before the answer that ends in an object. */
  ghost predicate IsSeal(ms: seq<Message>, last: nat, p: Place)
    requires Editable(ms, p)
  {
    && p.message < last && p.block == |ms[p.message].content.blocks| - 1
    && forall i :: p.message < i < last && i < |ms| ==> !Sealable(ms[i])
  }

  lemma {:induction false} SealIs(ms: seq<Message>, last: nat, p: Place)
    requires last <= |ms| && Editable(ms, p)
    ensures IsSeal(ms, last, p) <==> SealBefore(ms, last).Some? && p == EndOf(ms, SealBefore(ms, last).value)
  {
    if IsSeal(ms, last, p) {
      assert Sealable(ms[p.message]);
    }
  }

  lemma {:induction false} SealStays(ms: seq<Message>, q: Place, last: nat, p: Place)
    requires Editable(ms, q) && Editable(ms, p)
    ensures var out := MarkAt(ms, q, HourMarker());
            && Editable(out, p) && (IsSeal(out, last, p) <==> IsSeal(ms, last, p))
            && (Marked(BlockAt(out, p)) <==> p == q || Marked(BlockAt(ms, p)))
            && (p == q ==> HourOrNothing(BlockAt(out, p))) && (p != q ==> BlockAt(out, p) == BlockAt(ms, p))
  {
    var out := MarkAt(ms, q, HourMarker());
    assert forall i :: 0 <= i < |ms| ==> (Sealable(out[i]) <==> Sealable(ms[i]));
  }

  /** It is marked, for an hour, and nothing else is. */
  lemma {:induction false} SafePlacement(body: Body, last: nat, p: Place)
    requires Newest(body) == Some(last) && Editable(Base(body.messages, last), p)
    ensures var out := SafeMarks(body).messages;
            Editable(out, p) && HourOrNothing(BlockAt(out, p)) && (Marked(BlockAt(out, p)) <==> IsSeal(out, last, p))
  {
    var base := Base(body.messages, last);
    ClearedHoursOnly(StripExcept(body.messages, last));
    CleanedPlaceUnmarked(StripExcept(body.messages, last), p);
    SealIs(base, last, p);
    var seal := SealBefore(base, last);
    if seal.Some? {
      SealStays(base, EndOf(base, seal.value), last, p);
    }
  }

  // ---- System markers ----

  /** `strip-system-breakpoints`: the key is gone from every system block, and nothing else is. */
  lemma {:induction false} SystemStripped(body: Body, k: nat)
    requires body.system.Blocks? && k < |body.system.blocks|
    ensures var out := StripSystem(body);
            && out.tools == body.tools && out.messages == body.messages && out.model == body.model
            && out.system.Blocks? && |out.system.blocks| == |body.system.blocks|
            && (!body.system.blocks[k].Obj? ==> out.system.blocks[k] == body.system.blocks[k])
            && (body.system.blocks[k].Obj? ==>
                  out.system.blocks[k] == Obj(map key | key in body.system.blocks[k].fields && key != CacheControl ::
                                                body.system.blocks[k].fields[key]))
  {
    if body.system.blocks[k].Obj? {
      var fields := body.system.blocks[k].fields;
      assert fields - {CacheControl} == map key | key in fields && key != CacheControl :: fields[key];
    }
  }

  /** A system block whose marker is a non-empty object. */
  predicate HoldsFullMarker(b: Json) {
    b.Obj? && CacheControl in b.fields && b.fields[CacheControl].Obj? && b.fields[CacheControl].fields != map[]
  }

  /** Of system blocks that hold full markers or none, the first that holds one loses it, and only that one. */
  lemma {:induction false} FirstIsDropped(blocks: seq<Json>, f: nat)
    requires forall k :: 0 <= k < |blocks| ==> HoldsFullMarker(blocks[k]) || Get(blocks[k], CacheControl) == Null
    requires f < |blocks| && HoldsFullMarker(blocks[f]) && forall k :: 0 <= k < f ==> !HoldsFullMarker(blocks[k])
    ensures DropFirst(Blocks(blocks)) == Blocks(blocks[f := Obj(blocks[f].fields - {CacheControl})])
  {
    var i := FirstTruthy(blocks, 0);
    assert !(i < f);
    assert !(f < i);
  }

  /** An empty marker object is passed over, and so is a system without any marker. */
  lemma {:induction false} NoneIsDropped(blocks: seq<Json>)
    requires forall k :: 0 <= k < |blocks| ==> Get(blocks[k], CacheControl) in {Null, Obj(map[]), Str(""), Bool(false)}
    ensures DropFirst(Blocks(blocks)) == Blocks(blocks)
  {
  }

  // ---- Retiming ----

  /** What `force-ttl-*` makes of a block: a marker is replaced by one with the given tier. */
  ghost predicate Retimed(out: Json, b: Json, ttl: string) {
    if b.Obj? && CacheControl in b.fields && b.fields[CacheControl].Obj?
    then out == Obj(b.fields[CacheControl := Obj(map[Type := Str("ephemeral"), Ttl := Str(ttl)])])
    else out == b
  }

  ghost predicate AllRetimed(out: seq<Json>, blocks: seq<Json>, ttl: string) {
    |out| == |blocks| && forall k :: 0 <= k < |blocks| ==> Retimed(out[k], blocks[k], ttl)
  }

  /** Every marker of system and messages asks for the given tier, and nothing else is touched. */
  lemma {:induction false} EveryTierForced(body: Body, ttl: string, i: nat)
    requires i < |body.messages|
    ensures var out := ForceTtl(body, ttl);
            && out.tools == body.tools && out.model == body.model && |out.messages| == |body.messages|
            && (body.system.Blocks? ==> out.system.Blocks? && AllRetimed(out.system.blocks, body.system.blocks, ttl))
            && (!body.system.Blocks? ==> out.system == body.system)
            && out.messages[i].role == body.messages[i].role
            && match body.messages[i].content
               case Absent => out.messages[i].content == Absent
               case Text(text) =>
                 out.messages[i].content == Blocks([Obj(map[Type := Str("text"), TextField := Str(text)])])
               case Blocks(blocks) =>
                 out.messages[i].content.Blocks? && AllRetimed(out.messages[i].content.blocks, blocks, ttl)
  {
  }

  // ---- Moves ----

  lemma {:induction false} LastPutShows(ms: seq<Message>, p: Place, q: Place, control: Json)
    requires Editable(ms, p) && Editable(ms, q)
    ensures var one, two := ApplyAll(ms, [Put(p, control)]), ApplyAll(ms, [Pop(q), Put(p, control)]);
            && Editable(one, p) && Get(BlockAt(one, p), CacheControl) == control
            && Editable(two, p) && Get(BlockAt(two, p), CacheControl) == control
  {
    ApplyFew(ms, Put(p, control), Put(p, control));
    ApplyFew(ms, Pop(q), Put(p, control));
  }

  /** The move acts, and writes at position `at`. */
  ghost predicate Acts(move: Move, n: nat, marked: seq<nat>, at: nat) {
    match move
    case SpreadShipped(target) => |marked| == 1 && at == target < marked[0]
    case AnchorHour(target) => |marked| == 1 && at == target < marked[0]
    case ShippedTail => |marked| == 1 && marked[0] != at == n - 1
    case SpreadWire(step) => |marked| == 2 && 0 < step <= marked[1] && at == marked[1] - step != marked[0]
  }

  lemma {:induction false} ActsBy(move: Move, at: nat, places: seq<Place>, marked: seq<nat>, control: Json)
    requires at < |places| && (forall k :: 0 <= k < |marked| ==> marked[k] < |places|)
    requires Acts(move, |places|, marked, at) && control.Obj?
    ensures var put := Put(places[at], if move.AnchorHour? then HourMarker() else control);
            var expected := if move.SpreadShipped? || move.AnchorHour? then [put] else [Pop(places[marked[0]]), put];
            EditsAt(move, places, marked, control) == expected
  {
  }

  /** The value a moved or added marker has: the one it was copied or moved from, or an hour. */
  lemma {:induction false} MovedMarker(move: Move, body: Body, at: nat)
    requires WellFormedMessages(body.messages) && at < |Positions(body)|
    requires Acts(move, |Positions(body)|, MarkedPositions(body), at)
    ensures Positions(Moved(move, body)) == Positions(body)
    ensures ControlAt(Moved(move, body), at)
         == if move.AnchorHour? then HourMarker() else ControlAt(body, MarkedPositions(body)[0])
  {
    var places, marked := Positions(body), MarkedPositions(body);
    SamePositions(move, body);
    ControlIsMarker(body, 0);
    ActsBy(move, at, places, marked, FirstControl(body));
    assert Editable(body.messages, places[at]) && Editable(body.messages, places[marked[0]]);
    var control := if move.AnchorHour? then HourMarker() else FirstControl(body);
    LastPutShows(body.messages, places[at], places[marked[0]], control);
  }

  lemma {:induction false} HoursCarry(places: seq<Place>, n: nat, p: Place, before: bool)
    requires n <= |places|
    ensures CarriesAfter(Hour(places)[..n], p, before) <==> before || p in places[..n]
  {
    if n > 0 {
      HoursCarry(places, n - 1, p, before);
      assert Hour(places)[..n][..n - 1] == Hour(places)[..n - 1];
      assert places[..n] == places[..n - 1] + [places[n - 1]];
    }
  }

  /** Once cleared and marked, the marked blocks are the listed ones. */
  lemma {:induction false} PlacedCarries(body: Body, places: seq<Place>, p: Place)
    requires AllEditable(CleanMessages(body.messages), places)
    ensures Carries(Placed(body, places).messages, p) <==> p in places
  {
    var ms := CleanMessages(body.messages);
    HourWritesMarkers(ms, places);
    EditsCarry(ms, Hour(places), p);
    HoursCarry(places, |places|, p, Carries(ms, p));
    assert Hour(places)[..|places|] == Hour(places) && places[..|places|] == places;
    if Editable(ms, p) {
      assert ms[p.message] == CleanMessage(body.messages[p.message]);
      CleanedCarriesNot(body.messages, p);
    }
    if p in places {
      var i :| 0 <= i < |places| && places[i] == p;
    }
  }

  lemma {:induction false} EditHoursOnly(ms: seq<Message>, p: Place)
    requires Editable(ms, p) && HoursOnly(ms)
    ensures HoursOnly(Apply(ms, Put(p, HourMarker())))
  {
    var after := Apply(ms, Put(p, HourMarker()));
    forall q | Editable(after, q) ensures HourOrNothing(BlockAt(after, q)) {
      assert Editable(ms, q);
      if p != q {
        assert BlockAt(after, q) == BlockAt(ms, q);
      }
    }
  }

  lemma {:induction false} HoursStay(ms: seq<Message>, places: seq<Place>)
    requires Fit(ms, Hour(places)) && HoursOnly(ms)
    ensures HoursOnly(ApplyAll(ms, Hour(places)))
    decreases |places|
  {
    if places != [] {
      assert Ephemeral("1h") == HourMarker();
      assert Hour(places)[0] == Put(places[0], Ephemeral("1h"));
      assert Hour(places)[1..] == Hour(places[1..]);
      EditHoursOnly(ms, places[0]);
      HoursStay(Apply(ms, Put(places[0], HourMarker())), places[1..]);
    }
  }

  /** And every one of them for an hour. */
  lemma {:induction false} PlacedHours(body: Body, places: seq<Place>)
    requires AllEditable(CleanMessages(body.messages), places)
    ensures HoursOnly(Placed(body, places).messages)
  {
    HourWritesMarkers(CleanMessages(body.messages), places);
    ClearedHoursOnly(body.messages);
    HoursStay(CleanMessages(body.messages), places);
  }

  lemma {:induction false} CleanedCarriesNot(ms: seq<Message>, p: Place)
    requires Editable(CleanMessages(ms), p)
    ensures !Carries(CleanMessages(ms), p)
  {
    var cleaned := CleanMessages(ms);
    assert cleaned[p.message] == CleanMessage(ms[p.message]);
    if ms[p.message].content.Blocks? {
      assert BlockAt(cleaned, p) == Unmark(ms[p.message].content.blocks[p.block]);
    }
  }

  /** `pair-back-*` marks the last block and, if it is ahead of that, the target. */
  lemma {:induction false} PairPlacement(body: Body, target: nat, k: nat)
    requires var ms := CleanMessages(body.messages); k < |Places(ms, |ms|)|
    ensures var ms := CleanMessages(body.messages);
            var places := Places(ms, |ms|);
            var end := |places| - 1;
            Carries(PairBack(body, target).messages, places[k]) <==> k == end || (k == target && k < end)
  {
    var ms := CleanMessages(body.messages);
    var places := Places(ms, |ms|);
    var chosen := PairPlaces(ms, target);
    PlacedCarries(body, chosen, places[k]);
    PlacesDistinct(ms);
    assert places[|places| - 1] == places[k] <==> k == |places| - 1;
    if target < |places| - 1 {
      assert places[target] == places[k] <==> k == target;
    }
  }

  /** How many messages from the `i`-th on end in an object. */
  function SealableFrom(ms: seq<Message>, i: nat): nat
    requires i <= |ms|
    decreases |ms| - i
  {
    if i == |ms| then 0 else SealableFrom(ms, i + 1) + if Sealable(ms[i]) then 1 else 0
  }

  /** What is listed of the first `n` messages, counted from the front. */
  lemma {:induction false} EndsCount(ms: seq<Message>, n: nat)
    requires n <= |ms|
    ensures |Ends(ms, n)| + SealableFrom(ms, n) == SealableFrom(ms, 0)
  {
    if n > 0 {
      EndsCount(ms, n - 1);
    }
  }

  lemma {:induction false} EndAt(ms: seq<Message>, n: nat, i: nat)
    requires i < n <= |ms| && Sealable(ms[i])
    ensures |Ends(ms, i)| < |Ends(ms, n)| && Ends(ms, n)[|Ends(ms, i)|] == EndOf(ms, i)
    ensures forall k :: 0 <= k < |Ends(ms, n)| && k != |Ends(ms, i)| ==> Ends(ms, n)[k] != EndOf(ms, i)
  {
    if i < n - 1 {
      EndAt(ms, n - 1, i);
    } else {
      EndsAhead(ms, i);
    }
  }

  lemma {:induction false} EndsAhead(ms: seq<Message>, n: nat)
    requires n <= |ms|
    ensures forall k :: 0 <= k < |Ends(ms, n)| ==> Ends(ms, n)[k].message < n
  {
    if n > 0 {
      EndsAhead(ms, n - 1);
    }
  }

  /** `tail-slots-n` marks the end of a message if and only if fewer than `n` later ones could be marked. */
  lemma {:induction false} SlotPlacement(body: Body, slots: nat, i: nat)
    requires var ms := CleanMessages(body.messages); i < |ms| && Sealable(ms[i])
    ensures var ms := CleanMessages(body.messages);
            Carries(TailSlots(body, slots).messages, EndOf(ms, i)) <==> SealableFrom(ms, i + 1) < slots
  {
    var ms := CleanMessages(body.messages);
    var ends, last := Ends(ms, |ms|), LastEnds(ms, slots);
    PlacedCarries(body, last, EndOf(ms, i));
    EndAt(ms, |ms|, i);
    EndsCount(ms, i);
    EndsCount(ms, |ms|);
    var k := |Ends(ms, i)|;
    assert |ends| - k == SealableFrom(ms, i + 1) + 1;
    InLast(ends, slots, k);
  }

  lemma {:induction false} InLast(places: seq<Place>, slots: nat, k: nat)
    requires k < |places| && forall j :: 0 <= j < |places| && j != k ==> places[j] != places[k]
    ensures places[k] in LastOf(places, slots) <==> |places| - k <= slots
  {
    var last := LastOf(places, slots);
    if |places| - k <= slots {
      var from := |places| - |last|;
      assert last[k - from] == places[k];
    }
  }
}
