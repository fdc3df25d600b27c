/** Strategies that only move, add or remove `cache_control` markers. */
module Markers {
  import opened Wire
  import opened Flattening
  import opened PlainCache

  // ---- Clearing the message markers ----

  function UnmarkAll(blocks: seq<Json>): (r: seq<Json>)
    ensures |r| == |blocks|
  {
    seq(|blocks|, i requires 0 <= i < |blocks| => Unmark(blocks[i]))
  }

  /** A bare string becomes one text block, and no block keeps a marker. */
  function Clean(c: Content): Content {
    match c
    case Absent => Absent
    case Text(text) => Blocks([TextBlock(text)])
    case Blocks(blocks) => Blocks(UnmarkAll(blocks))
  }

  function CleanMessage(m: Message): Message { m.(content := Clean(m.content)) }

  function CleanMessages(ms: seq<Message>): (r: seq<Message>)
    ensures |r| == |ms|
  {
    seq(|ms|, i requires 0 <= i < |ms| => CleanMessage(ms[i]))
  }

  // ---- The editable blocks, as a list of places ----

  /** Message and block index of a block that is an object. */
  datatype Place = Place(message: nat, block: nat)

  predicate Editable(ms: seq<Message>, p: Place) {
    && p.message < |ms|
    && ms[p.message].content.Blocks?
    && p.block < |ms[p.message].content.blocks|
    && ms[p.message].content.blocks[p.block].Obj?
  }

  function PlacesIn(blocks: seq<Json>, message: nat, n: nat): seq<Place>
    requires n <= |blocks|
  {
    if n == 0 then []
    else PlacesIn(blocks, message, n - 1) + if blocks[n - 1].Obj? then [Place(message, n - 1)] else []
  }

  function PlacesOf(m: Message, message: nat): seq<Place> {
    if m.content.Blocks? then PlacesIn(m.content.blocks, message, |m.content.blocks|) else []
  }

  /** The places among the first `n` messages, in wire order. */
  function Places(ms: seq<Message>, n: nat): seq<Place>
    requires n <= |ms|
  {
    if n == 0 then [] else Places(ms, n - 1) + PlacesOf(ms[n - 1], n - 1)
  }

  function BlockAt(ms: seq<Message>, p: Place): Json
    requires Editable(ms, p)
  {
    ms[p.message].content.blocks[p.block]
  }

  /** `block["cache_control"] = control`, in place. */
  function MarkAt(ms: seq<Message>, p: Place, control: Json): (r: seq<Message>)
    requires Editable(ms, p)
    ensures |r| == |ms|
  {
    var m := ms[p.message];
    ms[p.message := m.(content := Blocks(m.content.blocks[p.block := Mark(BlockAt(ms, p), control)]))]
  }

  lemma {:induction false} PlacesInEditable(blocks: seq<Json>, message: nat, n: nat, k: nat)
    requires n <= |blocks| && k < |PlacesIn(blocks, message, n)|
    ensures var p := PlacesIn(blocks, message, n)[k]; p.message == message && p.block < n && blocks[p.block].Obj?
    ensures forall l :: 0 <= l < k ==> PlacesIn(blocks, message, n)[l] != PlacesIn(blocks, message, n)[k]
  {
    if k < |PlacesIn(blocks, message, n - 1)| {
      PlacesInEditable(blocks, message, n - 1, k);
    } else {
      forall l | 0 <= l < k ensures PlacesIn(blocks, message, n)[l] != PlacesIn(blocks, message, n)[k] {
        PlacesInEditable(blocks, message, n - 1, l);
      }
    }
  }

  lemma {:induction false} PlacesEditable(ms: seq<Message>, n: nat, k: nat)
    requires n <= |ms| && k < |Places(ms, n)|
    ensures Editable(ms, Places(ms, n)[k]) && Places(ms, n)[k].message < n
    ensures forall l :: 0 <= l < k ==> Places(ms, n)[l] != Places(ms, n)[k]
  {
    var before := |Places(ms, n - 1)|;
    if k < before {
      PlacesEditable(ms, n - 1, k);
    } else {
      var blocks := ms[n - 1].content.blocks;
      PlacesInEditable(blocks, n - 1, |blocks|, k - before);
      forall l | 0 <= l < k ensures Places(ms, n)[l] != Places(ms, n)[k] {
        if l < before {
          PlacesEditable(ms, n - 1, l);
        }
      }
    }
  }

  /** Once cleared, no message block is marked. */
  lemma {:induction false} CleanUnmarked(est: Estimator, ms: seq<Message>)
    ensures NoMarkers(Segments(est, MessageBlocks(CleanMessages(ms))))
  {
    if ms != [] {
      var cleaned := CleanMessages(ms);
      assert cleaned[1..] == CleanMessages(ms[1..]);
      CleanUnmarked(est, ms[1..]);
      assert cleaned[0] == CleanMessage(ms[0]);
      var head := ContentBlocks(cleaned[0].role, cleaned[0].content);
      forall i | 0 <= i < |head| ensures !Marked(head[i].block) {
        if ms[0].content.Blocks? {
          UnmarkIdempotent(ms[0].content.blocks[i]);
        }
      }
      SegmentsConcat(est, head, MessageBlocks(cleaned[1..]));
    }
  }

  // ---- Tail breakpoints ----

  /** `round`: to the nearest integer, halves to even. */
  function Round(a: nat, b: nat): nat
    requires b > 0
  {
    var q, r := a / b, a % b;
    if 2 * r > b || (2 * r == b && q % 2 == 1) then q + 1 else q
  }

  /** The i-th of `count` tail markers on a list of `n` blocks, counted back from its end. */
  function Back(i: nat, n: nat, count: nat): nat { Round(i * n, 4 * (if count == 0 then 1 else count)) }

  function Backs(n: nat, count: nat): (r: seq<nat>)
    ensures |r| == count
  {
    seq(count, i requires 0 <= i < count => Back(i, n, count))
  }

  ghost predicate AllEditable(ms: seq<Message>, places: seq<Place>) {
    forall l :: 0 <= l < |places| ==> Editable(ms, places[l])
  }

  lemma {:induction false} AllPlacesEditable(ms: seq<Message>)
    ensures AllEditable(ms, Places(ms, |ms|))
  {
    forall l | 0 <= l < |Places(ms, |ms|)| ensures Editable(ms, Places(ms, |ms|)[l]) {
      PlacesEditable(ms, |ms|, l);
    }
  }

  /** Markers on the places the first `k` of `backs` point at, written one after the other. */
  function MarkBacks(ms: seq<Message>, places: seq<Place>, backs: seq<nat>, k: nat): (r: seq<Message>)
    requires k <= |backs| && AllEditable(ms, places)
    ensures |r| == |ms| && AllEditable(r, places)
  {
    if k == 0 then ms
    else
      var before, n := MarkBacks(ms, places, backs, k - 1), |places|;
      if backs[k - 1] < n then MarkAt(before, places[n - 1 - backs[k - 1]], Ephemeral("1h")) else before
  }

  /** One marker of such a placement. */
  function MarkNext(before: seq<Message>, places: seq<Place>, back: nat): seq<Message>
    requires AllEditable(before, places)
  {
    if back < |places| then MarkAt(before, places[|places| - 1 - back], Ephemeral("1h")) else before
  }

  /** Whatever holds before the first marker and survives each one holds after any number of them. */
  lemma {:induction false} MarkBacksInduction(ms: seq<Message>, places: seq<Place>, backs: seq<nat>, k: nat,
                                              inv: (seq<Message>, nat) -> bool)
    requires k <= |backs| && AllEditable(ms, places) && inv(ms, 0)
    requires forall before: seq<Message>, j: nat :: j < |backs| && AllEditable(before, places) && inv(before, j) ==>
      inv(MarkNext(before, places, backs[j]), j + 1)
    ensures inv(MarkBacks(ms, places, backs, k), k)
  {
    if k > 0 {
      MarkBacksInduction(ms, places, backs, k - 1, inv);
      var before := MarkBacks(ms, places, backs, k - 1);
      assert MarkBacks(ms, places, backs, k) == MarkNext(before, places, backs[k - 1]);
      assert inv(MarkNext(before, places, backs[k - 1]), k - 1 + 1);
    }
  }

  function TailBreakpoints(body: Body, count: nat): Body {
    var ms := CleanMessages(body.messages);
    var places := Places(ms, |ms|);
    AllPlacesEditable(ms);
    body.(messages := MarkBacks(ms, places, Backs(|places|, count), count))
  }

  // ---- System markers ----

  predicate Truthy(j: Json) {
    match j
    case Null => false
    case Bool(b) => b
    case Num(n) => n != 0.0
    case Str(s) => s != ""
    case Arr(items) => items != []
    case Obj(fields) => fields != map[]
  }

  /** The first system block whose marker is truthy, one past the end if there is none. */
  function FirstTruthy(blocks: seq<Json>, i: nat): (r: nat)
    requires i <= |blocks|
    ensures i <= r <= |blocks|
    ensures r < |blocks| ==> Truthy(Get(blocks[r], CacheControl))
    ensures forall k :: i <= k < r ==> !Truthy(Get(blocks[k], CacheControl))
    decreases |blocks| - i
  {
    if i == |blocks| || Truthy(Get(blocks[i], CacheControl)) then i else FirstTruthy(blocks, i + 1)
  }

  function DropFirst(system: Content): Content {
    if !system.Blocks? then system
    else
      var i := FirstTruthy(system.blocks, 0);
      if i == |system.blocks| then system else Blocks(system.blocks[i := Unmark(system.blocks[i])])
  }

  function Rebalance(body: Body, count: nat): Body {
    TailBreakpoints(body.(system := DropFirst(body.system)), count)
  }

  function StripSystem(body: Body): Body {
    if body.system.Blocks? then body.(system := Blocks(UnmarkAll(body.system.blocks))) else body
  }

  function RetimeAll(blocks: seq<Json>, ttl: string): (r: seq<Json>)
    ensures |r| == |blocks|
  {
    seq(|blocks|, i requires 0 <= i < |blocks| =>
      if Marked(blocks[i]) then Mark(blocks[i], Ephemeral(ttl)) else blocks[i])
  }

  /** String content is turned into a block here as well, whether or not it is marked. */
  function Retime(c: Content, ttl: string): Content {
    match c
    case Absent => Absent
    case Text(text) => Blocks([TextBlock(text)])
    case Blocks(blocks) => Blocks(RetimeAll(blocks, ttl))
  }

  function ForceTtl(body: Body, ttl: string): Body {
    body.(system := if body.system.Blocks? then Blocks(RetimeAll(body.system.blocks, ttl)) else body.system,
          messages := seq(|body.messages|, i requires 0 <= i < |body.messages| =>
            body.messages[i].(content := Retime(body.messages[i].content, ttl))))
  }

  // ---- The conversation is preserved ----

  /** The two bodies are one conversation to the cache: same roles, same blocks apart from markers. */
  ghost predicate SameConversation(a: Body, b: Body) { SameBare(AllBlocks(a), AllBlocks(b)) }

  ghost predicate SameBare(a: seq<Digest>, b: seq<Digest>) {
    |a| == |b| && forall i :: 0 <= i < |a| ==> a[i].role == b[i].role && Bare(a[i].block) == Bare(b[i].block)
  }

  lemma {:induction false} SameConversationShape(est: Estimator, a: Body, b: Body)
    requires SameConversation(a, b)
    ensures Shape(Flatten(est, a)) == Shape(Flatten(est, b))
  {
    var p, q := AllBlocks(a), AllBlocks(b);
    TrimKeepsShape(Segments(est, p));
    TrimKeepsShape(Segments(est, q));
    forall i | 0 <= i < |p| ensures Shape(Segments(est, p))[i] == Shape(Segments(est, q))[i] {
    }
  }

  /** Being one conversation is having the same tokens and digests. */
  lemma {:induction false} ShapeIsConversation(est: Estimator, a: Body, b: Body)
    ensures Shape(Flatten(est, a)) == Shape(Flatten(est, b)) <==> SameConversation(a, b)
  {
    var p, q := AllBlocks(a), AllBlocks(b);
    TrimKeepsShape(Segments(est, p));
    TrimKeepsShape(Segments(est, q));
    var s, t := Shape(Segments(est, p)), Shape(Segments(est, q));
    if s == t {
      assert |p| == |q|;
      forall i | 0 <= i < |p| ensures p[i].role == q[i].role && Bare(p[i].block) == Bare(q[i].block) {
        assert s[i].digest == Digest(p[i].role, Bare(p[i].block)) && t[i].digest == Digest(q[i].role, Bare(q[i].block));
      }
    }
    if SameConversation(a, b) {
      SameConversationShape(est, a, b);
    }
  }

  /** What is read depends on the conversation and the cache, not on where this request's markers sit. */
  lemma {:induction false} SameRead(plain: Plain, a: Request, b: Request)
    requires a.scope == b.scope && a.now == b.now && Shape(a.segs) == Shape(b.segs)
    requires Last(a.segs) > 0 && Last(b.segs) > 0
    ensures Billed(plain, a).read == Billed(plain, b).read
    ensures Total(a.segs) == Total(b.segs)
  {
    var n := |a.segs|;
    assert |Shape(a.segs)| == |Shape(b.segs)|;
    SameReadBefore(plain, a, b, n);
    forall i | 0 <= i <= n ensures Upto(a.segs, i) == Upto(b.segs, i) {
      assert Shape(a.segs)[..i] == Shape(b.segs)[..i];
      UptoOfShape(a.segs, b.segs, i);
    }
  }

  lemma {:induction false} SameReadBefore(plain: Plain, a: Request, b: Request, n: nat)
    requires a.scope == b.scope && a.now == b.now && Shape(a.segs) == Shape(b.segs) && n <= |a.segs|
    ensures n <= |b.segs| && ReadBefore(plain, a, n) == ReadBefore(plain, b, n)
  {
    assert |Shape(a.segs)| == |Shape(b.segs)|;
    if n > 0 {
      SameReadBefore(plain, a, b, n - 1);
      assert Shape(a.segs)[..n] == Shape(b.segs)[..n];
      UptoOfShape(a.segs, b.segs, n);
    }
  }

  /** Markers decide what is written, never what can be read: for one cache state, two bodies that are one
      conversation read the same as long as each keeps a cacheable breakpoint. */
  lemma {:induction false} MarkersDoNotMoveTheRead(est: Estimator, plain: Plain, a: Body, b: Body, scope: string,
                                                   now: real)
    requires SameConversation(a, b) && Last(Flatten(est, a)) > 0 && Last(Flatten(est, b)) > 0
    ensures Billed(plain, Request(scope, Flatten(est, a), now)).read
         == Billed(plain, Request(scope, Flatten(est, b), now)).read
  {
    SameConversationShape(est, a, b);
    SameRead(plain, Request(scope, Flatten(est, a), now), Request(scope, Flatten(est, b), now));
  }

  // Messages one by one.

  ghost predicate SameMessages(a: seq<Message>, b: seq<Message>) {
    |a| == |b| && forall i :: 0 <= i < |a| ==>
      SameBare(ContentBlocks(a[i].role, a[i].content), ContentBlocks(b[i].role, b[i].content))
  }

  lemma {:induction false} SameMessagesBlocks(a: seq<Message>, b: seq<Message>)
    requires SameMessages(a, b)
    ensures SameBare(MessageBlocks(a), MessageBlocks(b))
  {
    if a != [] {
      SameMessagesBlocks(a[1..], b[1..]);
    }
  }

  lemma {:induction false} SameBody(a: Body, b: Body)
    requires a.tools == b.tools && SameMessages(a.messages, b.messages)
    requires SameBare(ContentBlocks("system", a.system), ContentBlocks("system", b.system))
    ensures SameConversation(a, b)
  {
    SameMessagesBlocks(a.messages, b.messages);
  }

  /** Popping `cache_control` is invisible exactly when it was a marker, or absent. */
  lemma {:induction false} UnmarkInvisible(block: Json)
    ensures Bare(Unmark(block)) == Bare(block) <==> WellFormed(block)
  {
    if block.Obj? {
      assert CacheControl !in Unmark(block).fields;
      if CacheControl !in block.fields {
        assert block.fields - {CacheControl} == block.fields;
      }
    }
  }

  lemma {:induction false} MarkInvisible(block: Json, control: Json)
    requires block.Obj? && control.Obj? && WellFormed(block)
    ensures Bare(Mark(block, control)) == Bare(block)
  {
    UnmarkMark(block, control);
    UnmarkInvisible(block);
  }

  ghost predicate WellFormedContent(c: Content) {
    c.Blocks? ==> forall i :: 0 <= i < |c.blocks| ==> WellFormed(c.blocks[i])
  }

  ghost predicate WellFormedMessages(ms: seq<Message>) {
    forall i :: 0 <= i < |ms| ==> WellFormedContent(ms[i].content)
  }

  lemma {:induction false} UnmarkAllInvisible(role: string, blocks: seq<Json>)
    ensures SameBare(Tag(role, blocks), Tag(role, UnmarkAll(blocks))) <==> WellFormedContent(Blocks(blocks))
  {
    var t, u := Tag(role, blocks), Tag(role, UnmarkAll(blocks));
    forall i | 0 <= i < |blocks| ensures Bare(t[i].block) == Bare(u[i].block) <==> WellFormed(blocks[i]) {
      UnmarkInvisible(blocks[i]);
    }
    if SameBare(t, u) {
      forall i | 0 <= i < |blocks| ensures WellFormed(blocks[i]) {
        assert Bare(t[i].block) == Bare(u[i].block);
      }
    }
  }

  /** Clearing the message markers and normalising strings leaves the conversation as it was, if and only
      if no message block carries a `cache_control` that is not an object. */
  lemma {:induction false} ClearingIsInvisible(ms: seq<Message>)
    ensures SameMessages(ms, CleanMessages(ms)) <==> WellFormedMessages(ms)
  {
    var cleaned := CleanMessages(ms);
    forall i | 0 <= i < |ms|
      ensures SameBare(ContentBlocks(ms[i].role, ms[i].content), ContentBlocks(cleaned[i].role, cleaned[i].content))
         <==> WellFormedContent(ms[i].content)
    {
      if ms[i].content.Blocks? {
        UnmarkAllInvisible(ms[i].role, ms[i].content.blocks);
      }
    }
    if SameMessages(ms, cleaned) {
      forall i | 0 <= i < |ms| ensures WellFormedContent(ms[i].content) {
        assert SameBare(ContentBlocks(ms[i].role, ms[i].content), ContentBlocks(cleaned[i].role, cleaned[i].content));
      }
    }
  }

  lemma {:induction false} SameBareParts(a: seq<Digest>, b: seq<Digest>, c: seq<Digest>, d: seq<Digest>)
    requires |a| == |c|
    ensures SameBare(a + b, c + d) <==> SameBare(a, c) && SameBare(b, d)
  {
    var x, y := a + b, c + d;
    if SameBare(x, y) {
      forall i | 0 <= i < |a| ensures a[i].role == c[i].role && Bare(a[i].block) == Bare(c[i].block) {
        assert x[i] == a[i] && y[i] == c[i];
      }
      forall i | 0 <= i < |b| ensures b[i].role == d[i].role && Bare(b[i].block) == Bare(d[i].block) {
        assert x[|a| + i] == b[i] && y[|a| + i] == d[i];
      }
    }
  }

  /** Clearing keeps the number of blocks of every message, so blocks agree when messages do. */
  lemma {:induction false} ClearedBlocks(ms: seq<Message>)
    ensures SameBare(MessageBlocks(ms), MessageBlocks(CleanMessages(ms))) <==> SameMessages(ms, CleanMessages(ms))
  {
    if ms != [] {
      var cleaned := CleanMessages(ms);
      assert cleaned[0] == CleanMessage(ms[0]) && cleaned[1..] == CleanMessages(ms[1..]);
      ClearedBlocks(ms[1..]);
      SameBareParts(ContentBlocks(ms[0].role, ms[0].content), MessageBlocks(ms[1..]),
                    ContentBlocks(cleaned[0].role, cleaned[0].content), MessageBlocks(cleaned[1..]));
      SameMessagesCons(ms, cleaned);
    }
  }

  lemma {:induction false} SameMessagesCons(a: seq<Message>, b: seq<Message>)
    requires a != [] && |a| == |b|
    ensures SameMessages(a, b)
       <==> SameBare(ContentBlocks(a[0].role, a[0].content), ContentBlocks(b[0].role, b[0].content))
            && SameMessages(a[1..], b[1..])
  {
    var x, y := a[1..], b[1..];
    assert forall i :: 0 <= i < |x| ==> x[i] == a[i + 1] && y[i] == b[i + 1];
    if SameMessages(x, y) {
      forall i | 0 < i < |a|
        ensures SameBare(ContentBlocks(a[i].role, a[i].content), ContentBlocks(b[i].role, b[i].content))
      {
        assert SameBare(ContentBlocks(x[i - 1].role, x[i - 1].content), ContentBlocks(y[i - 1].role, y[i - 1].content));
      }
    }
  }

  /** To the cache: clearing the message markers of a body leaves its tokens and digests alone if and only if no
      message block carries a `cache_control` that is not an object. */
  lemma {:induction false} ClearingKeepsShape(est: Estimator, body: Body)
    ensures Shape(Flatten(est, body)) == Shape(Flatten(est, body.(messages := CleanMessages(body.messages))))
       <==> WellFormedMessages(body.messages)
  {
    var cleared := body.(messages := CleanMessages(body.messages));
    ShapeIsConversation(est, body, cleared);
    SameBareParts(HeadBlocks(body), MessageBlocks(body.messages), HeadBlocks(body), MessageBlocks(cleared.messages));
    ClearedBlocks(body.messages);
    ClearingIsInvisible(body.messages);
  }

  /** A block whose marker is null is hashed with it, and without it once it is cleared. */
  lemma {:induction false} NullMarkerIsHashed(est: Estimator, body: Body, role: string, text: string)
    requires body.messages == [Message(role, Blocks([Mark(TextBlock(text), Null)]))]
    ensures Shape(Flatten(est, body)) != Shape(Flatten(est, body.(messages := CleanMessages(body.messages))))
  {
    ClearingKeepsShape(est, body);
    var block := Mark(TextBlock(text), Null);
    assert !WellFormed(block);
    assert body.messages[0].content.blocks[0] == block;
    assert !WellFormedContent(body.messages[0].content);
  }

  lemma {:induction false} CleanedWellFormed(ms: seq<Message>)
    ensures WellFormedMessages(CleanMessages(ms))
  {
    forall i | 0 <= i < |ms| ensures WellFormedContent(CleanMessages(ms)[i].content) {
      assert CleanMessages(ms)[i] == CleanMessage(ms[i]);
    }
  }

  lemma {:induction false} SameMessagesTrans(a: seq<Message>, b: seq<Message>, c: seq<Message>)
    requires SameMessages(a, b) && SameMessages(b, c)
    ensures SameMessages(a, c)
  {
    forall i | 0 <= i < |a|
      ensures SameBare(ContentBlocks(a[i].role, a[i].content), ContentBlocks(c[i].role, c[i].content))
    {
      assert SameBare(ContentBlocks(a[i].role, a[i].content), ContentBlocks(b[i].role, b[i].content));
      assert SameBare(ContentBlocks(b[i].role, b[i].content), ContentBlocks(c[i].role, c[i].content));
    }
  }

  lemma {:induction false} MarkAtInvisible(ms: seq<Message>, p: Place, control: Json)
    requires Editable(ms, p) && WellFormedMessages(ms) && control.Obj?
    ensures SameMessages(ms, MarkAt(ms, p, control)) && WellFormedMessages(MarkAt(ms, p, control))
  {
    var marked := MarkAt(ms, p, control);
    assert WellFormedContent(ms[p.message].content);
    MarkInvisible(BlockAt(ms, p), control);
    forall i | 0 <= i < |ms|
      ensures SameBare(ContentBlocks(ms[i].role, ms[i].content), ContentBlocks(marked[i].role, marked[i].content))
      ensures WellFormedContent(marked[i].content)
    {
      assert WellFormedContent(ms[i].content);
    }
  }

  lemma {:induction false} MarkBacksInvisible(ms: seq<Message>, places: seq<Place>, backs: seq<nat>, k: nat)
    requires k <= |backs| && AllEditable(ms, places) && WellFormedMessages(ms)
    ensures SameMessages(ms, MarkBacks(ms, places, backs, k)) && WellFormedMessages(MarkBacks(ms, places, backs, k))
  {
    var inv := (r: seq<Message>, j: nat) => SameMessages(ms, r) && WellFormedMessages(r);
    SameMessagesRefl(ms);
    forall before: seq<Message>, j: nat | j < |backs| && AllEditable(before, places) && inv(before, j)
      ensures inv(MarkNext(before, places, backs[j]), j + 1)
    {
      NextInvisible(ms, before, places, backs[j]);
    }
    MarkBacksInduction(ms, places, backs, k, inv);
  }

  lemma {:induction false} NextInvisible(ms: seq<Message>, before: seq<Message>, places: seq<Place>, back: nat)
    requires AllEditable(before, places) && SameMessages(ms, before) && WellFormedMessages(before)
    ensures SameMessages(ms, MarkNext(before, places, back)) && WellFormedMessages(MarkNext(before, places, back))
  {
    if back < |places| {
      assert Editable(before, places[|places| - 1 - back]);
      MarkOnTop(ms, before, places[|places| - 1 - back]);
    }
  }

  lemma {:induction false} MarkOnTop(ms: seq<Message>, before: seq<Message>, p: Place)
    requires SameMessages(ms, before) && WellFormedMessages(before) && Editable(before, p)
    ensures var after := MarkAt(before, p, Ephemeral("1h")); SameMessages(ms, after) && WellFormedMessages(after)
  {
    MarkAtInvisible(before, p, Ephemeral("1h"));
    SameMessagesTrans(ms, before, MarkAt(before, p, Ephemeral("1h")));
  }

  /** `tail-breakpoints-n` touches nothing but markers. */
  lemma {:induction false} TailBreakpointsInvisible(body: Body, count: nat)
    requires WellFormedMessages(body.messages)
    ensures SameConversation(body, TailBreakpoints(body, count))
  {
    var ms := CleanMessages(body.messages);
    var places := Places(ms, |ms|);
    AllPlacesEditable(ms);
    ClearingIsInvisible(body.messages);
    CleanedWellFormed(body.messages);
    MarkBacksInvisible(ms, places, Backs(|places|, count), count);
    SameMessagesTrans(body.messages, ms, TailBreakpoints(body, count).messages);
    SameBody(body, TailBreakpoints(body, count));
  }

  lemma {:induction false} DropFirstInvisible(system: Content)
    requires WellFormedContent(system)
    ensures SameBare(ContentBlocks("system", system), ContentBlocks("system", DropFirst(system)))
  {
    if system.Blocks? && FirstTruthy(system.blocks, 0) < |system.blocks| {
      UnmarkInvisible(system.blocks[FirstTruthy(system.blocks, 0)]);
    }
  }

  /** `rebalance-1sys-ntail` touches nothing but markers. */
  lemma {:induction false} RebalanceInvisible(body: Body, count: nat)
    requires WellFormedMessages(body.messages) && WellFormedContent(body.system)
    ensures SameConversation(body, Rebalance(body, count))
  {
    var dropped := body.(system := DropFirst(body.system));
    DropFirstInvisible(body.system);
    SameMessagesRefl(body.messages);
    SameBody(body, dropped);
    TailBreakpointsInvisible(dropped, count);
  }

  lemma {:induction false} SameMessagesRefl(ms: seq<Message>)
    ensures SameMessages(ms, ms)
  {
  }

  /** `strip-system-breakpoints` touches nothing but markers. */
  lemma {:induction false} StripSystemInvisible(body: Body)
    requires WellFormedContent(body.system)
    ensures SameConversation(body, StripSystem(body))
  {
    if body.system.Blocks? {
      UnmarkAllInvisible("system", body.system.blocks);
    }
    SameMessagesRefl(body.messages);
    SameBody(body, StripSystem(body));
  }

  /** In terms of `flatten`, if and only if no system block carries a `cache_control` that is not an object. */
  lemma {:induction false} StripSystemKeepsShape(est: Estimator, body: Body)
    ensures Shape(Flatten(est, body)) == Shape(Flatten(est, StripSystem(body))) <==> WellFormedContent(body.system)
  {
    if body.system.Blocks? {
      var stripped, blocks := StripSystem(body), body.system.blocks;
      var tools, rest := Tag("tools", body.tools), MessageBlocks(body.messages);
      var x, y := Tag("system", blocks), Tag("system", UnmarkAll(blocks));
      ShapeIsConversation(est, body, stripped);
      SameBareParts(tools + x, rest, tools + y, rest);
      SameBareParts(tools, x, tools, y);
      UnmarkAllInvisible("system", blocks);
    }
  }

  lemma {:induction false} RetimeAllInvisible(role: string, blocks: seq<Json>, ttl: string)
    ensures SameBare(Tag(role, blocks), Tag(role, RetimeAll(blocks, ttl)))
  {
    var r := RetimeAll(blocks, ttl);
    forall i | 0 <= i < |blocks| ensures Bare(r[i]) == Bare(blocks[i]) {
      if Marked(blocks[i]) {
        MarkInvisible(blocks[i], Ephemeral(ttl));
      }
    }
  }

  /** `force-ttl-*` touches nothing but markers, on every body: it rewrites only what already is one. */
  lemma {:induction false} ForceTtlInvisible(body: Body, ttl: string)
    ensures SameConversation(body, ForceTtl(body, ttl))
  {
    var forced := ForceTtl(body, ttl);
    if body.system.Blocks? {
      RetimeAllInvisible("system", body.system.blocks, ttl);
    }
    forall i | 0 <= i < |body.messages|
      ensures SameBare(ContentBlocks(body.messages[i].role, body.messages[i].content),
                       ContentBlocks(forced.messages[i].role, forced.messages[i].content))
    {
      if body.messages[i].content.Blocks? {
        RetimeAllInvisible(body.messages[i].role, body.messages[i].content.blocks, ttl);
      }
    }
    SameBody(body, forced);
  }
}
