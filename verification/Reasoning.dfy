/** Stripping old reasoning, with every message marker held in front of the cut. */
module Reasoning {
  import opened Wire
  import opened Flattening
  import opened PlainCache
  import opened CacheRuns
  import opened Markers

  // ---- The strip ----

  predicate IsThinking(b: Json) {
    b.Obj? && (Get(b, Type) == Str("thinking") || Get(b, Type) == Str("redacted_thinking"))
  }

  function DropThinking(blocks: seq<Json>): seq<Json> {
    if blocks == [] then []
    else (if IsThinking(blocks[0]) then [] else [blocks[0]]) + DropThinking(blocks[1..])
  }

  function Strip(c: Content): Content { if c.Blocks? then Blocks(DropThinking(c.blocks)) else c }

  function StripMessage(m: Message): Message { m.(content := Strip(m.content)) }

  /** The newest assistant message among the first `n`. */
  function NewestAssistant(ms: seq<Message>, n: nat): (r: Option<nat>)
    requires n <= |ms|
    ensures r.Some? ==> r.value < n && ms[r.value].role == "assistant"
    ensures forall i :: 0 <= i < n && (r.None? || r.value < i) ==> ms[i].role != "assistant"
  {
    if n == 0 then None
    else if ms[n - 1].role == "assistant" then Some(n - 1)
    else NewestAssistant(ms, n - 1)
  }

  function Newest(body: Body): Option<nat> { NewestAssistant(body.messages, |body.messages|) }

  /** Reasoning goes from every message but the newest assistant one. */
  function StripExcept(ms: seq<Message>, last: nat): (r: seq<Message>)
    ensures |r| == |ms|
  {
    seq(|ms|, i requires 0 <= i < |ms| => if i == last then ms[i] else StripMessage(ms[i]))
  }

  /** Stripped and without message markers: what both arms place their markers on. */
  function Base(ms: seq<Message>, last: nat): (r: seq<Message>)
    ensures |r| == |ms|
  {
    CleanMessages(StripExcept(ms, last))
  }

  // ---- The two placements ----

  /** A message whose last block can carry a marker. */
  predicate Sealable(m: Message) {
    m.content.Blocks? && m.content.blocks != [] && m.content.blocks[|m.content.blocks| - 1].Obj?
  }

  /** The last sealable message among the first `n`. */
  function SealBefore(ms: seq<Message>, n: nat): (r: Option<nat>)
    requires n <= |ms|
    ensures r.Some? ==> r.value < n && Sealable(ms[r.value])
    ensures forall i :: 0 <= i < n && (r.None? || r.value < i) ==> !Sealable(ms[i])
  {
    if n == 0 then None else if Sealable(ms[n - 1]) then Some(n - 1) else SealBefore(ms, n - 1)
  }

  function EndOf(ms: seq<Message>, i: nat): Place
    requires i < |ms| && Sealable(ms[i])
  {
    Place(i, |ms[i].content.blocks| - 1)
  }

  function MarkLastBefore(ms: seq<Message>, limit: nat): seq<Message>
    requires limit <= |ms|
  {
    match SealBefore(ms, limit)
    case None => ms
    case Some(i) => MarkAt(ms, EndOf(ms, i), Ephemeral("1h"))
  }

  /** `strip-old-thinking-safe-marks`: one marker, right before the cut. */
  function SafeMarks(body: Body): Body {
    match Newest(body)
    case None => body
    case Some(last) => body.(messages := MarkLastBefore(Base(body.messages, last), last))
  }

  /** How many system blocks carry a truthy marker. */
  function SystemMarkers(system: Content): nat {
    if system.Blocks? then CountTruthy(system.blocks) else 0
  }

  function CountTruthy(blocks: seq<Json>): nat {
    if blocks == [] then 0
    else (if Truthy(Get(blocks[0], CacheControl)) then 1 else 0) + CountTruthy(blocks[1..])
  }

  /** What the system markers leave of the budget of four, and at least one. */
  function Budget(system: Content): nat {
    if SystemMarkers(system) >= MAX_BREAKPOINTS then 1 else MAX_BREAKPOINTS - SystemMarkers(system)
  }

  lemma {:induction false} PlacesBeforeEditable(ms: seq<Message>, n: nat)
    requires n <= |ms|
    ensures AllEditable(ms, Places(ms, n))
  {
    forall l | 0 <= l < |Places(ms, n)| ensures Editable(ms, Places(ms, n)[l]) {
      PlacesEditable(ms, n, l);
    }
  }

  /** `strip-old-thinking-spread-marks`: the whole budget, spread in front of the cut. */
  function SpreadMarks(body: Body): Body {
    match Newest(body)
    case None => body
    case Some(last) =>
      var ms := Base(body.messages, last);
      var places := Places(ms, last);
      PlacesBeforeEditable(ms, last);
      var budget := Budget(body.system);
      body.(messages := MarkBacks(ms, places, Backs(|places|, budget), budget))
  }

  // ---- What does not change from turn to turn ----

  lemma {:induction false} ThinkingUnmarked(b: Json)
    ensures IsThinking(Unmark(b)) == IsThinking(b)
  {
  }

  lemma {:induction false} DropUnmark(blocks: seq<Json>)
    ensures UnmarkAll(DropThinking(blocks)) == DropThinking(UnmarkAll(blocks))
  {
    if blocks != [] {
      DropUnmark(blocks[1..]);
      ThinkingUnmarked(blocks[0]);
      assert UnmarkAll(blocks)[1..] == UnmarkAll(blocks[1..]);
    }
  }

  /** Stripping and clearing commute, so what is left depends on the message up to its markers. */
  lemma {:induction false} StripClean(c: Content)
    ensures Clean(Strip(c)) == Strip(Clean(c))
  {
    match c
    case Absent =>
    case Text(text) =>
      var b := TextBlock(text);
      assert !IsThinking(b);
      assert [b][1..] == [];
      assert DropThinking([b]) == [b] + [];
    case Blocks(blocks) => DropUnmark(blocks);
  }

  /** `b` appends to `a`: same tools and system, and every message of `a` is still there, up to where the
      client's markers sit and whether a text is a string or a block. */
  ghost predicate Grows(a: Body, b: Body) {
    && a.tools == b.tools && a.system == b.system
    && |a.messages| <= |b.messages|
    && forall i :: 0 <= i < |a.messages| ==> CleanMessage(a.messages[i]) == CleanMessage(b.messages[i])
  }

  lemma {:induction false} NewestGrows(a: Body, b: Body)
    requires Grows(a, b) && Newest(a).Some?
    ensures Newest(b).Some? && Newest(a).value <= Newest(b).value
  {
    var i := Newest(a).value;
    assert CleanMessage(a.messages[i]) == CleanMessage(b.messages[i]);
    assert b.messages[i].role == "assistant";
  }

  /** Ahead of the cut of the earlier turn, both turns forward the same blocks. */
  lemma {:induction false} BaseStable(a: Body, b: Body, i: nat)
    requires Grows(a, b) && Newest(a).Some? && Newest(b).Some? && i < Newest(a).value <= Newest(b).value
    ensures Base(a.messages, Newest(a).value)[i] == Base(b.messages, Newest(b).value)[i]
  {
    assert CleanMessage(a.messages[i]) == CleanMessage(b.messages[i]);
    StripClean(a.messages[i].content);
    StripClean(b.messages[i].content);
  }

  // ---- From message lists to segments ----

  function MessageSegments(est: Estimator, ms: seq<Message>): seq<Segment> { Segments(est, MessageBlocks(ms)) }

  lemma {:induction false} SegmentsOfConcat(est: Estimator, a: seq<Message>, b: seq<Message>)
    ensures MessageSegments(est, a + b) == MessageSegments(est, a) + MessageSegments(est, b)
  {
    MessageBlocksConcat(a, b);
    SegmentsConcat(est, MessageBlocks(a), MessageBlocks(b));
  }

  lemma {:induction false} SameShape(est: Estimator, a: seq<Message>, b: seq<Message>)
    requires SameMessages(a, b)
    ensures Shape(MessageSegments(est, a)) == Shape(MessageSegments(est, b))
  {
    SameMessagesBlocks(a, b);
  }

  lemma {:induction false} LastMarkedConcat(a: seq<Segment>, b: seq<Segment>)
    ensures LastMarked(a + b) == if LastMarked(b) > 0 then |a| + LastMarked(b) else LastMarked(a)
  {
    var m := if LastMarked(b) > 0 then |a| + LastMarked(b) else LastMarked(a);
    assert forall i :: |a| <= i < |a| + |b| ==> (a + b)[i] == b[i - |a|];
    LastMarkedUnique(a + b, m);
  }

  /** The general step. Two forwarded bodies share the head; apart from markers their messages are `x` and
      `y`, which agree up to a cut; the first has no marker past the cut and the second is marked at least as
      far. Then the second follows the first: nothing the first cached is lost. */
  lemma {:induction false} SealedFollows(est: Estimator, a: Body, b: Body, x: seq<Message>, y: seq<Message>, cut: nat)
    requires a.tools == b.tools && a.system == b.system && cut <= |x| && cut <= |y| && x[..cut] == y[..cut]
    requires Shape(MessageSegments(est, a.messages)) == Shape(MessageSegments(est, x))
    requires Shape(MessageSegments(est, b.messages)) == Shape(MessageSegments(est, y))
    requires var m := LastMarked(MessageSegments(est, a.messages));
             m <= |MessageBlocks(x[..cut])| && m <= LastMarked(MessageSegments(est, b.messages))
    ensures var ra, rb := Flatten(est, a), Flatten(est, b);
            Last(ra) <= Last(rb) && Shape(ra)[..Last(ra)] == Shape(rb)[..Last(ra)]
  {
    SegmentsConcat(est, HeadBlocks(a), MessageBlocks(a.messages));
    SegmentsConcat(est, HeadBlocks(b), MessageBlocks(b.messages));
    ShapeOfCut(est, x, cut);
    ShapeOfCut(est, y, cut);
    var ma, mb, k := MessageSegments(est, a.messages), MessageSegments(est, b.messages), |MessageBlocks(x[..cut])|;
    assert |ma| == |Shape(ma)| && |mb| == |Shape(mb)|;
    SegmentsFollow(Segments(est, HeadBlocks(a)), ma, mb, k);
  }

  lemma {:induction false} SegmentsFollow(head: seq<Segment>, ma: seq<Segment>, mb: seq<Segment>, k: nat)
    requires LastMarked(ma) <= k <= |ma| && k <= |mb| && Shape(ma)[..k] == Shape(mb)[..k]
    requires LastMarked(ma) <= LastMarked(mb)
    ensures var ra, rb := Trim(head + ma), Trim(head + mb);
            Last(ra) <= Last(rb) && Shape(ra)[..Last(ra)] == Shape(rb)[..Last(ra)]
  {
    TrimmedSame(head + ma);
    TrimmedSame(head + mb);
    UntrimmedFollow(head, ma, mb, k);
  }

  lemma {:induction false} TrimmedSame(segs: seq<Segment>)
    ensures Last(Trim(segs)) == Last(segs) && Shape(Trim(segs)) == Shape(segs)
  {
    TrimKeepsLast(segs);
    TrimKeepsShape(segs);
  }

  lemma {:induction false} UntrimmedFollow(head: seq<Segment>, ma: seq<Segment>, mb: seq<Segment>, k: nat)
    requires LastMarked(ma) <= k <= |ma| && k <= |mb| && Shape(ma)[..k] == Shape(mb)[..k]
    requires LastMarked(ma) <= LastMarked(mb)
    ensures var sa, sb := head + ma, head + mb;
            Last(sa) <= Last(sb) && Shape(sa)[..Last(sa)] == Shape(sb)[..Last(sa)]
  {
    LastMarkedConcat(head, ma);
    LastMarkedConcat(head, mb);
    HeadShape(head, ma, k);
    HeadShape(head, mb, k);
    LastOrder(head + ma, head + mb, |head| + k);
  }

  lemma {:induction false} HeadShape(head: seq<Segment>, m: seq<Segment>, k: nat)
    requires k <= |m|
    ensures Shape(head + m)[..|head| + k] == Shape(head) + Shape(m)[..k]
  {
    ShapeConcat(head, m);
  }

  lemma {:induction false} CutShape(est: Estimator, a: seq<Message>, b: seq<Message>, cut: nat)
    requires cut <= |a| && cut <= |b| && SameMessages(a[..cut], b[..cut])
    ensures var k := |MessageBlocks(a[..cut])|;
            var ma, mb := MessageSegments(est, a), MessageSegments(est, b);
            k <= |ma| && k <= |mb| && Shape(ma)[..k] == Shape(mb)[..k]
  {
    SameShape(est, a[..cut], b[..cut]);
    ShapeOfCut(est, a, cut);
    ShapeOfCut(est, b, cut);
    assert |Shape(MessageSegments(est, a[..cut]))| == |Shape(MessageSegments(est, b[..cut]))|;
  }

  lemma {:induction false} ShapeOfCut(est: Estimator, ms: seq<Message>, cut: nat)
    requires cut <= |ms|
    ensures var k := |MessageBlocks(ms[..cut])|;
            k <= |MessageSegments(est, ms)|
            && Shape(MessageSegments(est, ms))[..k] == Shape(MessageSegments(est, ms[..cut]))
  {
    assert ms == ms[..cut] + ms[cut..];
    SegmentsOfConcat(est, ms[..cut], ms[cut..]);
    HeadOfShape(MessageSegments(est, ms[..cut]), MessageSegments(est, ms[cut..]));
  }

  lemma {:induction false} HeadOfShape(x: seq<Segment>, y: seq<Segment>)
    ensures Shape(x + y)[..|x|] == Shape(x)
  {
  }

  lemma {:induction false} LastOrder(sa: seq<Segment>, sb: seq<Segment>, n: nat)
    requires LastMarked(sa) <= n <= |sa| && n <= |sb| && Shape(sa)[..n] == Shape(sb)[..n]
    requires LastMarked(sa) <= LastMarked(sb)
    ensures Last(sa) <= Last(sb) && Last(sa) <= n && Shape(sa)[..Last(sa)] == Shape(sb)[..Last(sa)]
  {
    LastIsLastMarked(sa);
    LastIsLastMarked(sb);
    var l := LastMarked(sa);
    assert Shape(sa)[..l] == Shape(sa)[..n][..l];
    assert Shape(sb)[..l] == Shape(sb)[..n][..l];
    UptoOfShape(sa, sb, l);
    UptoGrows(sb, l, LastMarked(sb));
  }

  // ---- Where a marked place lands ----

  /** The segment (counting from one) of a place, among the message segments. */
  function SegmentAt(ms: seq<Message>, p: Place): nat
    requires Editable(ms, p)
  {
    |MessageBlocks(ms[..p.message])| + p.block + 1
  }

  lemma {:induction false} PlaceSegment(est: Estimator, ms: seq<Message>, p: Place)
    requires Editable(ms, p)
    ensures var s := MessageSegments(est, ms);
            SegmentAt(ms, p) <= |s| && (s[SegmentAt(ms, p) - 1].ttl.Some? <==> Marked(BlockAt(ms, p)))
    ensures Marked(BlockAt(ms, p)) ==>
      MessageSegments(est, ms)[SegmentAt(ms, p) - 1].ttl.value == MarkerTtl(Get(BlockAt(ms, p), CacheControl))
    ensures SegmentAt(ms, p) <= |MessageBlocks(ms[..p.message + 1])|
  {
    BlockIndex(ms, p);
  }

  lemma {:induction false} BlockIndex(ms: seq<Message>, p: Place)
    requires Editable(ms, p)
    ensures SegmentAt(ms, p) <= |MessageBlocks(ms)| && SegmentAt(ms, p) <= |MessageBlocks(ms[..p.message + 1])|
    ensures MessageBlocks(ms)[SegmentAt(ms, p) - 1] == Digest(ms[p.message].role, BlockAt(ms, p))
  {
    BlocksAround(ms, p.message);
    var m := ms[p.message];
    assert ContentBlocks(m.role, m.content)[p.block] == Digest(m.role, BlockAt(ms, p));
  }

  /** Later messages land later. */
  lemma {:induction false} BlocksGrow(ms: seq<Message>, i: nat, j: nat)
    requires i <= j <= |ms|
    ensures |MessageBlocks(ms[..i])| <= |MessageBlocks(ms[..j])|
  {
    assert ms[..j] == ms[..i] + ms[i..j];
    MessageBlocksConcat(ms[..i], ms[i..j]);
  }

  // ---- Both placements seal in front of the cut ----

  lemma {:induction false} BaseWellFormed(ms: seq<Message>, last: nat)
    ensures WellFormedMessages(Base(ms, last))
    ensures CleanMessages(Base(ms, last)) == Base(ms, last)
  {
    var stripped := StripExcept(ms, last);
    CleanedWellFormed(stripped);
    forall i | 0 <= i < |ms| ensures CleanMessages(Base(ms, last))[i] == Base(ms, last)[i] {
      CleanTwice(stripped[i].content);
    }
  }

  lemma {:induction false} CleanTwice(c: Content)
    ensures Clean(Clean(c)) == Clean(c)
  {
    match c
    case Absent =>
    case Text(text) =>
      var b := TextBlock(text);
      assert b.fields - {CacheControl} == b.fields;
      assert UnmarkAll([b]) == [b];
    case Blocks(blocks) =>
      forall i | 0 <= i < |blocks| ensures UnmarkAll(UnmarkAll(blocks))[i] == UnmarkAll(blocks)[i] {
        UnmarkIdempotent(blocks[i]);
      }
  }

  lemma {:induction false} BaseUnmarked(est: Estimator, ms: seq<Message>, last: nat)
    ensures LastMarked(MessageSegments(est, Base(ms, last))) == 0
  {
    CleanUnmarked(est, StripExcept(ms, last));
    LastMarkedUnique(MessageSegments(est, Base(ms, last)), 0);
  }

  lemma {:induction false} LastMarkedUpdate(s: seq<Segment>, s': seq<Segment>, at: nat)
    requires 0 < at <= |s| == |s'| && s'[at - 1].ttl.Some?
    requires forall i :: 0 <= i < |s| && i != at - 1 ==> s'[i] == s[i]
    ensures LastMarked(s') == if LastMarked(s) < at then at else LastMarked(s)
  {
    LastMarkedUnique(s', if LastMarked(s) < at then at else LastMarked(s));
  }

  /** Every message marker asks for an hour. */
  ghost predicate HourOnly(segs: seq<Segment>) {
    forall i :: 0 <= i < |segs| && segs[i].ttl.Some? ==> segs[i].ttl.value == "1h"
  }

  /** Writing a marker moves the last marker to its place, if that is further on. */
  lemma {:induction false} MarkAtLast(est: Estimator, ms: seq<Message>, p: Place)
    requires Editable(ms, p)
    ensures var before, at := LastMarked(MessageSegments(est, ms)), SegmentAt(ms, p);
            LastMarked(MessageSegments(est, MarkAt(ms, p, Ephemeral("1h")))) == if before < at then at else before
    ensures HourOnly(MessageSegments(est, ms)) ==> HourOnly(MessageSegments(est, MarkAt(ms, p, Ephemeral("1h"))))
  {
    var s, s', at := MarkedSegments(est, ms, p);
    LastMarkedUpdate(s, s', at);
    HourUpdate(s, s', at);
  }

  lemma {:induction false} HourUpdate(s: seq<Segment>, s': seq<Segment>, at: nat)
    requires 0 < at <= |s| == |s'| && s'[at - 1].ttl == Some("1h")
    requires forall i :: 0 <= i < |s| && i != at - 1 ==> s'[i] == s[i]
    ensures HourOnly(s) ==> HourOnly(s')
  {
  }

  lemma {:induction false} MarkedSegments(est: Estimator, ms: seq<Message>, p: Place)
    returns (s: seq<Segment>, s': seq<Segment>, at: nat)
    requires Editable(ms, p)
    ensures s == MessageSegments(est, ms) && s' == MessageSegments(est, MarkAt(ms, p, Ephemeral("1h")))
    ensures at == SegmentAt(ms, p) && 0 < at <= |s| == |s'| && s'[at - 1].ttl == Some("1h")
    ensures forall i :: 0 <= i < |s| && i != at - 1 ==> s'[i] == s[i]
  {
    var ms' := MarkAt(ms, p, Ephemeral("1h"));
    s, s', at := MessageSegments(est, ms), MessageSegments(est, ms'), SegmentAt(ms, p);
    OthersKept(est, ms, p, Ephemeral("1h"));
    assert ms'[..p.message] == ms[..p.message];
    PlaceSegment(est, ms', p);
  }

  /** Only the marked segment changes. */
  lemma {:induction false} OthersKept(est: Estimator, ms: seq<Message>, p: Place, control: Json)
    requires Editable(ms, p) && control.Obj?
    ensures var s, s', at := MessageSegments(est, ms), MessageSegments(est, MarkAt(ms, p, control)), SegmentAt(ms, p);
            |s| == |s'| && forall i :: 0 <= i < |s| && i != at - 1 ==> s'[i] == s[i]
  {
    var ms', i := MarkAt(ms, p, control), p.message;
    assert ms'[..i] == ms[..i] && ms'[i + 1..] == ms[i + 1..];
    BlocksAround(ms, i);
    BlocksAround(ms', i);
    var before, after := MessageBlocks(ms[..i]), MessageBlocks(ms[i + 1..]);
    var tag, tag' := Tag(ms[i].role, ms[i].content.blocks), Tag(ms[i].role, ms'[i].content.blocks);
    assert forall j :: 0 <= j < |tag| && j != p.block ==> tag'[j] == tag[j];
    SameElsewhere(est, before, tag, tag', after, p.block);
  }

  lemma {:induction false} SameElsewhere(est: Estimator, before: seq<Digest>, a: seq<Digest>, b: seq<Digest>,
                                         after: seq<Digest>, at: nat)
    requires |a| == |b| && at < |a| && forall j :: 0 <= j < |a| && j != at ==> b[j] == a[j]
    ensures var s, s' := Segments(est, before + a + after), Segments(est, before + b + after);
            |s| == |s'| && forall i :: 0 <= i < |s| && i != |before| + at ==> s'[i] == s[i]
  {
    var p, q := before + a + after, before + b + after;
    assert forall i :: 0 <= i < |p| && i != |before| + at ==> q[i] == p[i];
  }

  // ---- One marker in front of the cut ----

  /** Base plus hour-long markers, the last of them at segment `m`. */
  ghost predicate MarkedUpTo(est: Estimator, base: seq<Message>, r: seq<Message>, m: nat) {
    && CleanMessages(r) == base
    && Shape(MessageSegments(est, r)) == Shape(MessageSegments(est, base))
    && HourOnly(MessageSegments(est, r)) && LastMarked(MessageSegments(est, r)) == m
  }

  /** What both placements promise about the messages they forward: base plus hour-long markers, the last of
      them at segment `at`, all in front of the cut. */
  ghost predicate Sealed(est: Estimator, base: seq<Message>, out: seq<Message>, cut: nat, at: nat) {
    && cut <= |base|
    && MarkedUpTo(est, base, out, at)
    && at <= |MessageBlocks(base[..cut])|
  }

  function SafeAt(base: seq<Message>, cut: nat): nat
    requires cut <= |base|
  {
    match SealBefore(base, cut) case None => 0 case Some(i) => SegmentAt(base, EndOf(base, i))
  }

  lemma {:induction false} BaseHourOnly(est: Estimator, ms: seq<Message>, last: nat)
    ensures HourOnly(MessageSegments(est, Base(ms, last)))
  {
    CleanUnmarked(est, StripExcept(ms, last));
  }

  lemma {:induction false} SafeSealed(est: Estimator, body: Body)
    requires Newest(body).Some?
    ensures var last := Newest(body).value;
            var base := Base(body.messages, last);
            Sealed(est, base, SafeMarks(body).messages, last, SafeAt(base, last))
  {
    var last := Newest(body).value;
    var base := Base(body.messages, last);
    BaseUnmarked(est, body.messages, last);
    BaseHourOnly(est, body.messages, last);
    BaseWellFormed(body.messages, last);
    SealOne(est, base, last);
  }

  lemma {:induction false} SealOne(est: Estimator, base: seq<Message>, cut: nat)
    requires cut <= |base| && MarkedUpTo(est, base, base, 0)
    ensures Sealed(est, base, MarkLastBefore(base, cut), cut, SafeAt(base, cut))
  {
    match SealBefore(base, cut)
    case None =>
    case Some(i) =>
      var p := EndOf(base, i);
      var _ := SealedStep(est, base, base, p, 0);
      BlockIndex(base, p);
      BlocksGrow(base, i + 1, cut);
  }

  /** The seal never moves back. */
  lemma {:induction false} SafeAtGrows(a: seq<Message>, b: seq<Message>, ca: nat, cb: nat)
    requires ca <= cb <= |b| && ca <= |a| && a[..ca] == b[..ca]
    ensures SafeAt(a, ca) <= SafeAt(b, cb)
  {
    var i := SealBefore(a, ca);
    if i.Some? {
      SamePrefix(a, b, ca, i.value);
      assert Sealable(b[i.value]);
      var j := SealBefore(b, cb).value;
      SealIsEnd(a, i.value);
      SealIsEnd(b, j);
      BlocksGrow(b, i.value + 1, j + 1);
    }
  }

  lemma {:induction false} SamePrefix(a: seq<Message>, b: seq<Message>, n: nat, i: nat)
    requires i < n <= |a| && n <= |b| && a[..n] == b[..n]
    ensures a[i] == b[i] && a[..i + 1] == b[..i + 1]
  {
    assert a[i] == a[..n][i] && b[i] == b[..n][i];
    assert a[..i + 1] == a[..n][..i + 1] && b[..i + 1] == b[..n][..i + 1];
  }

  lemma {:induction false} SealIsEnd(ms: seq<Message>, i: nat)
    requires i < |ms| && Sealable(ms[i])
    ensures SegmentAt(ms, EndOf(ms, i)) == |MessageBlocks(ms[..i + 1])|
  {
    var m := ms[i];
    assert ms[..i + 1] == ms[..i] + [m];
    MessageBlocksConcat(ms[..i], [m]);
    assert [m][1..] == [];
    assert MessageBlocks([m]) == Tag(m.role, m.content.blocks) + [];
  }

  // ---- The whole budget in front of the cut ----

  function SpreadAt(base: seq<Message>, cut: nat): nat
    requires cut <= |base|
  {
    var places := Places(base, cut);
    PlacesBeforeEditable(base, cut);
    if places == [] then 0 else SegmentAt(base, places[|places| - 1])
  }

  predicate Ahead(p: Place, q: Place) { p.message < q.message || (p.message == q.message && p.block < q.block) }

  lemma {:induction false} PlacesInOrder(blocks: seq<Json>, message: nat, n: nat, k: nat, l: nat)
    requires n <= |blocks| && k < l < |PlacesIn(blocks, message, n)|
    ensures Ahead(PlacesIn(blocks, message, n)[k], PlacesIn(blocks, message, n)[l])
  {
    if l < |PlacesIn(blocks, message, n - 1)| {
      PlacesInOrder(blocks, message, n - 1, k, l);
    } else {
      PlacesInEditable(blocks, message, n - 1, k);
    }
  }

  lemma {:induction false} PlacesOrder(ms: seq<Message>, n: nat, k: nat, l: nat)
    requires n <= |ms| && k < l < |Places(ms, n)|
    ensures Ahead(Places(ms, n)[k], Places(ms, n)[l])
  {
    var before := |Places(ms, n - 1)|;
    if l < before {
      PlacesOrder(ms, n - 1, k, l);
    } else {
      var blocks := ms[n - 1].content.blocks;
      PlacesInEditable(blocks, n - 1, |blocks|, l - before);
      if k < before {
        PlacesEditable(ms, n - 1, k);
      } else {
        PlacesInOrder(blocks, n - 1, |blocks|, k - before, l - before);
      }
    }
  }

  lemma {:induction false} AheadSegment(est: Estimator, ms: seq<Message>, p: Place, q: Place)
    requires Editable(ms, p) && Editable(ms, q) && Ahead(p, q)
    ensures SegmentAt(ms, p) < SegmentAt(ms, q)
  {
    if p.message < q.message {
      PlaceSegment(est, ms, p);
      BlocksGrow(ms, p.message + 1, q.message);
    }
  }

  /** The listed places are all among the first `end` segments, and the last of them is segment `end`. */
  ghost predicate Reaches(base: seq<Message>, places: seq<Place>, end: nat) {
    && (forall k :: 0 <= k < |places| ==> WithinEnd(base, places[k], end))
    && (if places == [] then end == 0 else AtEnd(base, places[|places| - 1], end))
  }

  ghost predicate WithinEnd(base: seq<Message>, p: Place, end: nat) { Editable(base, p) && SegmentAt(base, p) <= end }

  ghost predicate AtEnd(base: seq<Message>, p: Place, end: nat) { Editable(base, p) && SegmentAt(base, p) == end }

  lemma {:induction false} SpreadReaches(est: Estimator, base: seq<Message>, cut: nat)
    requires cut <= |base|
    ensures Reaches(base, Places(base, cut), SpreadAt(base, cut))
  {
    var places := Places(base, cut);
    forall k | 0 <= k < |places| ensures WithinEnd(base, places[k], SpreadAt(base, cut)) {
      LastPlaceFurthest(est, base, cut, k);
    }
    if places != [] {
      LastPlaceFurthest(est, base, cut, |places| - 1);
    }
  }

  lemma {:induction false} NextSealed(est: Estimator, base: seq<Message>, places: seq<Place>, end: nat,
                                      before: seq<Message>, back: nat, m: nat)
    requires Reaches(base, places, end) && AllEditable(before, places)
    requires MarkedUpTo(est, base, before, m) && (back == 0 || m == end) && m <= end
    ensures MarkedUpTo(est, base, MarkNext(before, places, back), end)
  {
    if back < |places| {
      var p := places[|places| - 1 - back];
      assert WithinEnd(base, p, end) && (back == 0 ==> AtEnd(base, p, end));
      PlaceSealed(est, base, before, places, back, p, m, end);
    }
  }

  lemma {:induction false} PlaceSealed(est: Estimator, base: seq<Message>, before: seq<Message>, places: seq<Place>,
                                       back: nat, p: Place, m: nat, end: nat)
    requires AllEditable(before, places) && back < |places| && p == places[|places| - 1 - back]
    requires WithinEnd(base, p, end) && MarkedUpTo(est, base, before, m)
    requires m <= end && (m == end || AtEnd(base, p, end))
    ensures MarkedUpTo(est, base, MarkNext(before, places, back), end)
  {
    assert Editable(before, p);
    var r := SealedStep(est, base, before, p, m);
    assert r == MarkNext(before, places, back);
  }

  lemma {:induction false} MarkBacksSealed(est: Estimator, base: seq<Message>, places: seq<Place>, end: nat,
                                           backs: seq<nat>)
    requires backs != [] && backs[0] == 0 && Reaches(base, places, end)
    requires AllEditable(base, places) && MarkedUpTo(est, base, base, 0)
    ensures MarkedUpTo(est, base, MarkBacks(base, places, backs, |backs|), end)
  {
    var inv := (r: seq<Message>, j: nat) => MarkedUpTo(est, base, r, if j == 0 then 0 else end);
    forall before: seq<Message>, j: nat | j < |backs| && AllEditable(before, places) && inv(before, j)
      ensures inv(MarkNext(before, places, backs[j]), j + 1)
    {
      NextSealed(est, base, places, end, before, backs[j], if j == 0 then 0 else end);
    }
    MarkBacksInduction(base, places, backs, |backs|, inv);
  }

  lemma {:induction false} SealedStep(est: Estimator, base: seq<Message>, before: seq<Message>, p: Place, m: nat)
    returns (r: seq<Message>)
    requires Editable(base, p) && Editable(before, p) && MarkedUpTo(est, base, before, m)
    ensures r == MarkAt(before, p, Ephemeral("1h"))
    ensures var at := SegmentAt(base, p); MarkedUpTo(est, base, r, if m < at then at else m)
  {
    r := MarkAt(before, p, Ephemeral("1h"));
    WellFormedAt(est, before, p);
    MarkKeepsShape(est, before, p);
    CleanAfterMark(before, p, Ephemeral("1h"));
    MarkAtLast(est, before, p);
    SegmentAtSame(before, p);
  }

  lemma {:induction false} LastPlaceFurthest(est: Estimator, base: seq<Message>, cut: nat, k: nat)
    requires cut <= |base| && k < |Places(base, cut)|
    ensures Editable(base, Places(base, cut)[k])
    ensures 0 < SegmentAt(base, Places(base, cut)[k]) <= SpreadAt(base, cut)
    ensures k == |Places(base, cut)| - 1 ==> SegmentAt(base, Places(base, cut)[k]) == SpreadAt(base, cut)
  {
    var places := Places(base, cut);
    PlacesEditable(base, cut, k);
    PlacesEditable(base, cut, |places| - 1);
    if k < |places| - 1 {
      PlacesOrder(base, cut, k, |places| - 1);
      AheadSegment(est, base, places[k], places[|places| - 1]);
    }
  }

  /** A block that hashes like its cleared form carries a marker or nothing under `cache_control`. */
  lemma {:induction false} WellFormedAt(est: Estimator, ms: seq<Message>, p: Place)
    requires Editable(ms, p) && Editable(CleanMessages(ms), p)
    requires Shape(MessageSegments(est, ms)) == Shape(MessageSegments(est, CleanMessages(ms)))
    ensures WellFormed(BlockAt(ms, p))
  {
    var clean, at := CleanMessages(ms), SegmentAt(ms, p) - 1;
    SegmentAtSame(ms, p);
    BareAt(est, ms, p);
    BareAt(est, clean, p);
    assert BlockAt(clean, p) == Unmark(BlockAt(ms, p)) by {
      assert clean[p.message] == CleanMessage(ms[p.message]);
    }
    UnmarkInvisible(BlockAt(ms, p));
  }

  lemma {:induction false} BareAt(est: Estimator, ms: seq<Message>, p: Place)
    requires Editable(ms, p)
    ensures var s, at := Shape(MessageSegments(est, ms)), SegmentAt(ms, p);
            at <= |s| && s[at - 1].digest.block == Bare(BlockAt(ms, p))
  {
    BlockIndex(ms, p);
  }

  lemma {:induction false} MarkKeepsShape(est: Estimator, ms: seq<Message>, p: Place)
    requires Editable(ms, p) && WellFormed(BlockAt(ms, p))
    ensures Shape(MessageSegments(est, MarkAt(ms, p, Ephemeral("1h")))) == Shape(MessageSegments(est, ms))
  {
    var s, s', at := MarkedSegments(est, ms, p);
    MarkedPlainly(est, ms, p);
    ShapeUpdate(s, s', at);
  }

  lemma {:induction false} ShapeUpdate(s: seq<Segment>, s': seq<Segment>, at: nat)
    requires 0 < at <= |s| == |s'| && Plainly(s'[at - 1]) == Plainly(s[at - 1])
    requires forall i :: 0 <= i < |s| && i != at - 1 ==> s'[i] == s[i]
    ensures Shape(s') == Shape(s)
  {
  }

  lemma {:induction false} MarkedPlainly(est: Estimator, ms: seq<Message>, p: Place)
    requires Editable(ms, p) && WellFormed(BlockAt(ms, p))
    ensures var s, s' := MessageSegments(est, ms), MessageSegments(est, MarkAt(ms, p, Ephemeral("1h")));
            var at := SegmentAt(ms, p);
            at <= |s| && at <= |s'| && Plainly(s'[at - 1]) == Plainly(s[at - 1])
  {
    var ms' := MarkAt(ms, p, Ephemeral("1h"));
    BlockIndex(ms, p);
    assert ms'[..p.message] == ms[..p.message];
    BlockIndex(ms', p);
    MarkInvisible(BlockAt(ms, p), Ephemeral("1h"));
  }

  /** Writing a marker is undone by clearing the markers. */
  lemma {:induction false} CleanAfterMark(ms: seq<Message>, p: Place, control: Json)
    requires Editable(ms, p)
    ensures CleanMessages(MarkAt(ms, p, control)) == CleanMessages(ms)
  {
    var ms' := MarkAt(ms, p, control);
    UnmarkMark(BlockAt(ms, p), control);
    forall i | 0 <= i < |ms| ensures CleanMessage(ms'[i]) == CleanMessage(ms[i]) {
      if i == p.message {
        assert UnmarkAll(ms'[i].content.blocks) == UnmarkAll(ms[i].content.blocks);
      }
    }
  }

  lemma {:induction false} CleanKeepsLength(ms: seq<Message>)
    ensures |MessageBlocks(CleanMessages(ms))| == |MessageBlocks(ms)|
  {
    if ms != [] {
      var cleaned := CleanMessages(ms);
      assert cleaned[1..] == CleanMessages(ms[1..]);
      assert cleaned[0] == CleanMessage(ms[0]);
      CleanKeepsLength(ms[1..]);
    }
  }

  lemma {:induction false} SegmentAtSame(ms: seq<Message>, p: Place)
    requires Editable(ms, p) && Editable(CleanMessages(ms), p)
    ensures SegmentAt(CleanMessages(ms), p) == SegmentAt(ms, p)
  {
    assert CleanMessages(ms)[..p.message] == CleanMessages(ms[..p.message]);
    CleanKeepsLength(ms[..p.message]);
  }

  lemma {:induction false} BudgetPositive(system: Content)
    ensures Budget(system) >= 1
  {
  }

  lemma {:induction false} SpreadSealed(est: Estimator, body: Body)
    requires Newest(body).Some?
    ensures var last := Newest(body).value;
            var base := Base(body.messages, last);
            Sealed(est, base, SpreadMarks(body).messages, last, SpreadAt(base, last))
  {
    var last := Newest(body).value;
    var base := Base(body.messages, last);
    BaseUnmarked(est, body.messages, last);
    BaseHourOnly(est, body.messages, last);
    BaseWellFormed(body.messages, last);
    BudgetPositive(body.system);
    var places, budget := Places(base, last), Budget(body.system);
    var backs := Backs(|places|, budget);
    assert backs[0] == Back(0, |places|, budget) == 0;
    PlacesBeforeEditable(base, last);
    SpreadReaches(est, base, last);
    MarkBacksSealed(est, base, places, SpreadAt(base, last), backs);
    SpreadWithin(est, base, last);
  }

  lemma {:induction false} SpreadWithin(est: Estimator, base: seq<Message>, cut: nat)
    requires cut <= |base|
    ensures SpreadAt(base, cut) <= |MessageBlocks(base[..cut])|
  {
    var places := Places(base, cut);
    if places != [] {
      var p := places[|places| - 1];
      PlacesEditable(base, cut, |places| - 1);
      PlaceSegment(est, base, p);
      BlocksGrow(base, p.message + 1, cut);
    }
  }

  lemma {:induction false} PlacesOfSame(a: seq<Message>, b: seq<Message>, n: nat)
    requires n <= |a| && n <= |b| && a[..n] == b[..n]
    ensures Places(a, n) == Places(b, n)
  {
    if n > 0 {
      assert a[..n - 1] == a[..n][..n - 1] == b[..n][..n - 1] == b[..n - 1];
      assert a[n - 1] == a[..n][n - 1] == b[n - 1];
      PlacesOfSame(a, b, n - 1);
    }
  }

  lemma {:induction false} PlacesGrow(ms: seq<Message>, m: nat, n: nat)
    requires m <= n <= |ms|
    ensures Places(ms, m) <= Places(ms, n)
  {
    if m < n {
      PlacesGrow(ms, m, n - 1);
    }
  }

  lemma {:induction false} SpreadAtGrows(est: Estimator, a: seq<Message>, b: seq<Message>, ca: nat, cb: nat)
    requires ca <= cb <= |b| && ca <= |a| && a[..ca] == b[..ca]
    ensures SpreadAt(a, ca) <= SpreadAt(b, cb)
  {
    var pa := Places(a, ca);
    if pa != [] {
      var k := |pa| - 1;
      PlacesOfSame(a, b, ca);
      PlacesGrow(b, ca, cb);
      LastPlaceFurthest(est, a, ca, k);
      LastPlaceFurthest(est, b, cb, k);
      var p := pa[k];
      assert p == Places(b, cb)[k];
      PlacesEditable(a, ca, k);
      assert a[..p.message] == a[..ca][..p.message] == b[..p.message];
    }
  }
}
