/** What `flatten` makes of a body, block by block, stated without the functions that compute it. */
module FlattenLaws {
  import opened Wire
  import opened Flattening

  /** The blocks a content holds; a string is one text block. */
  function Items(content: Content): seq<Json> {
    match content
    case Absent => []
    case Text(text) => [Obj(map[Type := Str("text"), TextField := Str(text)])]
    case Blocks(blocks) => blocks
  }

  function CountItems(ms: seq<Message>, n: nat): nat
    requires n <= |ms|
  {
    if n == 0 then 0 else CountItems(ms, n - 1) + |Items(ms[n - 1].content)|
  }

  /** A marker is an object under `cache_control`. */
  predicate HoldsMarker(block: Json) {
    block.Obj? && CacheControl in block.fields && block.fields[CacheControl].Obj?
  }

  function WithoutMarker(block: Json): Json {
    if HoldsMarker(block) then Obj(block.fields - {CacheControl}) else block
  }

  /** The tier a marker asks for: its own if it names one, five minutes if not. */
  function TierAsked(block: Json): Option<string> {
    if !HoldsMarker(block) then None
    else
      var marker := block.fields[CacheControl].fields;
      if Ttl in marker && marker[Ttl].Str? && marker[Ttl].s != "" then Some(marker[Ttl].s) else Some("5m")
  }

  /** Role and block go into the digest, without the marker; tokens are estimated on the same, at least one. */
  ghost predicate SegmentIs(est: Estimator, s: Segment, role: string, block: Json) {
    && s.digest == Digest(role, WithoutMarker(block))
    && s.tokens == (if est(WithoutMarker(block)) < 1 then 1 else est(WithoutMarker(block)))
    && (s.ttl == None || s.ttl == TierAsked(block))
  }

  /** And the tier is what was asked for, if no more than four markers were or an earlier one survived too. */
  ghost predicate TierIs(est: Estimator, body: Body, i: nat, block: Json)
    requires i < |Flatten(est, body)|
  {
    (MarkersAsked(body) <= 4 || exists j :: 0 <= j < i && Flatten(est, body)[j].ttl.Some?) ==>
      Flatten(est, body)[i].ttl == TierAsked(block)
  }

  lemma {:induction false} OneSegment(est: Estimator, role: string, block: Json)
    ensures SegmentIs(est, SegmentOf(est, Digest(role, block)), role, block)
    ensures SegmentOf(est, Digest(role, block)).ttl == TierAsked(block)
  {
  }

  lemma {:induction false} ItemsTagged(role: string, content: Content, k: nat)
    requires k < |Items(content)|
    ensures |ContentBlocks(role, content)| == |Items(content)|
    ensures ContentBlocks(role, content)[k] == Digest(role, Items(content)[k])
  {
  }

  lemma {:induction false} ItemsCounted(role: string, content: Content)
    ensures |ContentBlocks(role, content)| == |Items(content)|
  {
  }

  lemma {:induction false} BlocksCounted(ms: seq<Message>, n: nat)
    requires n <= |ms|
    ensures |MessageBlocks(ms[..n])| == CountItems(ms, n)
  {
    if n > 0 {
      BlocksCounted(ms, n - 1);
      assert ms[..n] == ms[..n - 1] + [ms[n - 1]];
      MessageBlocksConcat(ms[..n - 1], [ms[n - 1]]);
      OneMessage(ms[n - 1]);
      ItemsCounted(ms[n - 1].role, ms[n - 1].content);
    }
  }

  /** Neither more nor less than the blocks of tools, system and messages. */
  lemma {:induction false} AllAreThere(est: Estimator, body: Body)
    ensures |Flatten(est, body)| == |body.tools| + |Items(body.system)| + CountItems(body.messages, |body.messages|)
  {
    ItemsCounted("system", body.system);
    BlocksCounted(body.messages, |body.messages|);
    assert body.messages[..|body.messages|] == body.messages;
  }

  function CountHeld(blocks: seq<Json>): nat {
    if blocks == [] then 0 else CountHeld(blocks[1..]) + if HoldsMarker(blocks[0]) then 1 else 0
  }

  function HeldIn(ms: seq<Message>, n: nat): nat
    requires n <= |ms|
  {
    if n == 0 then 0 else HeldIn(ms, n - 1) + CountHeld(Items(ms[n - 1].content))
  }

  /** How many markers a body asks for. */
  function MarkersAsked(body: Body): nat {
    CountHeld(body.tools) + CountHeld(Items(body.system)) + HeldIn(body.messages, |body.messages|)
  }

  lemma {:induction false} HeldTagged(est: Estimator, role: string, blocks: seq<Json>)
    ensures CountMarked(Segments(est, Tag(role, blocks))) == CountHeld(blocks)
  {
    if blocks != [] {
      var s := Segments(est, Tag(role, blocks));
      HeldTagged(est, role, blocks[1..]);
      assert s[1..] == Segments(est, Tag(role, blocks[1..]));
      OneSegment(est, role, blocks[0]);
      assert s[0] == SegmentOf(est, Digest(role, blocks[0]));
    }
  }

  lemma {:induction false} HeldContent(est: Estimator, role: string, content: Content)
    ensures CountMarked(Segments(est, ContentBlocks(role, content))) == CountHeld(Items(content))
  {
    HeldTagged(est, role, Items(content));
    assert ContentBlocks(role, content) == Tag(role, Items(content));
  }

  lemma {:induction false} HeldMessages(est: Estimator, ms: seq<Message>, n: nat)
    requires n <= |ms|
    ensures CountMarked(Segments(est, MessageBlocks(ms[..n]))) == HeldIn(ms, n)
  {
    if n > 0 {
      var before, m := ms[..n - 1], ms[n - 1];
      HeldMessages(est, ms, n - 1);
      assert ms[..n] == before + [m];
      MessageBlocksConcat(before, [m]);
      OneMessage(m);
      HeldContent(est, m.role, m.content);
      CountOfConcat(est, MessageBlocks(before), ContentBlocks(m.role, m.content));
    }
  }

  lemma {:induction false} CountOfConcat(est: Estimator, a: seq<Digest>, b: seq<Digest>)
    ensures CountMarked(Segments(est, a + b)) == CountMarked(Segments(est, a)) + CountMarked(Segments(est, b))
  {
    SegmentsConcat(est, a, b);
    CountMarkedConcat(Segments(est, a), Segments(est, b));
  }

  lemma {:induction false} AskedIsMarked(est: Estimator, body: Body)
    ensures CountMarked(Segments(est, AllBlocks(body))) == MarkersAsked(body)
  {
    var tools, system := Tag("tools", body.tools), ContentBlocks("system", body.system);
    HeldTagged(est, "tools", body.tools);
    HeldContent(est, "system", body.system);
    HeldMessages(est, body.messages, |body.messages|);
    assert body.messages[..|body.messages|] == body.messages;
    CountOfConcat(est, tools + system, MessageBlocks(body.messages));
    CountOfConcat(est, tools, system);
  }

  /** Four markers survive, or as many as were asked for. */
  lemma {:induction false} FourSurvive(est: Estimator, body: Body)
    ensures CountMarked(Flatten(est, body)) == if MarkersAsked(body) > 4 then 4 else MarkersAsked(body)
  {
    AskedIsMarked(est, body);
    TrimBudget(Segments(est, AllBlocks(body)));
  }

  lemma {:induction false} CountShrinks(segs: seq<Segment>, i: nat, j: nat)
    requires i <= j <= |segs|
    ensures CountMarked(segs[j..]) <= CountMarked(segs[i..])
  {
    assert segs[i..] == segs[i..j] + segs[j..];
    CountMarkedConcat(segs[i..j], segs[j..]);
  }

  lemma {:induction false} Survives(est: Estimator, body: Body, i: nat, role: string, block: Json)
    requires i < |AllBlocks(body)| && AllBlocks(body)[i] == Digest(role, block)
    ensures |Flatten(est, body)| == |AllBlocks(body)| && SegmentIs(est, Flatten(est, body)[i], role, block)
    ensures MarkersAsked(body) <= 4 ==> Flatten(est, body)[i].ttl == TierAsked(block)
    ensures forall j :: 0 <= j < i && Flatten(est, body)[j].ttl.Some? ==> Flatten(est, body)[i].ttl == TierAsked(block)
  {
    var raw := Segments(est, AllBlocks(body));
    OneSegment(est, role, block);
    assert raw[i] == SegmentOf(est, Digest(role, block));
    AskedIsMarked(est, body);
    if CountMarked(raw) <= 4 {
      TrimWithinBudget(raw);
    }
    forall j | 0 <= j < i && Flatten(est, body)[j].ttl.Some? ensures Flatten(est, body)[i].ttl == TierAsked(block) {
      CountShrinks(raw, j, i);
    }
  }

  /** First the tools, in order. */
  lemma {:induction false} ToolSegment(est: Estimator, body: Body, k: nat)
    requires k < |body.tools|
    ensures k < |Flatten(est, body)| && SegmentIs(est, Flatten(est, body)[k], "tools", body.tools[k])
    ensures TierIs(est, body, k, body.tools[k])
  {
    assert AllBlocks(body)[k] == Digest("tools", body.tools[k]);
    Survives(est, body, k, "tools", body.tools[k]);
  }

  /** Then the system. */
  lemma {:induction false} SystemSegment(est: Estimator, body: Body, k: nat) returns (at: nat)
    requires k < |Items(body.system)|
    ensures at == |body.tools| + k && at < |Flatten(est, body)|
    ensures SegmentIs(est, Flatten(est, body)[at], "system", Items(body.system)[k])
    ensures TierIs(est, body, at, Items(body.system)[k])
  {
    at := |body.tools| + k;
    ItemsTagged("system", body.system, k);
    assert AllBlocks(body)[at] == Digest("system", Items(body.system)[k]);
    Survives(est, body, at, "system", Items(body.system)[k]);
  }

  lemma {:induction false} MessageItem(ms: seq<Message>, m: nat, k: nat)
    requires m < |ms| && k < |Items(ms[m].content)|
    ensures CountItems(ms, m) + k < |MessageBlocks(ms)|
    ensures MessageBlocks(ms)[CountItems(ms, m) + k] == Digest(ms[m].role, Items(ms[m].content)[k])
  {
    BlocksAround(ms, m);
    BlocksCounted(ms, m);
    ItemsTagged(ms[m].role, ms[m].content, k);
    var mid := ContentBlocks(ms[m].role, ms[m].content);
    InTheMiddle(MessageBlocks(ms[..m]), mid, MessageBlocks(ms[m + 1..]), k);
  }

  lemma {:induction false} InTheMiddle(a: seq<Digest>, b: seq<Digest>, c: seq<Digest>, k: nat)
    requires k < |b|
    ensures (a + b + c)[|a| + k] == b[k]
  {
  }

  lemma {:induction false} BehindTheHead(body: Body, i: nat)
    requires i < |MessageBlocks(body.messages)|
    ensures var at := |body.tools| + |Items(body.system)| + i;
            at < |AllBlocks(body)| && AllBlocks(body)[at] == MessageBlocks(body.messages)[i]
  {
    ItemsCounted("system", body.system);
  }

  /** Then the messages, each block under its message's role. */
  lemma {:induction false} MessageSegment(est: Estimator, body: Body, m: nat, k: nat) returns (at: nat, block: Json)
    requires m < |body.messages| && k < |Items(body.messages[m].content)|
    ensures at == |body.tools| + |Items(body.system)| + CountItems(body.messages, m) + k && at < |Flatten(est, body)|
    ensures block == Items(body.messages[m].content)[k]
    ensures SegmentIs(est, Flatten(est, body)[at], body.messages[m].role, block) && TierIs(est, body, at, block)
  {
    block := Items(body.messages[m].content)[k];
    MessageItem(body.messages, m, k);
    BehindTheHead(body, CountItems(body.messages, m) + k);
    at := |body.tools| + |Items(body.system)| + CountItems(body.messages, m) + k;
    Survives(est, body, at, body.messages[m].role, block);
  }
}
