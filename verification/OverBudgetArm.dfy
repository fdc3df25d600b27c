/** `tail-breakpoints-3` against `rebalance-1sys-3tail`: when five markers trimmed to four are the four markers
    of the other arm. */
module OverBudgetArm {
  import opened Wire
  import opened Flattening
  import opened PlainCache
  import opened Markers

  // ---- Counting markers ----

  function MarkersIn(est: Estimator, ms: seq<Message>): nat { CountMarked(Segments(est, MessageBlocks(ms))) }

  lemma {:induction false} CountUpdate(segs: seq<Segment>, j: nat, s: Segment)
    requires j < |segs|
    ensures CountMarked(segs[j := s]) + (if segs[j].ttl.Some? then 1 else 0)
         == CountMarked(segs) + if s.ttl.Some? then 1 else 0
  {
    if j == 0 {
      assert segs[j := s][1..] == segs[1..];
    } else {
      assert segs[j := s][1..] == segs[1..][j - 1 := s];
      CountUpdate(segs[1..], j - 1, s);
    }
  }

  lemma {:induction false} CountAround(est: Estimator, a: seq<Digest>, b: seq<Digest>, c: seq<Digest>)
    ensures CountMarked(Segments(est, a + b + c))
         == CountMarked(Segments(est, a)) + CountMarked(Segments(est, b)) + CountMarked(Segments(est, c))
  {
    SegmentsConcat(est, a + b, c);
    SegmentsConcat(est, a, b);
    CountMarkedConcat(Segments(est, a + b), Segments(est, c));
    CountMarkedConcat(Segments(est, a), Segments(est, b));
  }

  /** The markers of a message list, around one message. */
  lemma {:induction false} MarkersAround(est: Estimator, ms: seq<Message>, i: nat)
    requires i < |ms|
    ensures MarkersIn(est, ms)
         == MarkersIn(est, ms[..i]) + CountMarked(Segments(est, ContentBlocks(ms[i].role, ms[i].content)))
            + MarkersIn(est, ms[i + 1..])
  {
    BlocksAround(ms, i);
    CountAround(est, MessageBlocks(ms[..i]), ContentBlocks(ms[i].role, ms[i].content), MessageBlocks(ms[i + 1..]));
  }

  lemma {:induction false} MarkedBlockCounts(est: Estimator, role: string, blocks: seq<Json>, k: nat, control: Json)
    requires k < |blocks| && blocks[k].Obj? && control.Obj?
    ensures CountMarked(Segments(est, Tag(role, blocks[k := Mark(blocks[k], control)])))
         == CountMarked(Segments(est, Tag(role, blocks))) + if Marked(blocks[k]) then 0 else 1
  {
    var s := Segments(est, Tag(role, blocks));
    var s' := Segments(est, Tag(role, blocks[k := Mark(blocks[k], control)]));
    assert s' == s[k := s'[k]];
    CountUpdate(s, k, s'[k]);
  }

  /** Writing a marker adds one marker, unless the block already had one. */
  lemma {:induction false} MarkAtCounts(est: Estimator, ms: seq<Message>, p: Place, control: Json)
    requires Editable(ms, p) && control.Obj?
    ensures MarkersIn(est, MarkAt(ms, p, control)) == MarkersIn(est, ms) + if Marked(BlockAt(ms, p)) then 0 else 1
  {
    var i, ms' := p.message, MarkAt(ms, p, control);
    assert ms'[..i] == ms[..i] && ms'[i + 1..] == ms[i + 1..];
    MarkersAround(est, ms, i);
    MarkersAround(est, ms', i);
    MarkedBlockCounts(est, ms[i].role, ms[i].content.blocks, p.block, control);
  }

  // ---- How many markers a tail placement writes ----

  /** How many different places the first `k` of `backs` point at. */
  function Fresh(backs: seq<nat>, n: nat, k: nat): nat
    requires k <= |backs|
  {
    if k == 0 then 0
    else Fresh(backs, n, k - 1) + if backs[k - 1] < n && backs[k - 1] !in backs[..k - 1] then 1 else 0
  }

  /** The markers written so far are on the places pointed at, and nowhere else. */
  ghost predicate MarkedBy(ms: seq<Message>, places: seq<Place>, backs: seq<nat>) {
    AllEditable(ms, places) && forall l :: 0 <= l < |places| ==> MarkedAsListed(ms, places, backs, l)
  }

  ghost predicate MarkedAsListed(ms: seq<Message>, places: seq<Place>, backs: seq<nat>, l: nat)
    requires l < |places| && Editable(ms, places[l])
  {
    Marked(BlockAt(ms, places[l])) <==> |places| - 1 - l in backs
  }

  lemma {:induction false} MarkedByStep(ms: seq<Message>, places: seq<Place>, backs: seq<nat>, back: nat)
    requires MarkedBy(ms, places, backs) && Distinct(places) && back < |places|
    ensures MarkedBy(MarkAt(ms, places[|places| - 1 - back], Ephemeral("1h")), places, backs + [back])
  {
    var p := places[|places| - 1 - back];
    var ms' := MarkAt(ms, p, Ephemeral("1h"));
    forall l | 0 <= l < |places|
      ensures Editable(ms', places[l]) && MarkedAsListed(ms', places, backs + [back], l)
    {
      assert Editable(ms, places[l]) && MarkedAsListed(ms, places, backs, l);
      MarkedAfter(ms, p, places[l]);
      assert |places| - 1 - back == l <==> p == places[l];
    }
  }

  lemma {:induction false} MarkedAfter(ms: seq<Message>, p: Place, q: Place)
    requires Editable(ms, p) && Editable(ms, q)
    ensures var ms' := MarkAt(ms, p, Ephemeral("1h"));
            Editable(ms', q) && (Marked(BlockAt(ms', q)) <==> p == q || Marked(BlockAt(ms, q)))
  {
  }

  ghost predicate CountedSo(est: Estimator, ms: seq<Message>, places: seq<Place>, backs: seq<nat>, r: seq<Message>,
                            j: nat)
    requires j <= |backs|
  {
    MarkedBy(r, places, backs[..j]) && MarkersIn(est, r) == MarkersIn(est, ms) + Fresh(backs, |places|, j)
  }

  lemma {:induction false} MarkBacksCount(est: Estimator, ms: seq<Message>, places: seq<Place>, backs: seq<nat>)
    requires Distinct(places) && MarkedBy(ms, places, [])
    ensures MarkersIn(est, MarkBacks(ms, places, backs, |backs|))
         == MarkersIn(est, ms) + Fresh(backs, |places|, |backs|)
    ensures MarkedBy(MarkBacks(ms, places, backs, |backs|), places, backs)
  {
    assert backs[..|backs|] == backs;
    var inv := (r: seq<Message>, j: nat) => j <= |backs| && CountedSo(est, ms, places, backs, r, j);
    assert backs[..0] == [];
    forall before: seq<Message>, j: nat | j < |backs| && AllEditable(before, places) && inv(before, j)
      ensures inv(MarkNext(before, places, backs[j]), j + 1)
    {
      CountStep(est, ms, before, places, backs, j);
    }
    MarkBacksInduction(ms, places, backs, |backs|, inv);
  }

  lemma {:induction false} CountStep(est: Estimator, ms: seq<Message>, before: seq<Message>, places: seq<Place>,
                                     backs: seq<nat>, j: nat)
    requires j < |backs| && Distinct(places) && AllEditable(before, places)
    requires CountedSo(est, ms, places, backs, before, j)
    ensures CountedSo(est, ms, places, backs, MarkNext(before, places, backs[j]), j + 1)
  {
    var after, back := MarkNext(before, places, backs[j]), backs[j];
    OneMore(est, before, after, places, backs[..j], back);
    assert backs[..j] + [back] == backs[..j + 1];
    FreshNext(backs, |places|, j);
  }

  lemma {:induction false} FreshNext(backs: seq<nat>, n: nat, j: nat)
    requires j < |backs|
    ensures Fresh(backs, n, j + 1) == Fresh(backs, n, j) + if backs[j] < n && backs[j] !in backs[..j] then 1 else 0
  {
  }

  lemma {:induction false} OneMore(est: Estimator, before: seq<Message>, after: seq<Message>, places: seq<Place>,
                                   done: seq<nat>, back: nat)
    requires Distinct(places) && MarkedBy(before, places, done) && after == MarkNext(before, places, back)
    ensures MarkedBy(after, places, done + [back])
    ensures MarkersIn(est, after) == MarkersIn(est, before) + if back < |places| && back !in done then 1 else 0
  {
    if back < |places| {
      MarkedByStep(before, places, done, back);
      assert MarkedAsListed(before, places, done, |places| - 1 - back);
      MarkAtCounts(est, before, places[|places| - 1 - back], Ephemeral("1h"));
    } else {
      MarkedByMore(before, places, done, back);
    }
  }

  lemma {:induction false} MarkedByMore(ms: seq<Message>, places: seq<Place>, backs: seq<nat>, back: nat)
    requires MarkedBy(ms, places, backs) && back >= |places|
    ensures MarkedBy(ms, places, backs + [back])
  {
    forall l | 0 <= l < |places| ensures MarkedAsListed(ms, places, backs + [back], l) {
      assert MarkedAsListed(ms, places, backs, l);
    }
  }

  lemma {:induction false} PlacesDistinct(ms: seq<Message>)
    ensures Distinct(Places(ms, |ms|))
  {
    var places := Places(ms, |ms|);
    forall k, l | 0 <= k < l < |places| ensures places[k] != places[l] {
      PlacesEditable(ms, |ms|, l);
    }
  }

  lemma {:induction false} CleanedPlaceUnmarked(ms: seq<Message>, p: Place)
    requires Editable(CleanMessages(ms), p)
    ensures !Marked(BlockAt(CleanMessages(ms), p))
  {
    assert CleanMessages(ms)[p.message] == CleanMessage(ms[p.message]);
    if ms[p.message].content.Blocks? {
      UnmarkIdempotent(ms[p.message].content.blocks[p.block]);
    }
  }

  /** The blocks a strategy can mark. */
  function BlockCount(body: Body): nat {
    var ms := CleanMessages(body.messages);
    |Places(ms, |ms|)|
  }

  /** A tail placement leaves exactly as many message markers as it names different blocks. */
  lemma {:induction false} TailCount(est: Estimator, body: Body, count: nat)
    ensures MarkersIn(est, TailBreakpoints(body, count).messages)
         == Fresh(Backs(BlockCount(body), count), BlockCount(body), count)
  {
    var ms := CleanMessages(body.messages);
    var places := Places(ms, |ms|);
    AllPlacesEditable(ms);
    PlacesDistinct(ms);
    forall l | 0 <= l < |places| ensures !Marked(BlockAt(ms, places[l])) {
      CleanedPlaceUnmarked(body.messages, places[l]);
    }
    assert forall l :: 0 <= l < |places| ==> MarkedAsListed(ms, places, [], l);
    assert MarkedBy(ms, places, []);
    MarkBacksCount(est, ms, places, Backs(|places|, count));
    CleanUnmarked(est, body.messages);
    NoneMarked(Segments(est, MessageBlocks(ms)));
  }

  // ---- Three tail markers are three markers from nine blocks on ----

  lemma {:induction false} RoundTwelfths(n: nat)
    ensures Back(0, n, 3) == 0
    ensures n >= 9 ==> 0 < Back(1, n, 3) < Back(2, n, 3) < n
    ensures n < 9 ==> Back(1, n, 3) == 0 || Back(2, n, 3) == Back(1, n, 3)
  {
    var q, s := n / 12, n % 12;
    assert n == 12 * q + s;
    assert (2 * n) / 12 == 2 * q + (2 * s) / 12;
    assert (2 * n) % 12 == (2 * s) % 12;
  }

  lemma {:induction false} ThreeBacks(n: nat)
    ensures Fresh(Backs(n, 3), n, 3) == 3 <==> n >= 9
    ensures Fresh(Backs(n, 3), n, 3) <= 3
  {
    RoundTwelfths(n);
    var b := Backs(n, 3);
    assert b[0] == Back(0, n, 3) && b[1] == Back(1, n, 3) && b[2] == Back(2, n, 3);
    assert b[..0] == [] && b[..1] == [b[0]] && b[..2] == [b[0], b[1]];
    assert Fresh(b, n, 1) == if b[0] < n then 1 else 0;
    assert Fresh(b, n, 2) == Fresh(b, n, 1) + if b[1] < n && b[1] != b[0] then 1 else 0;
    assert Fresh(b, n, 3) == Fresh(b, n, 2) + if b[2] < n && b[2] != b[0] && b[2] != b[1] then 1 else 0;
  }

  // ---- The two arms ----

  /** Two markers on `system`, both worth dropping, and none on the tools. */
  ghost predicate TwoSystemMarkers(est: Estimator, body: Body) {
    && body.system.Blocks?
    && CountMarked(Segments(est, Tag("system", body.system.blocks))) == 2
    && CountMarked(Segments(est, Tag("tools", body.tools))) == 0
    && forall i :: 0 <= i < |body.system.blocks| ==>
         (Marked(body.system.blocks[i]) <==> Truthy(Get(body.system.blocks[i], CacheControl)))
  }

  /** Dropping the first system marker clears the first marked segment and nothing else. */
  lemma {:induction false} DropFirstSegments(est: Estimator, blocks: seq<Json>)
    requires CountMarked(Segments(est, Tag("system", blocks))) > 0
    requires forall i :: 0 <= i < |blocks| ==> (Marked(blocks[i]) <==> Truthy(Get(blocks[i], CacheControl)))
    ensures var f, s := FirstTruthy(blocks, 0), Segments(est, Tag("system", blocks));
            && f < |blocks| && s[f].ttl.Some? && (forall i :: 0 <= i < f ==> s[i].ttl.None?)
            && Segments(est, Tag("system", blocks[f := Unmark(blocks[f])])) == s[f := Plainly(s[f])]
  {
    var f, s := FirstTruthy(blocks, 0), Segments(est, Tag("system", blocks));
    if f == |blocks| {
      NoneMarked(s);
      assert false;
    }
    assert Marked(blocks[f]);
    UnmarkIdempotent(blocks[f]);
    assert SegmentOf(est, Digest("system", Unmark(blocks[f]))) == Plainly(s[f]);
  }

  /** With five markers, trimming clears the first one. */
  lemma {:induction false} TrimFive(segs: seq<Segment>, f: nat)
    requires f < |segs| && segs[f].ttl.Some? && (forall i :: 0 <= i < f ==> segs[i].ttl.None?)
    requires CountMarked(segs) == MAX_BREAKPOINTS + 1
    ensures Trim(segs) == segs[f := Plainly(segs[f])]
  {
    forall i | 0 <= i < |segs| ensures Trim(segs)[i] == segs[f := Plainly(segs[f])][i] {
      if i <= f {
        CountFromFirst(segs, f, i);
      } else {
        CountPastFirst(segs, f, i);
      }
    }
  }

  lemma {:induction false} CountFromFirst(segs: seq<Segment>, f: nat, i: nat)
    requires i <= f < |segs| && forall j :: 0 <= j < f ==> segs[j].ttl.None?
    ensures CountMarked(segs[i..]) == CountMarked(segs)
  {
    assert segs == segs[..i] + segs[i..];
    CountMarkedConcat(segs[..i], segs[i..]);
    NoneMarked(segs[..i]);
  }

  lemma {:induction false} CountPastFirst(segs: seq<Segment>, f: nat, i: nat)
    requires f < i <= |segs| && segs[f].ttl.Some?
    ensures CountMarked(segs[i..]) < CountMarked(segs)
  {
    var head := segs[f..i];
    assert segs == segs[..f] + (head + segs[i..]);
    CountMarkedConcat(segs[..f], head + segs[i..]);
    CountMarkedConcat(head, segs[i..]);
    assert CountMarked(head) > 0;
  }

  /** `s` with its first marker cleared, inside a longer list. */
  lemma {:induction false} ClearedInside(t: seq<Segment>, s: seq<Segment>, m: seq<Segment>, f: nat)
    requires f < |s|
    ensures (t + s + m)[|t| + f := Plainly((t + s + m)[|t| + f])] == t + s[f := Plainly(s[f])] + m
  {
  }

  /** The five-marker arm is the four-marker arm, segment for segment, if and only if the conversation has
      nine or more blocks to mark; with fewer, the rounded positions collide and the two differ. */
  lemma {:induction false} OverBudgetEquivalence(est: Estimator, body: Body)
    requires TwoSystemMarkers(est, body)
    ensures Flatten(est, TailBreakpoints(body, 3)) == Flatten(est, Rebalance(body, 3)) <==> BlockCount(body) >= 9
  {
    var five, four := TailBreakpoints(body, 3), Rebalance(body, 3);
    assert four.messages == five.messages;
    var blocks := body.system.blocks;
    var t, s := Segments(est, Tag("tools", body.tools)), Segments(est, Tag("system", blocks));
    var m := Segments(est, MessageBlocks(five.messages));
    var f := FirstTruthy(blocks, 0);
    DropFirstSegments(est, blocks);
    var s' := s[f := Plainly(s[f])];
    ThreeParts(est, five);
    ThreeParts(est, four);
    TailCount(est, body, 3);
    ThreeBacks(BlockCount(body));
    CountUpdate(s, f, Plainly(s[f]));
    Compare(t, s, m, f);
  }

  lemma {:induction false} ThreeParts(est: Estimator, body: Body)
    requires body.system.Blocks?
    ensures Segments(est, AllBlocks(body))
         == Segments(est, Tag("tools", body.tools)) + Segments(est, Tag("system", body.system.blocks))
            + Segments(est, MessageBlocks(body.messages))
  {
    SegmentsConcat(est, HeadBlocks(body), MessageBlocks(body.messages));
    SegmentsConcat(est, Tag("tools", body.tools), Tag("system", body.system.blocks));
  }

  lemma {:induction false} CountParts(t: seq<Segment>, s: seq<Segment>, m: seq<Segment>)
    ensures CountMarked(t + s + m) == CountMarked(t) + CountMarked(s) + CountMarked(m)
  {
    CountMarkedConcat(t + s, m);
    CountMarkedConcat(t, s);
  }

  lemma {:induction false} Compare(t: seq<Segment>, s: seq<Segment>, m: seq<Segment>, f: nat)
    requires f < |s| && s[f].ttl.Some? && (forall i :: 0 <= i < f ==> s[i].ttl.None?)
    requires CountMarked(t) == 0 && CountMarked(s) == 2 && CountMarked(m) <= 3
    ensures Trim(t + s + m) == Trim(t + s[f := Plainly(s[f])] + m) <==> CountMarked(m) == 3
  {
    var s' := s[f := Plainly(s[f])];
    CountUpdate(s, f, Plainly(s[f]));
    CountParts(t, s, m);
    CountParts(t, s', m);
    TrimWithinBudget(t + s' + m);
    if CountMarked(m) == 3 {
      CompareFive(t, s, m, f);
    } else {
      TrimWithinBudget(t + s + m);
      assert (t + s + m)[|t| + f].ttl.Some? && (t + s' + m)[|t| + f].ttl.None?;
    }
  }

  lemma {:induction false} CompareFive(t: seq<Segment>, s: seq<Segment>, m: seq<Segment>, f: nat)
    requires f < |s| && s[f].ttl.Some? && (forall i :: 0 <= i < f ==> s[i].ttl.None?)
    requires CountMarked(t) == 0 && CountMarked(t + s + m) == MAX_BREAKPOINTS + 1
    ensures Trim(t + s + m) == t + s[f := Plainly(s[f])] + m
  {
    NoneMarked(t);
    TrimFive(t + s + m, |t| + f);
    ClearedInside(t, s, m, f);
  }
}
