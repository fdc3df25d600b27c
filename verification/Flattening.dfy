/** `flatten`: from a request body to its list of segments, and the budget of four markers. */
module Flattening {
  import opened Wire

  const MAX_BREAKPOINTS: nat := 4
  const DEFAULT_TTL := "5m"

  type Pos = n: nat | 0 < n witness 1

  /** What a segment is hashed from. The hash itself is taken to be free of collisions, so the hashed
      value stands for it. */
  datatype Digest = Digest(role: string, block: Json)

  datatype Segment = Segment(tokens: Pos, ttl: Option<string>, digest: Digest)

  /** Estimated tokens of a block before the floor of one is applied. */
  type Estimator = Json -> nat

  // ---- Blocks in wire order ----

  function Tag(role: string, blocks: seq<Json>): (r: seq<Digest>)
    ensures |r| == |blocks|
  {
    seq(|blocks|, i requires 0 <= i < |blocks| => Digest(role, blocks[i]))
  }

  function ContentBlocks(role: string, content: Content): seq<Digest> {
    match content
    case Absent => []
    case Text(text) => [Digest(role, TextBlock(text))]
    case Blocks(blocks) => Tag(role, blocks)
  }

  function MessageBlocks(messages: seq<Message>): seq<Digest> {
    if messages == [] then []
    else ContentBlocks(messages[0].role, messages[0].content) + MessageBlocks(messages[1..])
  }

  /** Everything ahead of the messages: tools, then system. */
  function HeadBlocks(body: Body): seq<Digest> {
    Tag("tools", body.tools) + ContentBlocks("system", body.system)
  }

  function AllBlocks(body: Body): seq<Digest> {
    HeadBlocks(body) + MessageBlocks(body.messages)
  }

  // ---- Segments ----

  /** `ttl or DEFAULT_TTL`. A truthy value that is not a string is priced like the default tier. */
  function MarkerTtl(control: Json): string {
    match Get(control, Ttl)
    case Str(s) => if s == "" then DEFAULT_TTL else s
    case _ => DEFAULT_TTL
  }

  /** An estimator for the worked inputs: every block is just long enough to be cached by itself. */
  const ESTIMATE: Estimator := (_: Json) => 1024

  /** What is hashed of a block: all of it but its marker. */
  function Bare(block: Json): Json {
    if Marked(block) then Unmark(block) else block
  }

  function SegmentOf(est: Estimator, wired: Digest): Segment {
    var bare := Bare(wired.block);
    Segment(if est(bare) == 0 then 1 else est(bare),
            if Marked(wired.block) then Some(MarkerTtl(Get(wired.block, CacheControl))) else None,
            Digest(wired.role, bare))
  }

  function Segments(est: Estimator, blocks: seq<Digest>): (r: seq<Segment>)
    ensures |r| == |blocks|
  {
    seq(|blocks|, i requires 0 <= i < |blocks| => SegmentOf(est, blocks[i]))
  }

  /** The part of a segment list the cache keys on: tokens and digests, without markers. */
  function Plainly(s: Segment): Segment { s.(ttl := None) }

  function Shape(segs: seq<Segment>): (r: seq<Segment>)
    ensures |r| == |segs|
  {
    seq(|segs|, i requires 0 <= i < |segs| => Plainly(segs[i]))
  }

  function CountMarked(segs: seq<Segment>): (r: nat)
    ensures r <= |segs|
  {
    if segs == [] then 0
    else (if segs[0].ttl.Some? then 1 else 0) + CountMarked(segs[1..])
  }

  /** The last four markers survive: a segment keeps its marker when at most four markers stand at
      or after it. */
  function Trim(segs: seq<Segment>): (r: seq<Segment>)
    ensures |r| == |segs|
  {
    seq(|segs|, i requires 0 <= i < |segs| =>
      if CountMarked(segs[i..]) > MAX_BREAKPOINTS then Plainly(segs[i]) else segs[i])
  }

  function Flatten(est: Estimator, body: Body): seq<Segment> {
    Trim(Segments(est, AllBlocks(body)))
  }

  // ---- Facts about the pieces ----

  lemma {:induction false} CountMarkedConcat(a: seq<Segment>, b: seq<Segment>)
    ensures CountMarked(a + b) == CountMarked(a) + CountMarked(b)
  {
    if a == [] {
      assert a + b == b;
    } else {
      assert (a + b)[1..] == a[1..] + b;
      CountMarkedConcat(a[1..], b);
    }
  }

  ghost predicate NoMarkers(segs: seq<Segment>) { forall i :: 0 <= i < |segs| ==> segs[i].ttl.None? }

  lemma {:induction false} NoneMarked(segs: seq<Segment>)
    ensures CountMarked(segs) == 0 <==> NoMarkers(segs)
  {
    if segs != [] {
      NoneMarked(segs[1..]);
      assert forall i :: 0 <= i < |segs| - 1 ==> segs[1..][i] == segs[i + 1];
      assert NoMarkers(segs) <==> segs[0].ttl.None? && NoMarkers(segs[1..]);
    }
  }

  lemma {:induction false} Associate(a: seq<Digest>, b: seq<Digest>, c: seq<Digest>)
    ensures a + b + c == a + (b + c)
  {
  }

  lemma {:induction false} MessageBlocksConcat(a: seq<Message>, b: seq<Message>)
    ensures MessageBlocks(a + b) == MessageBlocks(a) + MessageBlocks(b)
  {
    if a == [] {
      assert a + b == b;
    } else {
      assert (a + b)[1..] == a[1..] + b && (a + b)[0] == a[0];
      MessageBlocksConcat(a[1..], b);
      Associate(ContentBlocks(a[0].role, a[0].content), MessageBlocks(a[1..]), MessageBlocks(b));
    }
  }

  lemma {:induction false} OneMessage(m: Message)
    ensures MessageBlocks([m]) == ContentBlocks(m.role, m.content)
  {
    assert [m][1..] == [];
  }

  /** The blocks of a message list, around one message. */
  lemma {:induction false} BlocksAround(ms: seq<Message>, i: nat)
    requires i < |ms|
    ensures MessageBlocks(ms)
         == MessageBlocks(ms[..i]) + ContentBlocks(ms[i].role, ms[i].content) + MessageBlocks(ms[i + 1..])
    ensures MessageBlocks(ms[..i + 1]) == MessageBlocks(ms[..i]) + ContentBlocks(ms[i].role, ms[i].content)
  {
    assert ms[..i + 1] == ms[..i] + [ms[i]];
    MessageBlocksConcat(ms[..i], [ms[i]]);
    OneMessage(ms[i]);
    assert ms == ms[..i + 1] + ms[i + 1..];
    MessageBlocksConcat(ms[..i + 1], ms[i + 1..]);
  }

  lemma {:induction false} SegmentsConcat(est: Estimator, a: seq<Digest>, b: seq<Digest>)
    ensures Segments(est, a + b) == Segments(est, a) + Segments(est, b)
  {
  }

  lemma {:induction false} ShapeConcat(a: seq<Segment>, b: seq<Segment>)
    ensures Shape(a + b) == Shape(a) + Shape(b)
  {
  }

  /** Trimming moves no tokens and changes no digest. */
  lemma {:induction false} TrimKeepsShape(segs: seq<Segment>)
    ensures Shape(Trim(segs)) == Shape(segs)
  {
  }

  /** A request within the budget is left as it is. */
  lemma {:induction false} TrimWithinBudget(segs: seq<Segment>)
    requires CountMarked(segs) <= MAX_BREAKPOINTS
    ensures Trim(segs) == segs
  {
    forall i | 0 <= i < |segs| ensures CountMarked(segs[i..]) <= CountMarked(segs) {
      assert segs == segs[..i] + segs[i..];
      CountMarkedConcat(segs[..i], segs[i..]);
    }
  }

  /** However many markers a request asks for, at most four survive, and they are its last ones. */
  lemma {:induction false} TrimBudget(segs: seq<Segment>)
    ensures CountMarked(Trim(segs))
         == if CountMarked(segs) > MAX_BREAKPOINTS then MAX_BREAKPOINTS else CountMarked(segs)
  {
    if segs != [] {
      var rest := segs[1..];
      assert Trim(segs)[1..] == Trim(rest) by {
        forall i | 0 <= i < |rest| ensures Trim(segs)[1..][i] == Trim(rest)[i] {
          assert segs[i + 1..] == rest[i..];
        }
      }
      assert segs[0..] == segs;
      TrimBudget(rest);
    }
  }

  // ---- The loop ----

  /** `OVER_BUDGET`: how many requests asked for too many markers, and the worst of them. */
  class OverBudget {
    var requests: nat
    var worst: nat

    constructor ()
      ensures requests == 0 && worst == 0
    {
      requests, worst := 0, 0;
    }
  }

  ghost predicate ListsMarked(marked: seq<nat>, segs: seq<Segment>, n: nat)
    requires n <= |segs|
  {
    && (forall k :: 0 <= k < |marked| ==> marked[k] < n && segs[marked[k]].ttl.Some?)
    && (forall k, l :: 0 <= k < l < |marked| ==> marked[k] < marked[l])
    && (forall i :: 0 <= i < n && segs[i].ttl.Some? ==> i in marked)
  }

  /** The number of markers at or after the k-th listed one is what is left of the list. */
  lemma {:induction false} MarkedFrom(marked: seq<nat>, segs: seq<Segment>, i: nat, k: nat)
    requires ListsMarked(marked, segs, |segs|)
    requires i <= |segs| && k <= |marked|
    requires forall l :: 0 <= l < |marked| ==> (l < k <==> marked[l] < i)
    ensures CountMarked(segs[i..]) == |marked| - k
    decreases |segs| - i
  {
    if i == |segs| {
      assert forall l :: 0 <= l < |marked| ==> marked[l] < i;
    } else {
      assert segs[i..][1..] == segs[i + 1..];
      if segs[i].ttl.Some? {
        var l :| 0 <= l < |marked| && marked[l] == i;
        assert k <= l;
        assert marked[k] == i;
        MarkedFrom(marked, segs, i + 1, k + 1);
      } else {
        assert forall l :: 0 <= l < |marked| ==> marked[l] != i;
        MarkedFrom(marked, segs, i + 1, k);
      }
    }
  }

  /** A marked segment is cleared exactly when it is not among the last four listed. */
  lemma {:induction false} EarliestAreCleared(marked: seq<nat>, all: seq<Segment>, j: nat)
    requires ListsMarked(marked, all, |all|) && |marked| > MAX_BREAKPOINTS && j < |all|
    ensures Trim(all)[j] == if j in marked[..|marked| - MAX_BREAKPOINTS] then Plainly(all[j]) else all[j]
  {
    if all[j].ttl.Some? {
      var l :| 0 <= l < |marked| && marked[l] == j;
      MarkedFrom(marked, all, j, l);
      if j in marked[..|marked| - MAX_BREAKPOINTS] {
        var l' :| 0 <= l' < |marked| - MAX_BREAKPOINTS && marked[l'] == j;
        assert l' == l;
      } else {
        assert l >= |marked| - MAX_BREAKPOINTS;
      }
    }
  }

  /** The walk over the blocks, and the list of marked segments. */
  method Collect(est: Estimator, blocks: seq<Digest>) returns (segs: seq<Segment>, marked: seq<nat>)
    ensures segs == Segments(est, blocks) && ListsMarked(marked, segs, |segs|)
  {
    segs, marked := [], [];
    var i := 0;
    while i < |blocks|
      invariant 0 <= i <= |blocks|
      invariant segs == Segments(est, blocks)[..i]
      invariant ListsMarked(marked, segs, i)
    {
      var segment := SegmentOf(est, blocks[i]);
      segs := segs + [segment];
      if segment.ttl.Some? {
        marked := marked + [i];
      }
      i := i + 1;
    }
  }

  /** The clearing of the earliest markers of a request over the budget. */
  method ClearExtra(all: seq<Segment>, marked: seq<nat>) returns (segs: seq<Segment>)
    requires ListsMarked(marked, all, |all|) && |marked| > MAX_BREAKPOINTS
    ensures segs == Trim(all)
  {
    segs := all;
    var extra := |marked| - MAX_BREAKPOINTS;
    var k := 0;
    while k < extra
      invariant 0 <= k <= extra
      invariant |segs| == |all|
      invariant forall j :: 0 <= j < |all| ==>
        segs[j] == if j in marked[..k] then Plainly(all[j]) else all[j]
    {
      segs := segs[marked[k] := segs[marked[k]].(ttl := None)];
      k := k + 1;
    }
    forall j | 0 <= j < |all| ensures segs[j] == Trim(all)[j] {
      EarliestAreCleared(marked, all, j);
    }
  }

  /** `flatten`, with its count of requests over the budget. */
  method FlattenBody(est: Estimator, body: Body, budget: OverBudget) returns (segs: seq<Segment>)
    modifies budget
    ensures segs == Flatten(est, body)
    ensures var asked := CountMarked(Segments(est, AllBlocks(body)));
            if asked > MAX_BREAKPOINTS then
              && budget.requests == old(budget.requests) + 1
              && budget.worst == (if old(budget.worst) < asked then asked else old(budget.worst))
            else
              budget.requests == old(budget.requests) && budget.worst == old(budget.worst)
  {
    var marked;
    segs, marked := Collect(est, AllBlocks(body));
    assert segs[0..] == segs;
    MarkedFrom(marked, segs, 0, 0);
    if |marked| > MAX_BREAKPOINTS {
      budget.requests := budget.requests + 1;
      budget.worst := if budget.worst < |marked| then |marked| else budget.worst;
      segs := ClearExtra(segs, marked);
    } else {
      TrimWithinBudget(segs);
    }
  }
}
