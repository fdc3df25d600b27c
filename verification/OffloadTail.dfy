/** The gated offload does rewrite what a tail marker cached: the result of an excluded tool goes out as it is
    while it is near the tail, and as a preview once it is four messages away. */
module OffloadTail {
  import opened Wire
  import opened Flattening
  import opened PlainCache
  import opened CacheRuns
  import opened Markers
  import opened Reasoning
  import opened Offload
  import opened OffloadRuns

  const TOOL := "read"
  const CALL := Str("t")

  function UseBlock(): Json { Obj(map[Type := Str("tool_use"), Id := CALL, Name := Str(TOOL)]) }

  function ResultBlock(text: string): Json {
    Obj(map[Type := Str("tool_result"), ToolUseId := CALL, ContentField := Str(text), CacheControl := Ephemeral("1h")])
  }

  /** A tool call and its result, with the client's marker on the result. */
  function ToolTurn(text: string): seq<Message> {
    [Message("assistant", Blocks([UseBlock()])), Message("user", Blocks([ResultBlock(text)]))]
  }

  /** Four more messages. */
  function More(): (r: seq<Message>)
    ensures |r| == 4
  {
    seq(4, _ => Message("user", Text("go")))
  }

  function History(text: string): seq<seq<Message>> { [ToolTurn(text), ToolTurn(text) + More()] }

  /** An arm that protects the tool near the tail, and a text worth offloading. */
  ghost predicate Offloads(policy: Policy, text: string) {
    && policy.honourExclusions && policy.isExcluded(TOOL) && !(policy.honourVerbatim && policy.isVerbatim(TOOL))
    && policy.minBytes < |text| && |DigestText(text)| < |text|
  }

  /** There are such arms and texts: a floor of two thousand characters and a text of four thousand. */
  lemma {:induction false} SomethingOffloads()
    ensures Offloads(Policy(2000, true, true, true, (_: string) => false, (name: string) => name == TOOL),
                     seq(4000, _ => 'x'))
  {
    var text: string := seq(4000, _ => 'x');
    assert |text| / 4 == 1000;
    assert |DigestText(text)| == 1000 + |Footer()|;
    assert |Footer()| <= 1000;
  }

  lemma {:induction false} ToolIsNamed(ms: seq<Message>, text: string)
    requires 2 <= |ms| && ms[..2] == ToolTurn(text) && forall k :: 2 <= k < |ms| ==> BlocksOf(ms[k]) == []
    ensures NameOf(ms, CALL) == TOOL
  {
    var first := ToolTurn(text);
    assert ms[1] == ms[..2][1];
    assert BlocksOf(ms[1]) == [ResultBlock(text)];
    assert "tool_result" != "tool_use";
    assert [ResultBlock(text)][..0] == [];
    assert NameIn([ResultBlock(text)], CALL) == NameIn([], CALL);
    NameUpTo(ms, CALL, 1);
    assert ms[..1] == [first[0]];
    assert [first[0]][..0] == [];
    assert NameIn([UseBlock()], CALL) == Some(TOOL);
  }

  lemma {:induction false} ResultIsCandidate(policy: Policy, text: string)
    requires policy.minBytes < |text|
    ensures Candidate(policy, ResultBlock(text)) == Some(text)
    ensures Candidate(policy, UseBlock()) == None
  {
    assert "tool_use" != "tool_result";
  }

  lemma {:induction false} NothingSeenYet(t: Turn, seen: set<string>, text: string)
    requires 2 <= |t.ms| && t.ms[..2] == ToolTurn(text) && t.policy.minBytes < |text|
    ensures SeenAt(t, seen, 1, 0) == seen
  {
    assert t.ms[0] == t.ms[..2][0];
    ResultIsCandidate(t.policy, text);
    assert BlockOf(t, 0, 0) == UseBlock();
    assert SeenAt(t, seen, 0, 1) == SeenAt(t, seen, 0, 0) == seen;
  }

  /** At the tail the result goes out as it is. */
  lemma {:induction false} RawAtTheTail(policy: Policy, text: string)
    requires Offloads(policy, text)
    ensures SentAt(policy, History(text), 0)[1] == ToolTurn(text)[1]
  {
    var ms := ToolTurn(text);
    var t := TurnOf(policy, Memory({}, false), ms);
    assert ms[..2] == ms;
    ToolIsNamed(ms, text);
    ResultIsCandidate(policy, text);
    NothingSeenYet(t, {}, text);
    assert BlockOf(t, 1, 0) == ResultBlock(text);
    assert !ConvertsAt(t, {}, 1, 0);
    assert Forwarded(t, {}, 1, 0) == ResultBlock(text);
    assert ForwardedMessage(t, {}, 1).content.blocks == [ResultBlock(text)];
  }

  /** Four messages on it goes out as a preview. */
  lemma {:induction false} PreviewLater(policy: Policy, text: string)
    requires Offloads(policy, text)
    ensures SentAt(policy, History(text), 1)[1] == Message("user", Blocks([WriteDigest(ResultBlock(text), text)]))
  {
    var ms, memory := History(text)[1], MemoryAt(policy, History(text), 1);
    var t := TurnOf(policy, memory, ms);
    assert ms[..2] == ToolTurn(text) && ms[1] == ToolTurn(text)[1];
    assert forall k :: 2 <= k < |ms| ==> ms[k] == More()[k - 2];
    ToolIsNamed(ms, text);
    ResultIsCandidate(policy, text);
    assert BlockOf(t, 1, 0) == ResultBlock(text);
    assert ConvertsAt(t, memory.seen, 1, 0);
    assert ForwardedMessage(t, memory.seen, 1).content.blocks == [WriteDigest(ResultBlock(text), text)];
  }

  /** The first message holds no tool result. */
  lemma {:induction false} CallIsKept(policy: Policy, text: string, k: nat)
    requires Offloads(policy, text) && k < 2
    ensures SentAt(policy, History(text), k)[0] == ToolTurn(text)[0]
  {
    var ms, memory := History(text)[k], MemoryAt(policy, History(text), k);
    var t := TurnOf(policy, memory, ms);
    assert ms[0] == ToolTurn(text)[0] && BlockOf(t, 0, 0) == UseBlock();
    ResultIsCandidate(policy, text);
    assert Forwarded(t, memory.seen, 0, 0) == UseBlock();
    assert ForwardedMessage(t, memory.seen, 0).content.blocks == [UseBlock()];
  }

  // ---- What the cache makes of it ----

  const BARE_BODY := Body("", [], Absent, [])

  /** The first two segments of a list that starts with two messages of one block each. */
  lemma {:induction false} TwoAhead(ms: seq<Message>, u: Json, v: Json)
    requires 2 <= |ms| && ms[0] == Message("assistant", Blocks([u])) && ms[1] == Message("user", Blocks([v]))
    ensures MessageBlocks(ms) == [Digest("assistant", u), Digest("user", v)] + MessageBlocks(ms[2..])
  {
    var rest := ms[1..];
    assert rest[0] == ms[1] && rest[1..] == ms[2..];
    assert Tag("assistant", [u]) == [Digest("assistant", u)] && Tag("user", [v]) == [Digest("user", v)];
    assert MessageBlocks(ms) == Tag("assistant", [u]) + MessageBlocks(rest);
    assert MessageBlocks(rest) == Tag("user", [v]) + MessageBlocks(ms[2..]);
  }

  lemma {:induction false} Heads(ms: seq<Message>, u: Json, v: Json) returns (raw: seq<Segment>)
    requires 2 <= |ms| && ms[0] == Message("assistant", Blocks([u])) && ms[1] == Message("user", Blocks([v]))
    requires !Marked(u) && Marked(v)
    ensures Flatten(ESTIMATE, BARE_BODY.(messages := ms)) == Trim(raw) && |raw| == 2 + |MessageBlocks(ms[2..])|
    ensures raw[0].ttl.None? && raw[1].ttl.Some? && raw[1].digest == Digest("user", Unmark(v))
    ensures Upto(raw, 1) == 1024 && Upto(raw, 2) == 2048 && IsBreakpoint(raw, 2) && !IsBreakpoint(raw, 1)
  {
    var blocks := MessageBlocks(ms);
    TwoAhead(ms, u, v);
    assert AllBlocks(BARE_BODY.(messages := ms)) == [] + [] + blocks == blocks;
    raw := Segments(ESTIMATE, blocks);
    assert raw[0] == SegmentOf(ESTIMATE, blocks[0]) && raw[1] == SegmentOf(ESTIMATE, blocks[1]);
    assert Upto(raw, 0) == 0;
    assert Upto(raw, 1) == 1024;
  }

  lemma {:induction false} PreviewDiffers(text: string)
    requires |DigestText(text)| < |text|
    ensures Unmark(WriteDigest(ResultBlock(text), text)) != Unmark(ResultBlock(text))
    ensures Marked(WriteDigest(ResultBlock(text), text))
  {
    var a, b := WriteDigest(ResultBlock(text), text), ResultBlock(text);
    assert Get(Unmark(a), ContentField) == Str(DigestText(text)) && Get(Unmark(b), ContentField) == Str(text);
  }

  /** One second later, four messages on, nothing of what the marker had cached is read. */
  lemma {:induction false} TailIsNotKept(policy: Policy, text: string, scope: string)
    requires Offloads(policy, text)
    ensures var first := SentRequest(ESTIMATE, policy, BARE_BODY, History(text), scope, 0, 0.0);
            var second := SentRequest(ESTIMATE, policy, BARE_BODY, History(text), scope, 1, 1.0);
            Cached(first) == 2048 && Last(second.segs) > 0 && Billed(After(map[], first), second).read == 0
  {
    var first := SentRequest(ESTIMATE, policy, BARE_BODY, History(text), scope, 0, 0.0);
    var second := SentRequest(ESTIMATE, policy, BARE_BODY, History(text), scope, 1, 1.0);
    var _ := FirstSegments(policy, text, first);
    var _ := SecondSegments(policy, text, second);
    PreviewDiffers(text);
    ChangedIsLost(first, second, 1);
  }

  lemma {:induction false} FirstSegments(policy: Policy, text: string, r: Request) returns (raw: seq<Segment>)
    requires Offloads(policy, text)
    requires r.segs == Flatten(ESTIMATE, BARE_BODY.(messages := SentAt(policy, History(text), 0)))
    ensures r.segs == raw && |raw| == 2 && raw[1].digest == Digest("user", Unmark(ResultBlock(text)))
    ensures Cached(r) == 2048 && forall i :: IsBreakpoint(raw, i) ==> 1 < i
  {
    RawAtTheTail(policy, text);
    CallIsKept(policy, text, 0);
    var ms := SentAt(policy, History(text), 0);
    raw := Heads(ms, UseBlock(), ResultBlock(text));
    assert ms[2..] == [];
    TrimWithinBudget(raw);
    assert LastBefore(raw, 2) == 2;
  }

  lemma {:induction false} SecondSegments(policy: Policy, text: string, r: Request) returns (raw: seq<Segment>)
    requires Offloads(policy, text)
    requires r.segs == Flatten(ESTIMATE, BARE_BODY.(messages := SentAt(policy, History(text), 1)))
    ensures |r.segs| >= 2 && r.segs[1].digest == Digest("user", Unmark(WriteDigest(ResultBlock(text), text)))
    ensures Last(r.segs) > 0
  {
    PreviewLater(policy, text);
    CallIsKept(policy, text, 1);
    PreviewDiffers(text);
    raw := Heads(SentAt(policy, History(text), 1), UseBlock(), WriteDigest(ResultBlock(text), text));
    TrimKeepsLast(raw);
    if Last(raw) == 0 {
      NoneAfterLast(raw, |raw|, 2);
    }
  }
}
