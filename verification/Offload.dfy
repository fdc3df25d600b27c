/** The gated offload: tool results far from the tail are replaced by a preview, with per-session memory of
    what has been converted. */
module Offload {
  import opened Wire
  import opened Markers

  const STALE_MARGIN: nat := 4
  const STALE_WINDOW: nat := 4
  const PREVIEW_FLOOR: nat := 600
  const PREVIEW_CEILING: nat := 3072
  const FOOTER_BYTES: nat := 180

  /** One arm of the strategy. The exclusion lists are read by tool name. */
  datatype Policy = Policy(minBytes: nat, honourBoundary: bool, honourExclusions: bool, honourVerbatim: bool,
                           isVerbatim: string -> bool, isExcluded: string -> bool)

  // ---- Tool results ----

  predicate IsType(b: Json, t: string) { b.Obj? && Get(b, Type) == Str(t) }

  function JoinText(items: seq<Json>): string {
    if items == [] then ""
    else (if IsType(items[0], "text") && Get(items[0], TextField).Str? then Get(items[0], TextField).s else "")
         + JoinText(items[1..])
  }

  function ToolText(b: Json): Option<string> {
    match Get(b, ContentField)
    case Str(s) => Some(s)
    case Arr(items) => Some(JoinText(items))
    case _ => None
  }

  /** The text of a block the gate looks at at all: a tool result over the floor. */
  function Candidate(policy: Policy, b: Json): Option<string> {
    if !IsType(b, "tool_result") then None
    else match ToolText(b)
      case None => None
      case Some(text) => if |text| <= policy.minBytes then None else Some(text)
  }

  function Clamp(n: nat): nat {
    if n < PREVIEW_FLOOR then PREVIEW_FLOOR else if n > PREVIEW_CEILING then PREVIEW_CEILING else n
  }

  /** The retrieval pointer, padded to its real length. */
  function Footer(): string {
    var text := "\n\U{2026}[truncated \U{2014} retrieval pointer below]\n<headroom:offloaded ";
    text + seq(if |text| < FOOTER_BYTES then FOOTER_BYTES - |text| else 0, _ => 'x')
  }

  function DigestText(text: string): string {
    var keep := Clamp(|text| / 4);
    (if keep < |text| then text[..keep] else text) + Footer()
  }

  /** The block with its content replaced by the preview, or untouched if that would not shrink it. */
  function WriteDigest(b: Json, text: string): Json
    requires b.Obj?
  {
    var digest := DigestText(text);
    if |digest| >= |text| then b
    else if Get(b, ContentField).Str? then Obj(b.fields[ContentField := Str(digest)])
    else Obj(b.fields[ContentField := Arr([TextBlock(digest)])])
  }

  // ---- Tool names ----

  function NameIn(blocks: seq<Json>, id: Json): Option<string> {
    if blocks == [] then None
    else
      var b := blocks[|blocks| - 1];
      if IsType(b, "tool_use") && Get(b, Id) == id
      then Some(match Get(b, Name) case Str(s) => s case _ => "")
      else NameIn(blocks[..|blocks| - 1], id)
  }

  function BlocksOf(m: Message): seq<Json> { if m.content.Blocks? then m.content.blocks else [] }

  /** The name last given to a tool call with this id, empty if there is none. */
  function NameOf(ms: seq<Message>, id: Json): string {
    if ms == [] then ""
    else match NameIn(BlocksOf(ms[|ms| - 1]), id)
      case Some(name) => name
      case None => NameOf(ms[..|ms| - 1], id)
  }

  // ---- The gate ----

  /** Whether a candidate is converted, given its distance from the tail and whether its text already was. */
  predicate Converts(policy: Policy, name: string, distance: nat, boundary: bool, prior: bool) {
    && !(policy.honourVerbatim && policy.isVerbatim(name))
    && !(policy.honourExclusions && distance < STALE_MARGIN && !prior && policy.isExcluded(name))
    && !(!prior && distance != 0 && distance >= STALE_MARGIN + STALE_WINDOW && policy.honourBoundary && !boundary)
  }

  /** Everything one turn decides by: the arm, the messages, and whether a rebuild is under way. */
  datatype Turn = Turn(policy: Policy, ms: seq<Message>, boundary: bool)

  predicate InRange(t: Turn, i: nat, j: nat) { i < |t.ms| && j < |BlocksOf(t.ms[i])| }

  function BlockOf(t: Turn, i: nat, j: nat): Json
    requires InRange(t, i, j)
  {
    BlocksOf(t.ms[i])[j]
  }

  predicate Decides(t: Turn, i: nat, j: nat, prior: bool)
    requires InRange(t, i, j)
  {
    var b := BlockOf(t, i, j);
    && Candidate(t.policy, b).Some?
    && Converts(t.policy, NameOf(t.ms, Get(b, ToolUseId)), |t.ms| - 1 - i, t.boundary, prior)
  }

  /** What the session has converted, right before block `j` of message `i` is looked at. */
  function SeenAt(t: Turn, seen: set<string>, i: nat, j: nat): set<string>
    requires i <= |t.ms| && (j == 0 || (i < |t.ms| && j <= |BlocksOf(t.ms[i])|))
    decreases i, j, 0
  {
    if j > 0 then
      var before := SeenAt(t, seen, i, j - 1);
      if ConvertsAt(t, seen, i, j - 1) then before + {Candidate(t.policy, BlockOf(t, i, j - 1)).value} else before
    else if i > 0 then SeenAt(t, seen, i - 1, |BlocksOf(t.ms[i - 1])|)
    else seen
  }

  predicate ConvertsAt(t: Turn, seen: set<string>, i: nat, j: nat)
    requires InRange(t, i, j)
    decreases i, j, 1
  {
    var c := Candidate(t.policy, BlockOf(t, i, j));
    c.Some? && Decides(t, i, j, c.value in SeenAt(t, seen, i, j))
  }

  function Forwarded(t: Turn, seen: set<string>, i: nat, j: nat): Json
    requires InRange(t, i, j)
  {
    var b := BlockOf(t, i, j);
    if ConvertsAt(t, seen, i, j) then WriteDigest(b, Candidate(t.policy, b).value) else b
  }

  function ForwardedMessage(t: Turn, seen: set<string>, i: nat): Message
    requires i < |t.ms|
  {
    var m := t.ms[i];
    if !m.content.Blocks? then m
    else
      var n := |m.content.blocks|;
      m.(content := Blocks(seq(n, j requires 0 <= j < n => Forwarded(t, seen, i, j))))
  }

  function ForwardedMessages(t: Turn, seen: set<string>): (r: seq<Message>)
    ensures |r| == |t.ms|
  {
    seq(|t.ms|, i requires 0 <= i < |t.ms| => ForwardedMessage(t, seen, i))
  }

  function SeenAfter(t: Turn, seen: set<string>): set<string> { SeenAt(t, seen, |t.ms|, 0) }

  // ---- The loops, over per-session memory ----

  class Gate {
    var seen: map<string, set<string>>
    var prev: set<string>

    constructor ()
      ensures seen == map[] && prev == {}
    {
      seen, prev := map[], {};
    }

    function SeenOf(session: string): set<string>
      reads this
    {
      if session in seen then seen[session] else {}
    }

    /** `_is_rebuild_boundary`: only a session's first turn counts. */
    method IsRebuildBoundary(session: string) returns (first: bool)
      modifies this
      ensures first == (session !in old(prev)) && prev == old(prev) + {session} && seen == old(seen)
    {
      first := session !in prev;
      prev := prev + {session};
    }

    /** `_offload_gated`. Other sessions are not touched. */
    method OffloadGated(policy: Policy, body: Body, session: string) returns (out: Body)
      modifies this
      ensures body.messages == [] ==> out == body && seen == old(seen) && prev == old(prev)
      ensures body.messages != [] ==>
        var t := Turn(policy, body.messages, session !in old(prev));
        && out == body.(messages := ForwardedMessages(t, old(SeenOf(session))))
        && seen == old(seen)[session := SeenAfter(t, old(SeenOf(session)))]
        && prev == old(prev) + {session}
    {
      if body.messages == [] {
        return body;
      }
      var boundary := IsRebuildBoundary(session);
      var t := Turn(policy, body.messages, boundary);
      ghost var start := SeenOf(session);
      var now := SeenOf(session);
      var messages: seq<Message> := [];
      var i := 0;
      while i < |t.ms|
        invariant 0 <= i <= |t.ms|
        invariant messages == ForwardedMessages(t, start)[..i]
        invariant now == SeenAt(t, start, i, 0)
        invariant seen == old(seen) && prev == old(prev) + {session}
      {
        var m := t.ms[i];
        var blocks;
        blocks, now := OffloadMessage(t, start, i, now);
        var next := if m.content.Blocks? then m.(content := Blocks(blocks)) else m;
        assert m.content.Blocks? ==> blocks == ForwardedMessage(t, start, i).content.blocks;
        messages := messages + [next];
        i := i + 1;
      }
      seen := seen[session := now];
      out := body.(messages := messages);
    }
  }

  /** The inner loop: one message, block by block. */
  method OffloadMessage(t: Turn, ghost start: set<string>, i: nat, now: set<string>)
    returns (blocks: seq<Json>, after: set<string>)
    requires i < |t.ms| && now == SeenAt(t, start, i, 0)
    ensures |blocks| == |BlocksOf(t.ms[i])|
    ensures forall j :: 0 <= j < |blocks| ==> blocks[j] == Forwarded(t, start, i, j)
    ensures after == SeenAt(t, start, i + 1, 0)
  {
    blocks, after := [], now;
    var j := 0;
    var content := BlocksOf(t.ms[i]);
    while j < |content|
      invariant 0 <= j == |blocks| <= |content|
      invariant forall k :: 0 <= k < j ==> blocks[k] == Forwarded(t, start, i, k)
      invariant after == SeenAt(t, start, i, j)
    {
      var b := content[j];
      var text := Candidate(t.policy, b);
      if text.Some? && Decides(t, i, j, text.value in after) {
        after := after + {text.value};
        b := WriteDigest(b, text.value);
      }
      blocks := blocks + [b];
      j := j + 1;
    }
  }

  // ---- Markers and string shapes do not matter ----

  lemma {:induction false} CandidateUnmark(policy: Policy, b: Json)
    ensures Candidate(policy, Unmark(b)) == Candidate(policy, b)
    ensures Get(Unmark(b), ToolUseId) == Get(b, ToolUseId)
  {
  }

  lemma {:induction false} WriteDigestUnmark(b: Json, text: string)
    requires b.Obj?
    ensures Unmark(WriteDigest(b, text)) == WriteDigest(Unmark(b), text)
  {
    var c := Unmark(b);
    assert Get(c, ContentField) == Get(b, ContentField);
    if |DigestText(text)| < |text| {
      var v := if Get(b, ContentField).Str? then Str(DigestText(text)) else Arr([TextBlock(DigestText(text))]);
      assert b.fields[ContentField := v] - {CacheControl} == (b.fields - {CacheControl})[ContentField := v];
    }
  }

  lemma {:induction false} NameInUnmark(blocks: seq<Json>, id: Json)
    ensures NameIn(UnmarkAll(blocks), id) == NameIn(blocks, id)
  {
    if blocks != [] {
      var n := |blocks| - 1;
      NameInUnmark(blocks[..n], id);
      NamesUnmark(blocks[n], id);
      var cleaned := UnmarkAll(blocks);
      assert cleaned[..n] == UnmarkAll(blocks[..n]) && cleaned[n] == Unmark(blocks[n]);
    }
  }

  lemma {:induction false} NamesUnmark(b: Json, id: Json)
    ensures IsType(Unmark(b), "tool_use") == IsType(b, "tool_use")
    ensures Get(Unmark(b), Id) == Get(b, Id) && Get(Unmark(b), Name) == Get(b, Name)
  {
  }

  lemma {:induction false} NameInClean(m: Message, id: Json)
    ensures NameIn(BlocksOf(CleanMessage(m)), id) == NameIn(BlocksOf(m), id)
  {
    match m.content
    case Absent =>
    case Text(text) =>
      assert NameIn([TextBlock(text)], id) == NameIn([TextBlock(text)][..0], id);
    case Blocks(blocks) => NameInUnmark(blocks, id);
  }

  lemma {:induction false} NameOfClean(ms: seq<Message>, id: Json)
    ensures NameOf(CleanMessages(ms), id) == NameOf(ms, id)
  {
    if ms != [] {
      var n := |ms| - 1;
      NameOfClean(ms[..n], id);
      NameInClean(ms[n], id);
      var cleaned := CleanMessages(ms);
      assert cleaned[..n] == CleanMessages(ms[..n]) && cleaned[n] == CleanMessage(ms[n]);
    }
  }

  function CleanTurn(t: Turn): Turn { t.(ms := CleanMessages(t.ms)) }

  lemma {:induction false} DecidesClean(t: Turn, i: nat, j: nat, prior: bool)
    requires InRange(t, i, j)
    ensures InRange(CleanTurn(t), i, j) && BlockOf(CleanTurn(t), i, j) == Unmark(BlockOf(t, i, j))
    ensures Decides(CleanTurn(t), i, j, prior) == Decides(t, i, j, prior)
  {
    var b := BlockOf(t, i, j);
    assert CleanMessages(t.ms)[i] == CleanMessage(t.ms[i]);
    CandidateUnmark(t.policy, b);
    NameOfClean(t.ms, Get(b, ToolUseId));
  }

  lemma {:induction false} SeenCleanStep(t: Turn, seen: set<string>, i: nat, j: nat)
    requires InRange(t, i, j) && InRange(CleanTurn(t), i, j)
    requires SeenAt(CleanTurn(t), seen, i, j) == SeenAt(t, seen, i, j)
    ensures ConvertsAt(CleanTurn(t), seen, i, j) == ConvertsAt(t, seen, i, j)
    ensures SeenAt(CleanTurn(t), seen, i, j + 1) == SeenAt(t, seen, i, j + 1)
  {
    DecidesClean(t, i, j, true);
    DecidesClean(t, i, j, false);
    CandidateUnmark(t.policy, BlockOf(t, i, j));
  }

  lemma {:induction false} SameCount(t: Turn, i: nat)
    requires i < |t.ms|
    ensures CleanTurn(t).ms[i] == CleanMessage(t.ms[i])
    ensures t.ms[i].content.Blocks? ==> |BlocksOf(CleanTurn(t).ms[i])| == |BlocksOf(t.ms[i])|
  {
  }

  lemma {:induction false} SeenClean(t: Turn, seen: set<string>, i: nat, j: nat)
    requires i <= |t.ms| && (j == 0 || (i < |t.ms| && j <= |BlocksOf(t.ms[i])|))
    ensures j == 0 || j <= |BlocksOf(CleanTurn(t).ms[i])|
    ensures SeenAt(CleanTurn(t), seen, i, j) == SeenAt(t, seen, i, j)
    decreases i, j
  {
    if j > 0 {
      SameCount(t, i);
      SeenClean(t, seen, i, j - 1);
      SeenCleanStep(t, seen, i, j - 1);
    } else if i > 0 {
      SameCount(t, i - 1);
      SeenClean(t, seen, i - 1, |BlocksOf(t.ms[i - 1])|);
      if t.ms[i - 1].content.Text? {
        PlainTextPasses(CleanTurn(t), seen, i - 1);
      }
    }
  }

  /** A normalised string is a text block, which the gate passes over. */
  lemma {:induction false} PlainTextPasses(t: Turn, seen: set<string>, i: nat)
    requires i < |t.ms| && exists text :: BlocksOf(t.ms[i]) == [TextBlock(text)]
    ensures SeenAt(t, seen, i, 1) == SeenAt(t, seen, i, 0)
  {
    assert Get(BlockOf(t, i, 0), Type) == Str("text");
    assert "text" != "tool_result";
    assert Candidate(t.policy, BlockOf(t, i, 0)).None?;
  }

  lemma {:induction false} BlockClean(t: Turn, seen: set<string>, i: nat, j: nat)
    requires InRange(t, i, j)
    ensures InRange(CleanTurn(t), i, j) && Unmark(Forwarded(t, seen, i, j)) == Forwarded(CleanTurn(t), seen, i, j)
  {
    var b := BlockOf(t, i, j);
    DecidesClean(t, i, j, true);
    SeenClean(t, seen, i, j);
    SeenCleanStep(t, seen, i, j);
    CandidateUnmark(t.policy, b);
    if ConvertsAt(t, seen, i, j) {
      WriteDigestUnmark(b, Candidate(t.policy, b).value);
    }
  }

  lemma {:induction false} TextClean(t: Turn, seen: set<string>, i: nat)
    requires i < |t.ms| && t.ms[i].content.Text?
    ensures ForwardedMessage(CleanTurn(t), seen, i) == CleanMessage(t.ms[i])
  {
    var c, text := CleanTurn(t), t.ms[i].content.text;
    assert c.ms[i] == CleanMessage(t.ms[i]);
    assert Get(TextBlock(text), Type) == Str("text") && "text" != "tool_result";
    assert Forwarded(c, seen, i, 0) == TextBlock(text);
    assert ForwardedMessage(c, seen, i).content.blocks == [TextBlock(text)];
  }

  lemma {:induction false} BlocksClean(t: Turn, seen: set<string>, i: nat)
    requires i < |t.ms| && t.ms[i].content.Blocks?
    ensures CleanMessage(ForwardedMessage(t, seen, i)) == ForwardedMessage(CleanTurn(t), seen, i)
  {
    var c, blocks := CleanTurn(t), t.ms[i].content.blocks;
    assert c.ms[i] == CleanMessage(t.ms[i]);
    var f := ForwardedMessage(t, seen, i).content.blocks;
    var g := ForwardedMessage(c, seen, i).content.blocks;
    forall j | 0 <= j < |blocks| ensures UnmarkAll(f)[j] == g[j] {
      BlockClean(t, seen, i, j);
    }
    assert UnmarkAll(f) == g;
  }

  /** Clearing markers before or after the offload comes to the same. */
  lemma {:induction false} ForwardedClean(t: Turn, seen: set<string>, i: nat)
    requires i < |t.ms|
    ensures CleanMessage(ForwardedMessage(t, seen, i)) == ForwardedMessage(CleanTurn(t), seen, i)
    ensures SeenAfter(CleanTurn(t), seen) == SeenAfter(t, seen)
  {
    SeenClean(t, seen, |t.ms|, 0);
    assert CleanTurn(t).ms[i] == CleanMessage(t.ms[i]);
    match t.ms[i].content
    case Absent =>
    case Text(_) => TextClean(t, seen, i);
    case Blocks(_) => BlocksClean(t, seen, i);
  }

  // ---- One turn, when texts are distinct ----

  function TextAt(t: Turn, i: nat, j: nat): Option<string>
    requires InRange(t, i, j)
  {
    Candidate(t.policy, BlockOf(t, i, j))
  }

  /** No two tool results over the floor carry the same text. */
  ghost predicate DistinctTexts(t: Turn) {
    forall i, j, k, l ::
      (InRange(t, i, j) && InRange(t, k, l) && (i != k || j != l) && TextAt(t, i, j).Some? && TextAt(t, k, l).Some?) ==>
        TextAt(t, i, j) != TextAt(t, k, l)
  }

  predicate Earlier(i: nat, j: nat, k: nat, l: nat) { i < k || (i == k && j < l) }

  /** A text is known at some point of the turn exactly when it was known at its start or its own block has
      been converted by then. */
  lemma {:induction false} Known(t: Turn, seen: set<string>, x: nat, y: nat, i: nat, j: nat)
    requires DistinctTexts(t) && InRange(t, x, y) && TextAt(t, x, y).Some?
    requires i <= |t.ms| && (j == 0 || (i < |t.ms| && j <= |BlocksOf(t.ms[i])|))
    ensures TextAt(t, x, y).value in SeenAt(t, seen, i, j)
       <==> TextAt(t, x, y).value in seen || (Earlier(x, y, i, j) && ConvertsAt(t, seen, x, y))
    decreases i, j
  {
    if j > 0 {
      Known(t, seen, x, y, i, j - 1);
      assert TextAt(t, i, j - 1).Some? && (i != x || j - 1 != y) ==> TextAt(t, i, j - 1) != TextAt(t, x, y);
    } else if i > 0 {
      Known(t, seen, x, y, i - 1, |BlocksOf(t.ms[i - 1])|);
    }
  }

  /** So a block is decided by what the session knew when the turn began, and is known afterwards if it was
      known or is converted. */
  lemma {:induction false} DecidedAtStart(t: Turn, seen: set<string>, i: nat, j: nat)
    requires DistinctTexts(t) && InRange(t, i, j) && TextAt(t, i, j).Some?
    ensures ConvertsAt(t, seen, i, j) == Decides(t, i, j, TextAt(t, i, j).value in seen)
    ensures TextAt(t, i, j).value in SeenAfter(t, seen)
       <==> TextAt(t, i, j).value in seen || ConvertsAt(t, seen, i, j)
  {
    Known(t, seen, i, j, i, j);
    Known(t, seen, i, j, |t.ms|, 0);
  }

  /** What is known stays known. */
  lemma {:induction false} SeenGrows(t: Turn, seen: set<string>, i: nat, j: nat)
    requires i <= |t.ms| && (j == 0 || (i < |t.ms| && j <= |BlocksOf(t.ms[i])|))
    ensures seen <= SeenAt(t, seen, i, j)
    decreases i, j
  {
    if j > 0 {
      SeenGrows(t, seen, i, j - 1);
    } else if i > 0 {
      SeenGrows(t, seen, i - 1, |BlocksOf(t.ms[i - 1])|);
    }
  }

  /** Nothing flips back: a text that was converted once is converted wherever it appears again, whatever
      its distance, unless its tool is on the verbatim list. */
  lemma {:induction false} NeverFlipsBack(t: Turn, seen: set<string>, i: nat, j: nat)
    requires InRange(t, i, j) && TextAt(t, i, j).Some? && TextAt(t, i, j).value in seen
    requires !(t.policy.honourVerbatim && t.policy.isVerbatim(NameOf(t.ms, Get(BlockOf(t, i, j), ToolUseId))))
    ensures ConvertsAt(t, seen, i, j)
    ensures Forwarded(t, seen, i, j) == WriteDigest(BlockOf(t, i, j), TextAt(t, i, j).value)
    ensures TextAt(t, i, j).value in SeenAfter(t, seen)
  {
    SeenGrows(t, seen, i, j);
    SeenGrows(t, seen, |t.ms|, 0);
  }

  // ---- Whole sessions ----

  /** What a session remembers: the converted texts, and whether it has had a turn. */
  datatype Memory = Memory(seen: set<string>, started: bool)

  function TurnOf(policy: Policy, memory: Memory, ms: seq<Message>): Turn { Turn(policy, ms, !memory.started) }

  function Remember(policy: Policy, memory: Memory, ms: seq<Message>): Memory {
    if ms == [] then memory else Memory(SeenAfter(TurnOf(policy, memory, ms), memory.seen), true)
  }

  function Send(policy: Policy, memory: Memory, ms: seq<Message>): (r: seq<Message>)
    ensures |r| == |ms|
  {
    if ms == [] then ms else ForwardedMessages(TurnOf(policy, memory, ms), memory.seen)
  }

  /** The memory before turn `k`. */
  function MemoryAt(policy: Policy, turns: seq<seq<Message>>, k: nat): Memory
    requires k <= |turns|
  {
    if k == 0 then Memory({}, false) else Remember(policy, MemoryAt(policy, turns, k - 1), turns[k - 1])
  }

  function SentAt(policy: Policy, turns: seq<seq<Message>>, k: nat): (r: seq<Message>)
    requires k < |turns|
    ensures |r| == |turns[k]|
  {
    Send(policy, MemoryAt(policy, turns, k), turns[k])
  }

  /** No tool call that is appended takes an id some earlier result refers to. */
  ghost predicate FreshIds(a: seq<Message>, b: seq<Message>)
    requires |a| <= |b|
  {
    forall i, j, k, l ::
      (0 <= i < |a| && 0 <= j < |BlocksOf(a[i])| && |a| <= k < |b| && 0 <= l < |BlocksOf(b[k])| &&
       IsType(BlocksOf(a[i])[j], "tool_result") && IsType(BlocksOf(b[k])[l], "tool_use")) ==>
        Get(BlocksOf(b[k])[l], Id) != Get(BlocksOf(a[i])[j], ToolUseId)
  }

  lemma {:induction false} NotNamed(blocks: seq<Json>, id: Json)
    requires forall l :: 0 <= l < |blocks| ==> !(IsType(blocks[l], "tool_use") && Get(blocks[l], Id) == id)
    ensures NameIn(blocks, id).None?
  {
    if blocks != [] {
      NotNamed(blocks[..|blocks| - 1], id);
    }
  }

  lemma {:induction false} NameStable(a: seq<Message>, b: seq<Message>, i: nat, j: nat)
    requires a <= b && FreshIds(a, b) && i < |a| && j < |BlocksOf(a[i])| && IsType(BlocksOf(a[i])[j], "tool_result")
    ensures var id := Get(BlocksOf(a[i])[j], ToolUseId); NameOf(b, id) == NameOf(a, id)
  {
    var id := Get(BlocksOf(a[i])[j], ToolUseId);
    forall k | |a| <= k < |b| ensures NameIn(BlocksOf(b[k]), id).None? {
      NotNamed(BlocksOf(b[k]), id);
    }
    NameUpTo(b, id, |a|);
    assert b[..|a|] == a;
  }

  lemma {:induction false} NameUpTo(ms: seq<Message>, id: Json, n: nat)
    requires n <= |ms| && forall k :: n <= k < |ms| ==> NameIn(BlocksOf(ms[k]), id).None?
    ensures NameOf(ms, id) == NameOf(ms[..n], id)
  {
    if n < |ms| {
      var shorter := ms[..|ms| - 1];
      assert shorter[..n] == ms[..n];
      NameUpTo(shorter, id, n);
    } else {
      assert ms[..n] == ms;
    }
  }

  // ---- Nothing flips back ----

  lemma {:induction false} RememberGrows(policy: Policy, memory: Memory, ms: seq<Message>)
    ensures memory.seen <= Remember(policy, memory, ms).seen
  {
    if ms != [] {
      SeenGrows(TurnOf(policy, memory, ms), memory.seen, |ms|, 0);
    }
  }

  lemma {:induction false} MemoryGrows(policy: Policy, turns: seq<seq<Message>>, k: nat, m: nat)
    requires k <= m <= |turns|
    ensures MemoryAt(policy, turns, k).seen <= MemoryAt(policy, turns, m).seen
    decreases m
  {
    if k < m {
      MemoryGrows(policy, turns, k, m - 1);
      RememberGrows(policy, MemoryAt(policy, turns, m - 1), turns[m - 1]);
    }
  }

  /** A text that is converted at some point of a turn is known at every later point of it. */
  lemma {:induction false} ConvertedIsKnown(t: Turn, seen: set<string>, x: nat, y: nat, i: nat, j: nat)
    requires InRange(t, x, y) && ConvertsAt(t, seen, x, y) && Earlier(x, y, i, j)
    requires i <= |t.ms| && (j == 0 || (i < |t.ms| && j <= |BlocksOf(t.ms[i])|))
    ensures TextAt(t, x, y).Some? && TextAt(t, x, y).value in SeenAt(t, seen, i, j)
    decreases i, j
  {
    if j > 0 {
      if i != x || j - 1 != y {
        ConvertedIsKnown(t, seen, x, y, i, j - 1);
      }
    } else if i - 1 != x || |BlocksOf(t.ms[x])| != 0 {
      ConvertedIsKnown(t, seen, x, y, i - 1, |BlocksOf(t.ms[i - 1])|);
    }
  }

  lemma {:induction false} ConvertedIsRemembered(policy: Policy, turns: seq<seq<Message>>, k: nat, m: nat, i: nat,
                                                 j: nat, memory: Memory, text: string)
    requires k < m <= |turns| && memory == MemoryAt(policy, turns, k)
    requires var t := TurnOf(policy, memory, turns[k]);
             InRange(t, i, j) && ConvertsAt(t, memory.seen, i, j) && TextAt(t, i, j) == Some(text)
    ensures text in MemoryAt(policy, turns, m).seen
  {
    ConvertedIsKnown(TurnOf(policy, memory, turns[k]), memory.seen, i, j, |turns[k]|, 0);
    MemoryGrows(policy, turns, k + 1, m);
  }

  /** Nothing ever flips back: a block that was converted on one turn is converted to the same bytes on every
      later turn that still has it, at any distance from the tail and whatever the turns in between held. */
  lemma {:induction false} ConvertedForGood(policy: Policy, turns: seq<seq<Message>>, k: nat, m: nat, i: nat, j: nat,
                                            a: Memory, b: Memory)
    requires k < m < |turns| && turns[k] <= turns[m] && FreshIds(turns[k], turns[m])
    requires a == MemoryAt(policy, turns, k) && b == MemoryAt(policy, turns, m)
    requires InRange(TurnOf(policy, a, turns[k]), i, j) && ConvertsAt(TurnOf(policy, a, turns[k]), a.seen, i, j)
    ensures InRange(TurnOf(policy, b, turns[m]), i, j) && ConvertsAt(TurnOf(policy, b, turns[m]), b.seen, i, j)
    ensures Forwarded(TurnOf(policy, b, turns[m]), b.seen, i, j) == Forwarded(TurnOf(policy, a, turns[k]), a.seen, i, j)
  {
    var ta, tb := TurnOf(policy, a, turns[k]), TurnOf(policy, b, turns[m]);
    assert turns[m][i] == turns[k][i];
    var text := TextAt(ta, i, j).value;
    ConvertedIsRemembered(policy, turns, k, m, i, j, a, text);
    NameStable(turns[k], turns[m], i, j);
    NeverFlipsBack(tb, b.seen, i, j);
  }

  lemma {:induction false} DigestChanges(b: Json, text: string)
    requires ToolText(b) == Some(text) && b.Obj?
    ensures WriteDigest(b, text) != b <==> |DigestText(text)| < |text|
  {
    if |DigestText(text)| < |text| {
      var digest := DigestText(text);
      var v := Get(WriteDigest(b, text), ContentField);
      if Get(b, ContentField).Str? {
        assert v == Str(digest) && Get(b, ContentField) == Str(text);
      } else {
        assert v == Arr([TextBlock(digest)]);
        OneTextBlock(digest);
      }
    }
  }

  lemma {:induction false} OneTextBlock(text: string)
    ensures JoinText([TextBlock(text)]) == text
  {
    assert [TextBlock(text)][1..] == [];
    assert JoinText([TextBlock(text)]) == text + "";
  }

  /** So a block goes out differently on a later turn if and only if it was held back on the earlier one, is
      converted on the later one, and the preview is shorter than the text. */
  lemma {:induction false} BlockChanges(policy: Policy, turns: seq<seq<Message>>, k: nat, m: nat, i: nat, j: nat,
                                        a: Memory, b: Memory)
    requires k < m < |turns| && turns[k] <= turns[m] && FreshIds(turns[k], turns[m])
    requires a == MemoryAt(policy, turns, k) && b == MemoryAt(policy, turns, m)
    requires InRange(TurnOf(policy, a, turns[k]), i, j)
    ensures InRange(TurnOf(policy, b, turns[m]), i, j)
    ensures var ta, tb := TurnOf(policy, a, turns[k]), TurnOf(policy, b, turns[m]);
            (Forwarded(tb, b.seen, i, j) != Forwarded(ta, a.seen, i, j) <==>
               (!ConvertsAt(ta, a.seen, i, j) && ConvertsAt(tb, b.seen, i, j) &&
                |DigestText(TextAt(tb, i, j).value)| < |TextAt(tb, i, j).value|))
  {
    var ta, tb := TurnOf(policy, a, turns[k]), TurnOf(policy, b, turns[m]);
    assert turns[m][i] == turns[k][i];
    if ConvertsAt(ta, a.seen, i, j) {
      ConvertedForGood(policy, turns, k, m, i, j, a, b);
    } else if ConvertsAt(tb, b.seen, i, j) {
      DigestChanges(BlockOf(tb, i, j), TextAt(tb, i, j).value);
    }
  }

  // ---- A whole session ----

  /** A session as the gate sees it, markers and string shapes aside: each turn appends to the one before. */
  ghost predicate Session(policy: Policy, turns: seq<seq<Message>>) {
    && (forall k, m :: 0 <= k < m < |turns| ==> Linked(turns, k, m))
    && (forall k, boundary :: 0 <= k < |turns| ==> DistinctAt(policy, turns, k, boundary))
  }

  ghost predicate Linked(turns: seq<seq<Message>>, k: nat, m: nat)
    requires k < m < |turns|
  {
    turns[k] <= turns[m] && FreshIds(turns[k], turns[m])
  }

  ghost predicate DistinctAt(policy: Policy, turns: seq<seq<Message>>, k: nat, boundary: bool)
    requires k < |turns|
  {
    DistinctTexts(Turn(policy, turns[k], boundary))
  }

  /** The state a block is in once it is four or more messages from the tail: known and always converted, or
      unknown and never converted again. */
  ghost predicate Settled(policy: Policy, memory: Memory, ms: seq<Message>, i: nat, j: nat, converted: bool)
    requires i < |ms| && j < |BlocksOf(ms[i])|
  {
    var c := Candidate(policy, BlocksOf(ms[i])[j]);
    && memory.started
    && (c.Some? ==>
          var verbatim := policy.honourVerbatim && policy.isVerbatim(NameOf(ms, Get(BlocksOf(ms[i])[j], ToolUseId)));
          if converted then !verbatim && c.value in memory.seen
          else verbatim || (c.value !in memory.seen && policy.honourBoundary
                            && |ms| - 1 - i >= STALE_MARGIN + STALE_WINDOW))
    && (c.None? ==> !converted)
  }

  lemma {:induction false} SettledKeeps(policy: Policy, memory: Memory, ms: seq<Message>, i: nat, j: nat,
                                        converted: bool)
    requires i < |ms| && j < |BlocksOf(ms[i])| && DistinctTexts(TurnOf(policy, memory, ms))
    requires Settled(policy, memory, ms, i, j, converted)
    ensures ConvertsAt(TurnOf(policy, memory, ms), memory.seen, i, j) == converted
    ensures Settled(policy, Remember(policy, memory, ms), ms, i, j, converted)
  {
    var t := TurnOf(policy, memory, ms);
    if TextAt(t, i, j).Some? {
      DecidedAtStart(t, memory.seen, i, j);
      SeenGrows(t, memory.seen, |ms|, 0);
      DecidedAtStart(Turn(policy, ms, false), memory.seen, i, j);
    }
  }

  /** A block that has just been handled at distance four or more is settled. */
  lemma {:induction false} Settles(policy: Policy, memory: Memory, ms: seq<Message>, i: nat, j: nat)
    requires i < |ms| && j < |BlocksOf(ms[i])| && |ms| - 1 - i >= STALE_MARGIN
    requires DistinctTexts(TurnOf(policy, memory, ms))
    ensures Settled(policy, Remember(policy, memory, ms), ms, i, j,
                    ConvertsAt(TurnOf(policy, memory, ms), memory.seen, i, j))
  {
    var t := TurnOf(policy, memory, ms);
    if TextAt(t, i, j).Some? {
      DecidedAtStart(t, memory.seen, i, j);
      SeenGrows(t, memory.seen, |ms|, 0);
    }
  }

  /** Appending messages leaves a settled block settled. */
  lemma {:induction false} SettledGrows(policy: Policy, memory: Memory, a: seq<Message>, b: seq<Message>, i: nat,
                                        j: nat, converted: bool)
    requires a <= b && FreshIds(a, b) && i < |a| && j < |BlocksOf(a[i])|
    requires Settled(policy, memory, a, i, j, converted)
    ensures Settled(policy, memory, b, i, j, converted)
  {
    assert b[i] == a[i];
    if Candidate(policy, BlocksOf(a[i])[j]).Some? {
      NameStable(a, b, i, j);
    }
  }

  lemma {:induction false} SettledNext(policy: Policy, memory: Memory, ms: seq<Message>, next: seq<Message>, i: nat,
                                       j: nat, converted: bool)
    requires ms <= next && FreshIds(ms, next) && i < |ms| && j < |BlocksOf(ms[i])|
    requires DistinctTexts(TurnOf(policy, memory, ms)) && Settled(policy, memory, ms, i, j, converted)
    ensures Settled(policy, Remember(policy, memory, ms), next, i, j, converted)
  {
    SettledKeeps(policy, memory, ms, i, j, converted);
    SettledGrows(policy, Remember(policy, memory, ms), ms, next, i, j, converted);
  }

  lemma {:induction false} SettledFirst(policy: Policy, memory: Memory, ms: seq<Message>, next: seq<Message>, i: nat,
                                        j: nat)
    requires ms <= next && FreshIds(ms, next) && i < |ms| && j < |BlocksOf(ms[i])| && |ms| - 1 - i >= STALE_MARGIN
    requires DistinctTexts(TurnOf(policy, memory, ms))
    ensures Settled(policy, Remember(policy, memory, ms), next, i, j,
                    ConvertsAt(TurnOf(policy, memory, ms), memory.seen, i, j))
  {
    Settles(policy, memory, ms, i, j);
    SettledGrows(policy, Remember(policy, memory, ms), ms, next, i, j,
                 ConvertsAt(TurnOf(policy, memory, ms), memory.seen, i, j));
  }

  lemma {:induction false} SettledStep(policy: Policy, turns: seq<seq<Message>>, m: nat, i: nat, j: nat,
                                       before: Memory, converted: bool)
    requires Session(policy, turns) && m + 1 < |turns| && i < |turns[m]| && j < |BlocksOf(turns[m][i])|
    requires Settled(policy, before, turns[m], i, j, converted)
    ensures i < |turns[m + 1]| && turns[m + 1][i] == turns[m][i]
    ensures Settled(policy, Remember(policy, before, turns[m]), turns[m + 1], i, j, converted)
  {
    SessionStep(policy, turns, m, m + 1, before);
    SettledNext(policy, before, turns[m], turns[m + 1], i, j, converted);
  }

  ghost predicate SettledAt(policy: Policy, turns: seq<seq<Message>>, i: nat, j: nat, converted: bool, memory: Memory,
                            n: nat)
  {
    && n < |turns| && i < |turns[n]| && j < |BlocksOf(turns[n][i])|
    && Settled(policy, memory, turns[n], i, j, converted)
  }

  lemma {:induction false} SettledKept(policy: Policy, turns: seq<seq<Message>>, i: nat, j: nat, converted: bool,
                                       memory: Memory, n: nat)
    requires Session(policy, turns) && n + 1 < |turns| && SettledAt(policy, turns, i, j, converted, memory, n)
    ensures SettledAt(policy, turns, i, j, converted, Remember(policy, memory, turns[n]), n + 1)
  {
    SettledStep(policy, turns, n, i, j, memory, converted);
  }

  /** Settled once, settled on every later turn. */
  lemma {:induction false} SettledFrom(policy: Policy, turns: seq<seq<Message>>, k: nat, m: nat, i: nat, j: nat,
                                       converted: bool)
    requires Session(policy, turns) && k <= m < |turns|
    requires SettledAt(policy, turns, i, j, converted, MemoryAt(policy, turns, k), k)
    ensures SettledAt(policy, turns, i, j, converted, MemoryAt(policy, turns, m), m)
    decreases m
  {
    if k < m {
      SettledFrom(policy, turns, k, m - 1, i, j, converted);
      SettledKept(policy, turns, i, j, converted, MemoryAt(policy, turns, m - 1), m - 1);
      MemoryStep(policy, turns, m);
    }
  }

  lemma {:induction false} MemoryStep(policy: Policy, turns: seq<seq<Message>>, m: nat)
    requires 0 < m <= |turns|
    ensures MemoryAt(policy, turns, m) == Remember(policy, MemoryAt(policy, turns, m - 1), turns[m - 1])
  {
  }

  lemma {:induction false} SettlesAt(policy: Policy, turns: seq<seq<Message>>, k: nat, i: nat, j: nat, a: Memory,
                                     converted: bool)
    requires Session(policy, turns) && k + 1 < |turns| && i < |turns[k]| && |turns[k]| - 1 - i >= STALE_MARGIN
    requires a == MemoryAt(policy, turns, k) && j < |BlocksOf(turns[k][i])|
    requires converted == ConvertsAt(TurnOf(policy, a, turns[k]), a.seen, i, j)
    ensures SettledAt(policy, turns, i, j, converted, MemoryAt(policy, turns, k + 1), k + 1)
  {
    SessionStep(policy, turns, k, k + 1, a);
    SettledFirst(policy, a, turns[k], turns[k + 1], i, j);
  }

  lemma {:induction false} SettledConverts(policy: Policy, turns: seq<seq<Message>>, m: nat, i: nat, j: nat, b: Memory,
                                           converted: bool)
    requires Session(policy, turns) && SettledAt(policy, turns, i, j, converted, b, m)
    ensures ConvertsAt(TurnOf(policy, b, turns[m]), b.seen, i, j) == converted
  {
    assert DistinctAt(policy, turns, m, !b.started);
    SettledKeeps(policy, b, turns[m], i, j, converted);
  }

  lemma {:induction false} BlockFrozen(policy: Policy, turns: seq<seq<Message>>, k: nat, m: nat, i: nat, j: nat,
                                       a: Memory, b: Memory, converted: bool)
    requires Session(policy, turns) && k < m < |turns| && i < |turns[k]| && |turns[k]| - 1 - i >= STALE_MARGIN
    requires j < |BlocksOf(turns[k][i])| && i < |turns[m]| && turns[m][i] == turns[k][i]
    requires a == MemoryAt(policy, turns, k) && b == MemoryAt(policy, turns, m)
    requires converted == ConvertsAt(TurnOf(policy, a, turns[k]), a.seen, i, j)
    ensures ConvertsAt(TurnOf(policy, b, turns[m]), b.seen, i, j) == converted
  {
    SettlesAt(policy, turns, k, i, j, a, converted);
    SettledFrom(policy, turns, k + 1, m, i, j, converted);
    SettledConverts(policy, turns, m, i, j, b, converted);
  }

  lemma {:induction false} SessionStep(policy: Policy, turns: seq<seq<Message>>, k: nat, m: nat, memory: Memory)
    requires Session(policy, turns) && k < m < |turns|
    ensures turns[k] <= turns[m] && FreshIds(turns[k], turns[m])
    ensures DistinctTexts(TurnOf(policy, memory, turns[k]))
  {
    assert Linked(turns, k, m);
    assert DistinctAt(policy, turns, k, !memory.started);
  }

  /** History is frozen: once a message is four or more from the tail, what is forwarded for it is the same
      on every later turn, for every arm. */
  lemma {:induction false} HistoryFrozen(policy: Policy, turns: seq<seq<Message>>, k: nat, m: nat, i: nat)
    requires Session(policy, turns) && k < m < |turns| && i < |turns[k]| && |turns[k]| - 1 - i >= STALE_MARGIN
    ensures i < |turns[m]| && SentAt(policy, turns, m)[i] == SentAt(policy, turns, k)[i]
  {
    var a, b := MemoryAt(policy, turns, k), MemoryAt(policy, turns, m);
    SameMessage(policy, turns, k, m, i);
    var x := ForwardedMessage(TurnOf(policy, a, turns[k]), a.seen, i);
    var y := ForwardedMessage(TurnOf(policy, b, turns[m]), b.seen, i);
    if turns[k][i].content.Blocks? {
      forall j | 0 <= j < |BlocksOf(turns[k][i])| ensures x.content.blocks[j] == y.content.blocks[j] {
        BlockFrozen(policy, turns, k, m, i, j, a, b, ConvertsAt(TurnOf(policy, a, turns[k]), a.seen, i, j));
      }
      assert x.content.blocks == y.content.blocks;
    }
  }

  lemma {:induction false} SameMessage(policy: Policy, turns: seq<seq<Message>>, k: nat, m: nat, i: nat)
    requires Session(policy, turns) && k < m < |turns| && i < |turns[k]|
    ensures i < |turns[m]| && turns[m][i] == turns[k][i]
  {
    assert Linked(turns, k, m);
  }
}
