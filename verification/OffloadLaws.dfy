/** What the gated offload sends in place of a tool result, and when, in literal terms. */
module OffloadLaws {
  import opened Wire
  import opened Markers
  import opened Offload

  // ---- What a preview holds ----

  const FOOTER_TEXT := "\n\U{2026}[truncated \U{2014} retrieval pointer below]\n<headroom:offloaded "

  /** How much of a text of length `n` is shown. */
  function Shown(n: nat): nat { if n / 4 < 600 then 600 else if n / 4 > 3072 then 3072 else n / 4 }

  /** The text is cut after what is shown, and the footer follows, filled up to 180 characters. */
  ghost predicate IsPreview(preview: string, text: string) {
    var keep := Shown(|text|);
    && keep <= |text| && |preview| == keep + 180 && |preview| < |text|
    && preview[..keep] == text[..keep]
    && preview[keep..keep + |FOOTER_TEXT|] == FOOTER_TEXT
    && forall i :: keep + |FOOTER_TEXT| <= i < |preview| ==> preview[i] == 'x'
  }

  lemma {:induction false} FooterIs()
    ensures |FOOTER_TEXT| <= 180 && |Footer()| == 180 && Footer()[..|FOOTER_TEXT|] == FOOTER_TEXT
    ensures forall i :: |FOOTER_TEXT| <= i < 180 ==> Footer()[i] == 'x'
  {
  }

  lemma {:induction false} DigestIsPreview(text: string)
    requires |DigestText(text)| < |text|
    ensures IsPreview(DigestText(text), text)
  {
    FooterIs();
    var keep, preview := Shown(|text|), DigestText(text);
    assert keep <= |text|;
    assert preview == text[..keep] + Footer();
    assert preview[keep..keep + |FOOTER_TEXT|] == Footer()[..|FOOTER_TEXT|];
    forall i | keep + |FOOTER_TEXT| <= i < |preview| ensures preview[i] == 'x' {
      assert preview[i] == Footer()[i - keep];
    }
  }

  /** The same block but for its text, in the form the text had. */
  ghost predicate Rewritten(out: Json, b: Json, preview: string) {
    && b.Obj? && out.Obj?
    && out.fields.Keys == b.fields.Keys + {ContentField}
    && (forall key :: key in b.fields && key != ContentField ==> out.fields[key] == b.fields[key])
    && out.fields[ContentField]
       == if Get(b, ContentField).Str? then Str(preview)
          else Arr([Obj(map[Type := Str("text"), TextField := Str(preview)])])
  }

  lemma {:induction false} WrittenAs(b: Json, text: string)
    requires b.Obj? && |DigestText(text)| < |text|
    ensures Rewritten(WriteDigest(b, text), b, DigestText(text))
  {
  }

  /** A tool result that goes out changed goes out as a shorter preview of its own text, and is otherwise the
      client's. */
  lemma {:induction false} ChangedIsPreview(t: Turn, seen: set<string>, i: nat, j: nat)
    returns (text: string, preview: string)
    requires InRange(t, i, j) && Forwarded(t, seen, i, j) != BlockOf(t, i, j)
    ensures var b, out := BlockOf(t, i, j), Forwarded(t, seen, i, j);
            && b.Obj? && Get(b, Type) == Str("tool_result") && ToolText(b) == Some(text)
            && Rewritten(out, b, preview) && ToolText(out) == Some(preview) && IsPreview(preview, text)
  {
    var b, out := BlockOf(t, i, j), Forwarded(t, seen, i, j);
    text := Candidate(t.policy, b).value;
    preview := DigestText(text);
    assert out == WriteDigest(b, text);
    WrittenAs(b, text);
    DigestIsPreview(text);
    OneTextBlock(preview);
  }

  /** Nothing but a tool result is touched. */
  lemma {:induction false} OtherBlocksAreKept(t: Turn, seen: set<string>, i: nat, j: nat)
    requires InRange(t, i, j) && !(BlockOf(t, i, j).Obj? && Get(BlockOf(t, i, j), Type) == Str("tool_result"))
    ensures Forwarded(t, seen, i, j) == BlockOf(t, i, j)
  {
  }

  /** Messages keep their place, role and shape, and every block its place. */
  lemma {:induction false} MessagesAreKept(t: Turn, seen: set<string>, i: nat)
    requires i < |t.ms|
    ensures |ForwardedMessages(t, seen)| == |t.ms|
    ensures var out := ForwardedMessages(t, seen)[i];
            && out.role == t.ms[i].role
            && (!t.ms[i].content.Blocks? ==> out == t.ms[i])
            && (t.ms[i].content.Blocks? ==> out.content.Blocks? && |out.content.blocks| == |t.ms[i].content.blocks|)
    ensures forall j: nat :: InRange(t, i, j) ==>
      ForwardedMessages(t, seen)[i].content.Blocks?
      && j < |ForwardedMessages(t, seen)[i].content.blocks|
      && ForwardedMessages(t, seen)[i].content.blocks[j] == Forwarded(t, seen, i, j)
  {
  }

  // ---- The text of a result ----

  /** The texts of text parts, one after the other; other parts have none. */
  lemma {:induction false} JoinedInOrder(a: seq<Json>, b: seq<Json>)
    ensures JoinText(a + b) == JoinText(a) + JoinText(b)
  {
    if a == [] {
      assert a + b == b;
    } else {
      assert (a + b)[1..] == a[1..] + b;
      JoinedInOrder(a[1..], b);
    }
  }

  lemma {:induction false} JoinedParts(part: Json, text: string)
    requires part.Obj?
    ensures Get(part, Type) == Str("text") && Get(part, TextField) == Str(text) ==> JoinText([part]) == text
    ensures Get(part, Type) != Str("text") ==> JoinText([part]) == ""
  {
    assert [part][1..] == [];
    assert JoinText([]) == "";
  }

  // ---- Which results are looked at ----

  /** Those with a text of more than the floor; a text of exactly that many characters is left alone. */
  lemma {:induction false} FloorIsExclusive(policy: Policy, b: Json, text: string)
    requires b.Obj? && Get(b, Type) == Str("tool_result") && Get(b, ContentField) == Str(text)
    ensures Candidate(policy, b).Some? <==> |text| > policy.minBytes
    ensures Candidate(policy, b).Some? ==> Candidate(policy, b).value == text
  {
  }

  // ---- Which tool a result belongs to ----

  function Call(id: Json, name: Json): Json { Obj(map[Type := Str("tool_use"), Id := id, Name := name]) }

  /** The latest call with an id names it; a name that is no string counts as empty. */
  lemma {:induction false} LatestCallNames(ms: seq<Message>, role: string, id: Json, name: Json)
    ensures NameOf(ms + [Message(role, Blocks([Call(id, name)]))], id) == if name.Str? then name.s else ""
  {
    var all := ms + [Message(role, Blocks([Call(id, name)]))];
    assert all[|all| - 1] == Message(role, Blocks([Call(id, name)]));
    assert NameIn([Call(id, name)], id) == Some(if name.Str? then name.s else "");
  }

  /** A call with another id does not. */
  lemma {:induction false} OtherCallDoesNot(ms: seq<Message>, role: string, id: Json, other: Json, name: Json)
    requires id != other
    ensures NameOf(ms + [Message(role, Blocks([Call(other, name)]))], id) == NameOf(ms, id)
  {
    var all := ms + [Message(role, Blocks([Call(other, name)]))];
    assert all[..|all| - 1] == ms;
    assert [Call(other, name)][..0] == [];
    assert NameIn([Call(other, name)], id) == NameIn([], id);
  }

  /** Without any call there is no name. */
  lemma {:induction false} NoCallNoName(id: Json)
    ensures NameOf([], id) == ""
  {
  }

  // ---- When a result is converted ----

  /** A result over the floor, the tool it belongs to, and its distance from the newest message. */
  ghost predicate Result(t: Turn, i: nat, j: nat, text: string, name: string, distance: nat) {
    && InRange(t, i, j) && distance == |t.ms| - 1 - i
    && BlockOf(t, i, j).Obj? && Get(BlockOf(t, i, j), Type) == Str("tool_result")
    && ToolText(BlockOf(t, i, j)) == Some(text) && |text| > t.policy.minBytes
    && NameOf(t.ms, Get(BlockOf(t, i, j), ToolUseId)) == name
  }

  /** A verbatim tool's result never is. */
  lemma {:induction false} VerbatimIsKept(t: Turn, seen: set<string>, i: nat, j: nat, text: string, name: string,
                                          d: nat)
    requires Result(t, i, j, text, name, d) && t.policy.honourVerbatim && t.policy.isVerbatim(name)
    ensures Forwarded(t, seen, i, j) == BlockOf(t, i, j)
  {
  }

  /** An excluded tool's result is not, in the four newest messages, unless its text was before. */
  lemma {:induction false} ExcludedIsKeptNear(t: Turn, seen: set<string>, i: nat, j: nat, text: string, name: string,
                                              d: nat)
    requires Result(t, i, j, text, name, d) && t.policy.honourExclusions && t.policy.isExcluded(name)
    requires d <= 3 && text !in SeenAt(t, seen, i, j)
    ensures Forwarded(t, seen, i, j) == BlockOf(t, i, j)
  {
  }

  /** A new text eight or more messages back is not, when the boundary is honoured and this is none. */
  lemma {:induction false} DeepIsKept(t: Turn, seen: set<string>, i: nat, j: nat, text: string, name: string, d: nat)
    requires Result(t, i, j, text, name, d) && t.policy.honourBoundary && !t.boundary
    requires d >= 8 && text !in SeenAt(t, seen, i, j)
    ensures Forwarded(t, seen, i, j) == BlockOf(t, i, j)
  {
  }

  /** Every other result over the floor is, and its text is remembered; those kept are not. */
  lemma {:induction false} OthersAreConverted(t: Turn, seen: set<string>, i: nat, j: nat, text: string, name: string,
                                              d: nat)
    requires Result(t, i, j, text, name, d)
    ensures var prior := text in SeenAt(t, seen, i, j);
            var kept := || (t.policy.honourVerbatim && t.policy.isVerbatim(name))
                        || (t.policy.honourExclusions && t.policy.isExcluded(name) && d <= 3 && !prior)
                        || (t.policy.honourBoundary && !t.boundary && d >= 8 && !prior);
            && ConvertsAt(t, seen, i, j) == !kept
            && SeenAt(t, seen, i, j + 1) == SeenAt(t, seen, i, j) + if kept then {} else {text}
  {
  }

  /** Conversion shows from 781 characters on: a shorter text would not get any shorter. */
  lemma {:induction false} ConversionShows(t: Turn, seen: set<string>, i: nat, j: nat, text: string, name: string,
                                           d: nat)
    requires Result(t, i, j, text, name, d) && ConvertsAt(t, seen, i, j)
    ensures Forwarded(t, seen, i, j) != BlockOf(t, i, j) <==> |text| > 780
  {
    FooterIs();
    assert |DigestText(text)| == (if Shown(|text|) < |text| then Shown(|text|) else |text|) + 180;
    DigestChanges(BlockOf(t, i, j), text);
  }

  /** From the fourth message back on, what goes out is settled for the session. */
  lemma {:induction false} FrozenFromFour(policy: Policy, turns: seq<seq<Message>>, k: nat, m: nat, i: nat)
    requires Session(policy, turns) && k < m < |turns| && i < |turns[k]| && |turns[k]| - 1 - i >= 4
    ensures i < |turns[m]| && SentAt(policy, turns, m)[i] == SentAt(policy, turns, k)[i]
  {
    HistoryFrozen(policy, turns, k, m, i);
  }
}
