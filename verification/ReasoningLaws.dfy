/** What the two arms that hold their markers back forward of each message, and where their markers are, in
    literal terms. */
module ReasoningLaws {
  import opened Wire
  import opened Flattening
  import opened Markers
  import opened Reasoning
  import opened ReasoningRuns

  // ---- Which reasoning goes ----

  predicate Reasons(b: Json) {
    b.Obj? && Type in b.fields && (b.fields[Type] == Str("thinking") || b.fields[Type] == Str("redacted_thinking"))
  }

  /** `kept` is `all` without its reasoning blocks, in order and otherwise as it was. */
  predicate LeavesTheRest(kept: seq<Json>, all: seq<Json>)
    decreases |all|
  {
    if all == [] then kept == []
    else if Reasons(all[0]) then LeavesTheRest(kept, all[1..])
    else kept != [] && kept[0] == all[0] && LeavesTheRest(kept[1..], all[1..])
  }

  /** The newest assistant message. */
  ghost predicate IsNewestAnswer(ms: seq<Message>, last: nat) {
    last < |ms| && ms[last].role == "assistant" && forall i :: last < i < |ms| ==> ms[i].role != "assistant"
  }

  lemma {:induction false} NewestIs(ms: seq<Message>, last: nat)
    requires IsNewestAnswer(ms, last)
    ensures NewestAssistant(ms, |ms|) == Some(last)
  {
  }

  lemma {:induction false} ReasonsIs(b: Json)
    ensures Reasons(b) == IsThinking(b)
  {
  }

  lemma {:induction false} RestIsLeft(blocks: seq<Json>)
    ensures LeavesTheRest(DropThinking(blocks), blocks)
  {
    if blocks != [] {
      RestIsLeft(blocks[1..]);
      ReasonsIs(blocks[0]);
      var rest := DropThinking(blocks[1..]);
      assert [] + rest == rest && ([blocks[0]] + rest)[1..] == rest;
    }
  }

  lemma {:induction false} RestReasonsNot(kept: seq<Json>, all: seq<Json>, k: nat)
    requires LeavesTheRest(kept, all) && k < |kept|
    ensures !Reasons(kept[k])
    decreases |all|
  {
    if Reasons(all[0]) {
      RestReasonsNot(kept, all[1..], k);
    } else if k > 0 {
      RestReasonsNot(kept[1..], all[1..], k - 1);
    }
  }

  /** Of a message made of blocks the reasoning goes, and nothing else but markers. */
  ghost predicate Stripped(out: Message, m: Message) {
    && out.role == m.role
    && (m.content.Absent? ==> out.content.Absent?)
    && (m.content.Text? ==> CleanMessage(out) == CleanMessage(m))
    && (m.content.Blocks? ==>
          && out.content.Blocks?
          && (forall k :: 0 <= k < |out.content.blocks| ==> !Reasons(out.content.blocks[k]))
          && LeavesTheRest(UnmarkAll(out.content.blocks), UnmarkAll(m.content.blocks)))
  }

  /** All messages of either arm's body are blocks or nothing at all. */
  lemma {:induction false} ForwardedShape(est: Estimator, arm: Arm, body: Body, last: nat, i: nat)
    requires IsNewestAnswer(body.messages, last) && i < |body.messages|
    ensures var out := Forward(arm, body).messages;
            && |out| == |body.messages|
            && CleanMessage(out[i]) == Base(body.messages, last)[i]
            && !out[i].content.Text?
  {
    NewestIs(body.messages, last);
    ArmSealed(est, arm, body);
    var out, base := Forward(arm, body).messages, Base(body.messages, last);
    assert CleanMessages(out) == base;
    assert CleanMessages(out)[i] == base[i];
    NoStringsLeft(arm, body, last, i);
  }

  /** The markers go on blocks, so no message changes its kind. */
  lemma {:induction false} NoStringsLeft(arm: Arm, body: Body, last: nat, i: nat)
    requires NewestAssistant(body.messages, |body.messages|) == Some(last) && i < |body.messages|
    requires |Forward(arm, body).messages| == |body.messages|
    ensures !Forward(arm, body).messages[i].content.Text?
  {
    var base := Base(body.messages, last);
    assert forall k :: 0 <= k < |base| ==> !base[k].content.Text?;
    if arm.Spread? {
      var places, budget := Places(base, last), Budget(body.system);
      PlacesBeforeEditable(base, last);
      NoTexts(base, places, Backs(|places|, budget), budget);
    }
  }

  lemma {:induction false} NoTexts(ms: seq<Message>, places: seq<Place>, backs: seq<nat>, k: nat)
    requires k <= |backs| && AllEditable(ms, places) && forall i :: 0 <= i < |ms| ==> !ms[i].content.Text?
    ensures forall i :: 0 <= i < |MarkBacks(ms, places, backs, k)| ==> !MarkBacks(ms, places, backs, k)[i].content.Text?
  {
    if k > 0 {
      NoTexts(ms, places, backs, k - 1);
    }
  }

  /** The newest answer goes out as the client sent it, up to markers; every other message loses its reasoning and
      nothing else. */
  lemma {:induction false} OnlyOldReasoningGoes(est: Estimator, arm: Arm, body: Body, last: nat, i: nat)
    requires IsNewestAnswer(body.messages, last) && i < |body.messages|
    ensures var out := Forward(arm, body).messages;
            && |out| == |body.messages|
            && (i == last ==> CleanMessage(out[i]) == CleanMessage(body.messages[i]))
            && (i != last ==> Stripped(out[i], body.messages[i]))
  {
    ForwardedShape(est, arm, body, last, i);
    var out, m := Forward(arm, body).messages[i], body.messages[i];
    if i != last {
      StripClean(m.content);
      if m.content.Blocks? {
        DropUnmark(m.content.blocks);
        RestIsLeft(UnmarkAll(m.content.blocks));
        assert UnmarkAll(out.content.blocks) == DropThinking(UnmarkAll(m.content.blocks));
        forall k | 0 <= k < |out.content.blocks| ensures !Reasons(out.content.blocks[k]) {
          RestReasonsNot(UnmarkAll(out.content.blocks), UnmarkAll(m.content.blocks), k);
          ThinkingUnmarked(out.content.blocks[k]);
          ReasonsIs(out.content.blocks[k]);
          ReasonsIs(Unmark(out.content.blocks[k]));
        }
      }
    }
  }

  /** Tools, system and model are the client's, and without an answer so is everything. */
  lemma {:induction false} TheRestIsTheClients(est: Estimator, arm: Arm, body: Body)
    ensures var out := Forward(arm, body);
            && out.model == body.model && out.tools == body.tools && out.system == body.system
            && ((forall i :: 0 <= i < |body.messages| ==> body.messages[i].role != "assistant") ==> out == body)
  {
    if Newest(body).Some? {
      ArmSealed(est, arm, body);
    }
  }
}
