/** Whole sessions under the two strip-reasoning arms that hold their markers in front of the cut:
    nothing cached is ever invalidated. */
module ReasoningRuns {
  import opened Wire
  import opened Flattening
  import opened PlainCache
  import opened CacheRuns
  import opened Markers
  import opened Reasoning

  datatype Arm = Safe | Spread

  function Forward(arm: Arm, body: Body): Body { if arm.Safe? then SafeMarks(body) else SpreadMarks(body) }

  function SealAt(arm: Arm, base: seq<Message>, cut: nat): nat
    requires cut <= |base|
  {
    if arm.Safe? then SafeAt(base, cut) else SpreadAt(base, cut)
  }

  lemma {:induction false} ArmSealed(est: Estimator, arm: Arm, body: Body)
    requires Newest(body).Some?
    ensures var last := Newest(body).value;
            var base := Base(body.messages, last);
            Sealed(est, base, Forward(arm, body).messages, last, SealAt(arm, base, last))
    ensures Forward(arm, body).tools == body.tools && Forward(arm, body).system == body.system
  {
    if arm.Safe? {
      SafeSealed(est, body);
    } else {
      SpreadSealed(est, body);
    }
  }

  /** Every message marker lies strictly before the newest assistant message. */
  lemma {:induction false} MarkersBeforeCut(est: Estimator, arm: Arm, body: Body)
    requires Newest(body).Some?
    ensures var out, last := Forward(arm, body).messages, Newest(body).value;
            last <= |out| && LastMarked(MessageSegments(est, out)) <= |MessageBlocks(out[..last])|
  {
    ArmSealed(est, arm, body);
    var out, last := Forward(arm, body).messages, Newest(body).value;
    assert |CleanMessages(out)| == |out|;
    assert CleanMessages(out)[..last] == CleanMessages(out[..last]);
    CleanKeepsLength(out[..last]);
  }

  /** What a message marker keeps is kept for an hour. */
  lemma {:induction false} SealedForAnHour(est: Estimator, arm: Arm, body: Body)
    requires Newest(body).Some?
    requires Last(Flatten(est, Forward(arm, body))) > |HeadBlocks(body)|
    ensures Lifetime(Flatten(est, Forward(arm, body))) == 3600.0
  {
    ArmSealed(est, arm, body);
    var out := Forward(arm, body);
    SegmentsConcat(est, HeadBlocks(out), MessageBlocks(out.messages));
    HourInMessages(Segments(est, HeadBlocks(out)), MessageSegments(est, out.messages));
  }

  lemma {:induction false} HourInMessages(head: seq<Segment>, m: seq<Segment>)
    requires HourOnly(m) && Last(Trim(head + m)) > |head|
    ensures Lifetime(Trim(head + m)) == 3600.0
  {
    TrimKeepsLast(head + m);
    var l := Last(head + m);
    assert (head + m)[l - 1] == m[l - 1 - |head|];
  }

  lemma {:induction false} BasesAgree(a: Body, b: Body)
    requires Grows(a, b) && Newest(a).Some?
    ensures Newest(b).Some? && Newest(a).value <= Newest(b).value
    ensures Base(a.messages, Newest(a).value)[..Newest(a).value]
         == Base(b.messages, Newest(b).value)[..Newest(a).value]
  {
    NewestGrows(a, b);
    var x, y, n := Base(a.messages, Newest(a).value), Base(b.messages, Newest(b).value), Newest(a).value;
    forall i | 0 <= i < n ensures x[..n][i] == y[..n][i] {
      BaseStable(a, b, i);
    }
  }

  lemma {:induction false} SealGrows(est: Estimator, arm: Arm, a: seq<Message>, b: seq<Message>, ca: nat, cb: nat)
    requires ca <= cb <= |b| && ca <= |a| && a[..ca] == b[..ca]
    ensures SealAt(arm, a, ca) <= SealAt(arm, b, cb)
  {
    if arm.Safe? {
      SafeAtGrows(a, b, ca, cb);
    } else {
      SpreadAtGrows(est, a, b, ca, cb);
    }
  }

  /** Whatever the first request caches is a prefix of the second, which caches at least as far. */
  ghost predicate PrefixOf(ra: seq<Segment>, rb: seq<Segment>) {
    Last(ra) <= Last(rb) && Shape(ra)[..Last(ra)] == Shape(rb)[..Last(ra)]
  }

  /** One turn to any later one: what is cached reappears, though the newest reasoning has since been
      stripped. */
  lemma {:induction false} PrefixReappears(est: Estimator, arm: Arm, a: Body, b: Body)
    requires Grows(a, b) && Newest(a).Some?
    ensures PrefixOf(Flatten(est, Forward(arm, a)), Flatten(est, Forward(arm, b)))
  {
    BasesAgree(a, b);
    ArmSealed(est, arm, a);
    ArmSealed(est, arm, b);
    var x, y := Base(a.messages, Newest(a).value), Base(b.messages, Newest(b).value);
    SealGrows(est, arm, x, y, Newest(a).value, Newest(b).value);
    SealedFollows(est, Forward(arm, a), Forward(arm, b), x, y, Newest(a).value);
  }

  // ---- Before the first answer ----

  /** No message holds reasoning. */
  ghost predicate NoReasoning(ms: seq<Message>) {
    forall i :: 0 <= i < |ms| ==> StripMessage(CleanMessage(ms[i])) == CleanMessage(ms[i])
  }

  /** What a turn without an assistant message, which is forwarded as it came, has to offer for its successor to
      build on: markers that are markers and, on the next turn, a last one that is no further back. While there
      is no answer the client sees to that itself; once there is one, the arm's seal has to reach as far. */
  ghost predicate Opens(est: Estimator, arm: Arm, a: Body, b: Body) {
    var last := LastMarked(MessageSegments(est, a.messages));
    && WellFormedMessages(a.messages)
    && if Newest(b).None? then WellFormedMessages(b.messages) && last <= LastMarked(MessageSegments(est, b.messages))
       else NoReasoning(a.messages) && last <= SealAt(arm, CleanMessages(a.messages), |a.messages|)
  }

  lemma {:induction false} ClearedShape(est: Estimator, ms: seq<Message>)
    requires WellFormedMessages(ms)
    ensures Shape(MessageSegments(est, ms)) == Shape(MessageSegments(est, CleanMessages(ms)))
  {
    ClearingIsInvisible(ms);
    SameShape(est, ms, CleanMessages(ms));
  }

  lemma {:induction false} LastMarkedWithin(segs: seq<Segment>)
    ensures LastMarked(segs) <= |segs|
  {
  }

  /** Two turns without an answer. */
  lemma {:induction false} StillOpen(est: Estimator, a: Body, b: Body)
    requires Grows(a, b) && WellFormedMessages(a.messages) && WellFormedMessages(b.messages)
    requires LastMarked(MessageSegments(est, a.messages)) <= LastMarked(MessageSegments(est, b.messages))
    ensures PrefixOf(Flatten(est, a), Flatten(est, b))
  {
    var x, y, n := CleanMessages(a.messages), CleanMessages(b.messages), |a.messages|;
    ClearedShape(est, a.messages);
    ClearedShape(est, b.messages);
    assert x[..n] == x;
    assert x == y[..n];
    LastMarkedWithin(MessageSegments(est, a.messages));
    CleanKeepsLength(a.messages);
    SealedFollows(est, a, b, x, y, n);
  }

  /** The first answer comes behind everything there was, and leaves it as it was. */
  lemma {:induction false} FirstAnswer(a: Body, b: Body)
    requires Grows(a, b) && Newest(a).None? && Newest(b).Some? && NoReasoning(a.messages)
    ensures |a.messages| <= Newest(b).value
    ensures Base(b.messages, Newest(b).value)[..|a.messages|] == CleanMessages(a.messages)
  {
    var last, n := Newest(b).value, |a.messages|;
    forall i | 0 <= i < n ensures b.messages[i].role != "assistant" {
      assert CleanMessage(a.messages[i]) == CleanMessage(b.messages[i]);
    }
    var x, y := CleanMessages(a.messages), Base(b.messages, last);
    forall i | 0 <= i < n ensures x[i] == y[i] {
      assert CleanMessage(a.messages[i]) == CleanMessage(b.messages[i]);
      StripClean(b.messages[i].content);
      assert StripMessage(CleanMessage(a.messages[i])) == CleanMessage(a.messages[i]);
    }
  }

  /** The turn with the first answer. */
  lemma {:induction false} FirstSealed(est: Estimator, arm: Arm, a: Body, b: Body)
    requires Grows(a, b) && Newest(a).None? && Newest(b).Some? && Opens(est, arm, a, b)
    ensures PrefixOf(Flatten(est, a), Flatten(est, Forward(arm, b)))
  {
    FirstAnswer(a, b);
    ArmSealed(est, arm, b);
    ClearedShape(est, a.messages);
    var x, y, n := CleanMessages(a.messages), Base(b.messages, Newest(b).value), |a.messages|;
    assert x[..n] == x;
    SealGrows(est, arm, x, y, n, Newest(b).value);
    LastMarkedWithin(MessageSegments(est, a.messages));
    CleanKeepsLength(a.messages);
    SealedFollows(est, a, Forward(arm, b), x, y, n);
  }

  // ---- Sessions ----

  datatype Turn = Turn(body: Body, now: real)

  function RequestOf(est: Estimator, arm: Arm, scope: string, t: Turn): Request {
    Request(scope, Flatten(est, Forward(arm, t.body)), t.now)
  }

  function Requests(est: Estimator, arm: Arm, scope: string, ts: seq<Turn>): (r: seq<Request>)
    ensures |r| == |ts|
  {
    seq(|ts|, k requires 0 <= k < |ts| => RequestOf(est, arm, scope, ts[k]))
  }

  /** `b` appends to `a` and arrives before what `a` cached runs out. */
  ghost predicate InTime(est: Estimator, arm: Arm, a: Turn, b: Turn) {
    && Grows(a.body, b.body) && (Newest(a.body).None? ==> Opens(est, arm, a.body, b.body)) && 0.0 <= b.now
    && var segs := Flatten(est, Forward(arm, a.body));
       Last(segs) > 0 ==> b.now < a.now + Lifetime(segs)
  }

  /** An append-only history. */
  ghost predicate Session(est: Estimator, arm: Arm, ts: seq<Turn>) {
    && ts != [] && 0.0 <= ts[0].now
    && forall k :: 0 <= k < |ts| - 1 ==> InTime(est, arm, ts[k], ts[k + 1])
  }

  lemma {:induction false} NextPrefix(est: Estimator, arm: Arm, a: Turn, b: Turn)
    requires InTime(est, arm, a, b)
    ensures PrefixOf(Flatten(est, Forward(arm, a.body)), Flatten(est, Forward(arm, b.body)))
  {
    if Newest(a.body).Some? {
      PrefixReappears(est, arm, a.body, b.body);
    } else if Newest(b.body).Some? {
      FirstSealed(est, arm, a.body, b.body);
    } else {
      StillOpen(est, a.body, b.body);
    }
  }

  lemma {:induction false} PrefixTrans(a: seq<Segment>, b: seq<Segment>, c: seq<Segment>)
    requires PrefixOf(a, b) && PrefixOf(b, c)
    ensures PrefixOf(a, c)
  {
    var n := Last(a);
    assert Shape(b)[..n] == Shape(b)[..Last(b)][..n] && Shape(c)[..n] == Shape(c)[..Last(b)][..n];
  }

  /** What a turn cached is a prefix of every later request of the session, not just of the next one. */
  lemma {:induction false} EveryLaterTurn(est: Estimator, arm: Arm, ts: seq<Turn>, k: nat, m: nat)
    requires Session(est, arm, ts) && k < m < |ts|
    ensures PrefixOf(Flatten(est, Forward(arm, ts[k].body)), Flatten(est, Forward(arm, ts[m].body)))
    decreases m
  {
    assert InTime(est, arm, ts[m - 1], ts[m - 1 + 1]);
    NextPrefix(est, arm, ts[m - 1], ts[m]);
    if k < m - 1 {
      EveryLaterTurn(est, arm, ts, k, m - 1);
      PrefixTrans(Flatten(est, Forward(arm, ts[k].body)), Flatten(est, Forward(arm, ts[m - 1].body)),
                  Flatten(est, Forward(arm, ts[m].body)));
    }
  }

  lemma {:induction false} TurnFollows(est: Estimator, arm: Arm, scope: string, a: Turn, b: Turn)
    requires InTime(est, arm, a, b)
    ensures Follows(RequestOf(est, arm, scope, a), RequestOf(est, arm, scope, b))
  {
    NextPrefix(est, arm, a, b);
  }

  /** Whatever the cache holds, the turn after reads at least up to the last breakpoint of the one before. */
  lemma {:induction false} NextTurnReads(est: Estimator, arm: Arm, scope: string, plain: Plain, a: Turn, b: Turn)
    requires InTime(est, arm, a, b)
    ensures var ra, rb := RequestOf(est, arm, scope, a), RequestOf(est, arm, scope, b);
            Billed(After(plain, ra), rb).read >= Cached(ra)
  {
    TurnFollows(est, arm, scope, a, b);
    FollowerReads(plain, RequestOf(est, arm, scope, a), RequestOf(est, arm, scope, b));
  }

  lemma {:induction false} SessionConverses(est: Estimator, arm: Arm, scope: string, ts: seq<Turn>)
    returns (rs: seq<Request>)
    requires Session(est, arm, ts)
    ensures rs == Requests(est, arm, scope, ts)
    ensures |rs| == |ts| && Conversation(rs) && rs[0].scope == scope && rs[0].now == ts[0].now
  {
    rs := Requests(est, arm, scope, ts);
    forall k | 0 <= k < |rs| - 1 ensures Follows(rs[k], rs[k + 1]) {
      assert InTime(est, arm, ts[k], ts[k + 1]);
      TurnFollows(est, arm, scope, ts[k], ts[k + 1]);
    }
  }

  /** Nothing is ever invalidated: over any session, every turn reads exactly what the turn before it had
      cached, though that turn's newest reasoning has since been stripped, and each cached token is written
      once in the whole session. */
  lemma {:induction false} NothingInvalidated(est: Estimator, arm: Arm, scope: string, plain: Plain, ts: seq<Turn>)
    requires Session(est, arm, ts) && Cold(plain, scope)
    ensures WrittenOnceBy(plain, Requests(est, arm, scope, ts))
  {
    var rs := SessionConverses(est, arm, scope, ts);
    WriteOnce(plain, rs);
  }
}
