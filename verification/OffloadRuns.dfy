/** Sessions under the gated offload, as the client sends them and as the cache sees them. */
module OffloadRuns {
  import opened Wire
  import opened Flattening
  import opened PlainCache
  import opened CacheRuns
  import opened Markers
  import opened Reasoning
  import opened Offload

  /** The turns of a session with markers cleared and strings normalised. */
  function Cleaned(raws: seq<seq<Message>>): (r: seq<seq<Message>>)
    ensures |r| == |raws|
  {
    seq(|raws|, k requires 0 <= k < |raws| => CleanMessages(raws[k]))
  }

  lemma {:induction false} MemoryClean(policy: Policy, raws: seq<seq<Message>>, k: nat)
    requires k <= |raws|
    ensures MemoryAt(policy, Cleaned(raws), k) == MemoryAt(policy, raws, k)
  {
    if k > 0 {
      MemoryClean(policy, raws, k - 1);
      var memory, ms := MemoryAt(policy, raws, k - 1), raws[k - 1];
      assert Cleaned(raws)[k - 1] == CleanMessages(ms);
      if ms != [] {
        ForwardedClean(TurnOf(policy, memory, ms), memory.seen, 0);
      }
    }
  }

  /** Where the client's markers sit, and whether it sends a text as a string or a block, changes nothing. */
  lemma {:induction false} SentClean(policy: Policy, raws: seq<seq<Message>>, k: nat)
    requires k < |raws|
    ensures |SentAt(policy, raws, k)| == |raws[k]|
    ensures CleanMessages(SentAt(policy, raws, k)) == SentAt(policy, Cleaned(raws), k)
  {
    MemoryClean(policy, raws, k);
    var memory, ms := MemoryAt(policy, raws, k), raws[k];
    assert Cleaned(raws)[k] == CleanMessages(ms);
    if ms != [] {
      var t := TurnOf(policy, memory, ms);
      forall i | 0 <= i < |ms|
        ensures CleanMessage(ForwardedMessage(t, memory.seen, i)) == ForwardedMessage(CleanTurn(t), memory.seen, i)
      {
        ForwardedClean(t, memory.seen, i);
      }
    }
  }

  /** The number of messages four or more from the tail. */
  function FrozenCount(ms: seq<Message>): nat { if |ms| <= STALE_MARGIN then 0 else |ms| - STALE_MARGIN }

  /** Apart from its own markers, what a turn forwards four or more messages from the tail is forwarded
      unchanged on every later turn. */
  lemma {:induction false} FrozenPrefix(policy: Policy, raws: seq<seq<Message>>, k: nat, m: nat)
    requires k < m < |raws| && Session(policy, Cleaned(raws))
    ensures var f, a, b := FrozenCount(raws[k]), SentAt(policy, raws, k), SentAt(policy, raws, m);
            f <= |a| && f <= |b| && CleanMessages(a)[..f] == CleanMessages(b)[..f]
  {
    var f, cs := FrozenCount(raws[k]), Cleaned(raws);
    SentClean(policy, raws, k);
    SentClean(policy, raws, m);
    assert Linked(cs, k, m);
    assert |cs[k]| == |raws[k]| && |cs[m]| == |raws[m]|;
    forall i | 0 <= i < f ensures SentAt(policy, cs, k)[i] == SentAt(policy, cs, m)[i] {
      HistoryFrozen(policy, cs, k, m, i);
    }
  }

  // ---- What the cache makes of it ----

  lemma {:induction false} DigestKeepsMarker(b: Json, text: string)
    requires b.Obj? && WellFormed(b)
    ensures WellFormed(WriteDigest(b, text))
  {
  }

  lemma {:induction false} SentWellFormed(policy: Policy, raws: seq<seq<Message>>, k: nat)
    requires k < |raws| && WellFormedMessages(raws[k])
    ensures WellFormedMessages(SentAt(policy, raws, k))
  {
    var memory, ms := MemoryAt(policy, raws, k), raws[k];
    if ms != [] {
      var t := TurnOf(policy, memory, ms);
      forall i | 0 <= i < |ms| ensures WellFormedContent(ForwardedMessage(t, memory.seen, i).content) {
        assert WellFormedContent(ms[i].content);
        if ms[i].content.Blocks? {
          forall j | 0 <= j < |ms[i].content.blocks| ensures WellFormed(Forwarded(t, memory.seen, i, j)) {
            if ConvertsAt(t, memory.seen, i, j) {
              DigestKeepsMarker(BlockOf(t, i, j), Candidate(policy, BlockOf(t, i, j)).value);
            }
          }
        }
      }
    }
  }

  lemma {:induction false} SameWhenCleaned(a: seq<Message>, b: seq<Message>, n: nat)
    requires WellFormedMessages(a) && WellFormedMessages(b) && n <= |a| && n <= |b|
    requires CleanMessages(a)[..n] == CleanMessages(b)[..n]
    ensures SameMessages(a[..n], b[..n])
  {
    ClearingIsInvisible(a);
    ClearingIsInvisible(b);
    forall i | 0 <= i < n
      ensures SameBare(ContentBlocks(a[..n][i].role, a[..n][i].content),
                       ContentBlocks(b[..n][i].role, b[..n][i].content))
    {
      var x, y := CleanMessages(a)[..n], CleanMessages(b)[..n];
      assert x[i] == CleanMessages(a)[i] && y[i] == CleanMessages(b)[i];
      assert SameBare(ContentBlocks(a[i].role, a[i].content), ContentBlocks(x[i].role, x[i].content));
      assert SameBare(ContentBlocks(b[i].role, b[i].content), ContentBlocks(y[i].role, y[i].content));
    }
  }

  /** Two bodies whose message segments agree up to `k` agree up to there with the head in front. */
  ghost predicate AgreeUpTo(ra: seq<Segment>, rb: seq<Segment>, n: nat) {
    n <= |ra| && n <= |rb| && Shape(ra)[..n] == Shape(rb)[..n]
  }

  lemma {:induction false} TrimmedAgree(head: seq<Segment>, ma: seq<Segment>, mb: seq<Segment>, k: nat)
    requires AgreeUpTo(ma, mb, k)
    ensures AgreeUpTo(Trim(head + ma), Trim(head + mb), |head| + k)
  {
    TrimKeepsShape(head + ma);
    TrimKeepsShape(head + mb);
    HeadShape(head, ma, k);
    HeadShape(head, mb, k);
  }

  lemma {:induction false} FlattenParts(est: Estimator, body: Body, head: seq<Segment>)
    requires head == Segments(est, HeadBlocks(body))
    ensures |head| == |HeadBlocks(body)|
    ensures Flatten(est, body) == Trim(head + MessageSegments(est, body.messages))
  {
    SegmentsConcat(est, HeadBlocks(body), MessageBlocks(body.messages));
  }

  lemma {:induction false} HeadThenCut(est: Estimator, body: Body, a: seq<Message>, b: seq<Message>, k: nat)
    requires AgreeUpTo(MessageSegments(est, a), MessageSegments(est, b), k)
    ensures AgreeUpTo(Flatten(est, body.(messages := a)), Flatten(est, body.(messages := b)), |HeadBlocks(body)| + k)
  {
    var head := Segments(est, HeadBlocks(body));
    FlattenParts(est, body.(messages := a), head);
    FlattenParts(est, body.(messages := b), head);
    TrimmedAgree(head, MessageSegments(est, a), MessageSegments(est, b), k);
  }

  lemma {:induction false} FrozenMessagesAgree(est: Estimator, policy: Policy, raws: seq<seq<Message>>, k: nat, m: nat)
    requires k < m < |raws| && Session(policy, Cleaned(raws))
    requires WellFormedMessages(raws[k]) && WellFormedMessages(raws[m])
    ensures var a, b, f := SentAt(policy, raws, k), SentAt(policy, raws, m), FrozenCount(raws[k]);
            f <= |a| && AgreeUpTo(MessageSegments(est, a), MessageSegments(est, b), |MessageBlocks(a[..f])|)
  {
    FrozenPrefix(policy, raws, k, m);
    SentWellFormed(policy, raws, k);
    SentWellFormed(policy, raws, m);
    var a, b, f := SentAt(policy, raws, k), SentAt(policy, raws, m), FrozenCount(raws[k]);
    SameWhenCleaned(a, b, f);
    CutShape(est, a, b, f);
  }

  /** To the cache, the frozen part of a turn is a prefix of every later turn. */
  lemma {:induction false} FrozenPrefixReappears(est: Estimator, policy: Policy, body: Body, raws: seq<seq<Message>>,
                                                 k: nat, m: nat)
    returns (a: seq<Message>, b: seq<Message>, n: nat)
    requires k < m < |raws| && Session(policy, Cleaned(raws))
    requires WellFormedMessages(raws[k]) && WellFormedMessages(raws[m])
    ensures a == SentAt(policy, raws, k) && b == SentAt(policy, raws, m)
    ensures FrozenCount(raws[k]) <= |a| && n == |HeadBlocks(body)| + |MessageBlocks(a[..FrozenCount(raws[k])])|
    ensures AgreeUpTo(Flatten(est, body.(messages := a)), Flatten(est, body.(messages := b)), n)
  {
    FrozenMessagesAgree(est, policy, raws, k, m);
    a, b := SentAt(policy, raws, k), SentAt(policy, raws, m);
    n := WithHead(est, body, a, b, FrozenCount(raws[k]));
  }

  lemma {:induction false} WithHead(est: Estimator, body: Body, a: seq<Message>, b: seq<Message>, f: nat)
    returns (n: nat)
    requires f <= |a| && AgreeUpTo(MessageSegments(est, a), MessageSegments(est, b), |MessageBlocks(a[..f])|)
    ensures n == |HeadBlocks(body)| + |MessageBlocks(a[..f])|
    ensures AgreeUpTo(Flatten(est, body.(messages := a)), Flatten(est, body.(messages := b)), n)
  {
    var held := |MessageBlocks(a[..f])|;
    n := |HeadBlocks(body)| + held;
    HeadThenCut(est, body, a, b, held);
  }

  // ---- What is read of it ----

  /** A turn of the session as the cache gets it. */
  function SentRequest(est: Estimator, policy: Policy, body: Body, raws: seq<seq<Message>>, scope: string, k: nat,
                       now: real): Request
    requires k < |raws|
  {
    Request(scope, Flatten(est, body.(messages := SentAt(policy, raws, k))), now)
  }

  /** The segments of a turn that are four or more messages from its tail, tools and system included. */
  function FrozenSegments(policy: Policy, body: Body, raws: seq<seq<Message>>, k: nat): nat
    requires k < |raws|
  {
    |HeadBlocks(body)| + |MessageBlocks(SentAt(policy, raws, k)[..FrozenCount(raws[k])])|
  }

  lemma {:induction false} FrozenAgree(est: Estimator, policy: Policy, body: Body, raws: seq<seq<Message>>,
                                       scope: string, k: nat, m: nat, now: real, later: real, i: nat)
    requires k < m < |raws| && OffloadSession(policy, raws, k, m) && i <= FrozenSegments(policy, body, raws, k)
    ensures var a, b := SentRequest(est, policy, body, raws, scope, k, now),
                        SentRequest(est, policy, body, raws, scope, m, later);
            i <= |a.segs| && i <= |b.segs| && Shape(a.segs)[..i] == Shape(b.segs)[..i]
  {
    var x, y, n := FrozenPrefixReappears(est, policy, body, raws, k, m);
    var s, t := Shape(Flatten(est, body.(messages := x))), Shape(Flatten(est, body.(messages := y)));
    assert s[..i] == s[..n][..i] && t[..i] == t[..n][..i];
  }

  ghost predicate OffloadSession(policy: Policy, raws: seq<seq<Message>>, k: nat, m: nat)
    requires k < m < |raws|
  {
    Session(policy, Cleaned(raws)) && WellFormedMessages(raws[k]) && WellFormedMessages(raws[m])
  }

  /** Whatever the cache held, an entry stored at any breakpoint of the frozen part is read by every later turn
      that comes next and within the marker's time. */
  lemma {:induction false} FrozenIsRead(est: Estimator, policy: Policy, body: Body, raws: seq<seq<Message>>,
                                        scope: string, k: nat, m: nat, now: real, later: real, i: nat, plain: Plain)
    requires k < m < |raws| && OffloadSession(policy, raws, k, m) && i <= FrozenSegments(policy, body, raws, k)
    requires var a, b := SentRequest(est, policy, body, raws, scope, k, now),
                         SentRequest(est, policy, body, raws, scope, m, later);
             IsBreakpoint(a.segs, i) && Last(b.segs) > 0 && later < now + TtlSeconds(a.segs[i - 1].ttl.value)
    ensures var a, b := SentRequest(est, policy, body, raws, scope, k, now),
                        SentRequest(est, policy, body, raws, scope, m, later);
            Billed(After(plain, a), b).read >= Upto(a.segs, i)
  {
    FrozenAgree(est, policy, body, raws, scope, k, m, now, later, i);
    BreakpointIsRead(plain, SentRequest(est, policy, body, raws, scope, k, now),
                     SentRequest(est, policy, body, raws, scope, m, later), i);
  }

  /** And within five minutes it is, whatever was sent in between: other turns, other conversations. */
  lemma {:induction false} FrozenIsReadAmidTraffic(est: Estimator, policy: Policy, body: Body, raws: seq<seq<Message>>,
                                                   scope: string, k: nat, m: nat, now: real, later: real, i: nat,
                                                   plain: Plain, rs: seq<Request>)
    requires k < m < |raws| && OffloadSession(policy, raws, k, m) && i <= FrozenSegments(policy, body, raws, k)
    requires later < now + 300.0 && forall j :: 0 <= j < |rs| ==> rs[j].now >= now
    requires var a, b := SentRequest(est, policy, body, raws, scope, k, now),
                         SentRequest(est, policy, body, raws, scope, m, later);
             IsBreakpoint(a.segs, i) && Last(b.segs) > 0
    ensures var a, b := SentRequest(est, policy, body, raws, scope, k, now),
                        SentRequest(est, policy, body, raws, scope, m, later);
            Billed(Run(After(plain, a), rs).plain, b).read >= Upto(a.segs, i)
  {
    FrozenAgree(est, policy, body, raws, scope, k, m, now, later, i);
    BreakpointSurvives(plain, SentRequest(est, policy, body, raws, scope, k, now), rs,
                       SentRequest(est, policy, body, raws, scope, m, later), i);
  }
}
