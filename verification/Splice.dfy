/** The turn-chained prefix splice: each turn forwards the previous output up to the first divergence of the
    client's own messages, and its own bytes after it. */
module Splice {
  import opened Wire
  import opened Flattening
  import opened PlainCache
  import opened CacheRuns
  import opened Markers
  import opened Reasoning

  /** One turn of a scope: what the client sent and what the proxy would forward by itself. */
  datatype Exchange = Exchange(client: seq<Message>, forwarded: seq<Message>)

  /** One digest per block, on the form the cache hashes. */
  function Hashed(ms: seq<Message>): (r: seq<Digest>)
    ensures |r| == |MessageBlocks(ms)|
  {
    var blocks := MessageBlocks(ms);
    seq(|blocks|, i requires 0 <= i < |blocks| => Digest(blocks[i].role, Bare(blocks[i].block)))
  }

  /** How many leading digests agree. */
  function Common(a: seq<Digest>, b: seq<Digest>): (n: nat)
    ensures n <= |a| && n <= |b|
  {
    if a == [] || b == [] || a[0] != b[0] then 0 else 1 + Common(a[1..], b[1..])
  }

  /** They agree up to there, and no further. */
  lemma {:induction false} CommonAgrees(a: seq<Digest>, b: seq<Digest>)
    ensures var n := Common(a, b); a[..n] == b[..n] && (n < |a| && n < |b| ==> a[n] != b[n])
  {
    var n := Common(a, b);
    if n > 0 {
      CommonAgrees(a[1..], b[1..]);
      assert a[..n] == [a[0]] + a[1..][..n - 1] && b[..n] == [b[0]] + b[1..][..n - 1];
    }
  }

  function Min(a: nat, b: nat): nat { if a < b then a else b }

  /** How many messages are replayed from the previous output. The count of digests is used as a count of
      messages, as the code has it. */
  function Replayed(prev: Exchange, out: seq<Message>, cur: Exchange): (n: nat)
    ensures n <= |out| && n <= |cur.forwarded|
  {
    Min(Common(Hashed(prev.client), Hashed(cur.client)), Min(|out|, |cur.forwarded|))
  }

  function SplicedOn(prev: Exchange, out: seq<Message>, cur: Exchange): seq<Message> {
    var n := Replayed(prev, out, cur);
    out[..n] + cur.forwarded[n..]
  }

  /** What turn `k` of a scope forwards. */
  function Spliced(turns: seq<Exchange>, k: nat): seq<Message>
    requires k < |turns|
  {
    if k == 0 then turns[0].forwarded else SplicedOn(turns[k - 1], Spliced(turns, k - 1), turns[k])
  }

  /** What the turns of a scope forward, one after the other. */
  function Outputs(turns: seq<Exchange>): (r: seq<seq<Message>>)
    ensures |r| == |turns|
  {
    seq(|turns|, k requires 0 <= k < |turns| => Spliced(turns, k))
  }

  /** The loop over the turns of one scope. */
  method SpliceScope(turns: seq<Exchange>) returns (outs: seq<seq<Message>>)
    ensures outs == Outputs(turns)
  {
    outs := [];
    ghost var all := Outputs(turns);
    var prevOut: seq<Message> := [];
    var k := 0;
    while k < |turns|
      invariant 0 <= k <= |turns|
      invariant |all| == |turns| && outs == all[..k]
      invariant k > 0 ==> prevOut == all[k - 1]
    {
      prevOut := NextOut(turns, k, prevOut, all);
      outs := outs + [prevOut];
      k := k + 1;
    }
  }

  method NextOut(turns: seq<Exchange>, k: nat, prevOut: seq<Message>, ghost all: seq<seq<Message>>)
    returns (cur: seq<Message>)
    requires k < |turns| && all == Outputs(turns) && (k > 0 ==> prevOut == all[k - 1])
    ensures cur == all[k]
  {
    cur := turns[k].forwarded;
    if k > 0 {
      cur := SpliceTurn(turns[k - 1], prevOut, turns[k]);
    }
  }

  method SpliceTurn(prev: Exchange, prevOut: seq<Message>, cur: Exchange) returns (out: seq<Message>)
    ensures out == SplicedOn(prev, prevOut, cur)
  {
    var i := CountCommon(Hashed(prev.client), Hashed(cur.client));
    var upto := Min(i, Min(|prevOut|, |cur.forwarded|));
    out := prevOut[..upto] + cur.forwarded[upto..];
  }

  method CountCommon(a: seq<Digest>, b: seq<Digest>) returns (i: nat)
    ensures i == Common(a, b)
  {
    i := 0;
    while i < |a| && i < |b| && a[i] == b[i]
      invariant i <= |a| && i <= |b| && a[..i] == b[..i]
    {
      i := i + 1;
    }
    CommonIs(a, b, i);
  }

  lemma {:induction false} CommonIs(a: seq<Digest>, b: seq<Digest>, n: nat)
    requires n <= |a| && n <= |b| && a[..n] == b[..n] && (n < |a| && n < |b| ==> a[n] != b[n])
    ensures Common(a, b) == n
  {
    if n > 0 {
      assert a[..n][0] == b[..n][0];
      assert a[1..][..n - 1] == a[..n][1..] && b[1..][..n - 1] == b[..n][1..];
      CommonIs(a[1..], b[1..], n - 1);
    }
  }

  /** They are the digests `flatten` gives the messages, one to a block, roles included. */
  lemma {:induction false} HashedIsFlattened(est: Estimator, ms: seq<Message>, i: nat)
    requires i < |Hashed(ms)|
    ensures var segs := Flatten(est, Body("x", [], Absent, ms));
            |segs| == |Hashed(ms)| && segs[i].digest == Hashed(ms)[i]
  {
    var body := Body("x", [], Absent, ms);
    assert HeadBlocks(body) == [];
    assert AllBlocks(body) == MessageBlocks(ms);
  }

  // ---- What one splice makes of the previous output ----

  /** The two turns' client digests agree up to and including index `j`. */
  ghost predicate DigestsAgreeTo(prev: Exchange, cur: Exchange, j: nat) {
    forall i :: 0 <= i <= j ==> SameDigest(Hashed(prev.client), Hashed(cur.client), i)
  }

  ghost predicate SameDigest(a: seq<Digest>, b: seq<Digest>, i: nat) { i < |a| && i < |b| && a[i] == b[i] }

  lemma {:induction false} AgreeIsCommon(prev: Exchange, cur: Exchange, j: nat)
    ensures DigestsAgreeTo(prev, cur, j) <==> j < Common(Hashed(prev.client), Hashed(cur.client))
  {
    var a, b := Hashed(prev.client), Hashed(cur.client);
    var n := Common(a, b);
    CommonAgrees(a, b);
    if j < n {
      forall i | 0 <= i <= j ensures SameDigest(a, b, i) {
        assert a[i] == a[..n][i] && b[i] == b[..n][i];
      }
    } else {
      assert !SameDigest(a, b, n);
    }
  }

  /** Message `j` is the previous output's while the digests agree that far and the output reaches that far, and
      this turn's own from there on; the length is this turn's own. */
  lemma {:induction false} SplicedMessage(prev: Exchange, out: seq<Message>, cur: Exchange, j: nat)
    ensures |SplicedOn(prev, out, cur)| == |cur.forwarded|
    ensures j < |cur.forwarded| ==>
      SplicedOn(prev, out, cur)[j] == if DigestsAgreeTo(prev, cur, j) && j < |out| then out[j] else cur.forwarded[j]
  {
    AgreeIsCommon(prev, cur, j);
  }

  /** The first turn of a scope goes out as it is, and every later one is spliced on the output before it. */
  lemma {:induction false} TurnByTurn(turns: seq<Exchange>, k: nat)
    requires k < |turns|
    ensures |Outputs(turns)| == |turns|
    ensures Outputs(turns)[k]
         == if k == 0 then turns[0].forwarded else SplicedOn(turns[k - 1], Outputs(turns)[k - 1], turns[k])
  {
  }

  // ---- Where every forwarded message comes from ----

  /** The client's digests 0 to `j` are the same in both turns. */
  ghost predicate MatchTo(a: seq<Message>, b: seq<Message>, j: nat) {
    a == b || (j < |Hashed(a)| && j < |Hashed(b)| && Hashed(a)[..j + 1] == Hashed(b)[..j + 1])
  }

  lemma {:induction false} MatchToTrans(a: seq<Message>, b: seq<Message>, c: seq<Message>, j: nat)
    requires MatchTo(a, b, j) && MatchTo(b, c, j)
    ensures MatchTo(a, c, j)
  {
  }

  /** Message `j` of the output of turn `k` is message `j` of what turn `m` forwarded, and up to there the two
      turns' client digests match. */
  ghost predicate ComesFrom(turns: seq<Exchange>, k: nat, out: seq<Message>, j: nat, m: nat)
    requires k < |turns| && j < |out|
  {
    && m <= k && j < |turns[m].forwarded|
    && out[j] == turns[m].forwarded[j]
    && MatchTo(turns[m].client, turns[k].client, j)
  }

  /** A replayed message lies in the part of the two turns that matches. */
  lemma {:induction false} ReplayedMatch(prev: Exchange, out: seq<Message>, cur: Exchange, j: nat)
    requires j < Replayed(prev, out, cur)
    ensures MatchTo(prev.client, cur.client, j)
    ensures SplicedOn(prev, out, cur)[j] == out[j]
  {
    var a, b := Hashed(prev.client), Hashed(cur.client);
    var c := Common(a, b);
    CommonAgrees(a, b);
    assert a[..j + 1] == a[..c][..j + 1] && b[..j + 1] == b[..c][..j + 1];
  }

  /** Where message `j` of one splice comes from: replayed, or this turn's own. */
  lemma {:induction false} Origin(turns: seq<Exchange>, k: nat, before: seq<Message>, out: seq<Message>, j: nat)
    returns (replayed: bool)
    requires 0 < k < |turns| && before == Spliced(turns, k - 1) && out == Spliced(turns, k) && j < |out|
    ensures replayed == (j < Replayed(turns[k - 1], before, turns[k]))
    ensures replayed ==>
      j < |before| && out[j] == before[j] && MatchTo(turns[k - 1].client, turns[k].client, j)
    ensures !replayed ==> j < |turns[k].forwarded| && out[j] == turns[k].forwarded[j]
  {
    replayed := j < Replayed(turns[k - 1], before, turns[k]);
    if replayed {
      ReplayedMatch(turns[k - 1], before, turns[k], j);
    }
  }

  /** Provenance: every message that is forwarded was forwarded, in the same position, by a turn whose client
      digests up to that index are the ones the client sends now. */
  lemma {:induction false} Provenance(turns: seq<Exchange>, k: nat, out: seq<Message>, j: nat) returns (m: nat)
    requires k < |turns| && out == Spliced(turns, k) && j < |out|
    ensures ComesFrom(turns, k, out, j, m)
    decreases k
  {
    m := k;
    if k > 0 {
      var before := Spliced(turns, k - 1);
      var replayed := Origin(turns, k, before, out, j);
      if replayed {
        m := Provenance(turns, k - 1, before, j);
        MatchToTrans(turns[m].client, turns[k - 1].client, turns[k].client, j);
      }
    }
  }

  // ---- From digests to messages ----

  function HashedMessage(m: Message): seq<Digest> { Hashed([m]) }

  /** How many leading messages agree, each in all of its blocks: what the digests are meant to count. */
  function Agreeing(a: seq<Message>, b: seq<Message>): (n: nat)
    ensures n <= |a| && n <= |b|
  {
    if a == [] || b == [] || HashedMessage(a[0]) != HashedMessage(b[0]) then 0 else 1 + Agreeing(a[1..], b[1..])
  }

  ghost predicate AgreeAt(a: seq<Message>, b: seq<Message>, j: nat) {
    j < |a| && j < |b| && HashedMessage(a[j]) == HashedMessage(b[j])
  }

  lemma {:induction false} AgreeingAt(a: seq<Message>, b: seq<Message>, j: nat)
    ensures j < Agreeing(a, b) ==> AgreeAt(a, b, j)
    ensures j == Agreeing(a, b) ==> !AgreeAt(a, b, j)
  {
    if a != [] && b != [] && HashedMessage(a[0]) == HashedMessage(b[0]) && j > 0 {
      AgreeingAt(a[1..], b[1..], j - 1);
    }
  }

  lemma {:induction false} HashedConcat(a: seq<Message>, b: seq<Message>)
    ensures Hashed(a + b) == Hashed(a) + Hashed(b)
  {
    MessageBlocksConcat(a, b);
  }

  lemma {:induction false} HashedCons(ms: seq<Message>)
    requires ms != []
    ensures Hashed(ms) == HashedMessage(ms[0]) + Hashed(ms[1..])
  {
    assert ms == [ms[0]] + ms[1..];
    HashedConcat([ms[0]], ms[1..]);
  }

  lemma {:induction false} CommonPast(h: seq<Digest>, a: seq<Digest>, b: seq<Digest>)
    ensures Common(h + a, h + b) == |h| + Common(a, b)
  {
    CommonAgrees(a, b);
    var n := Common(a, b);
    assert (h + a)[..|h| + n] == h + a[..n] && (h + b)[..|h| + n] == h + b[..n];
    CommonIs(h + a, h + b, |h| + n);
  }

  /** The digests count the blocks of the agreeing messages, and then what the next two have in common. */
  lemma {:induction false} CommonByMessages(a: seq<Message>, b: seq<Message>)
    ensures var n := Agreeing(a, b);
            Common(Hashed(a), Hashed(b)) == |MessageBlocks(a[..n])| + Common(Hashed(a[n..]), Hashed(b[n..]))
  {
    var n := Agreeing(a, b);
    if n == 0 {
      assert a[..0] == [] && a[0..] == a && b[0..] == b;
    } else {
      var h := HashedMessage(a[0]);
      HashedCons(a);
      HashedCons(b);
      CommonPast(h, Hashed(a[1..]), Hashed(b[1..]));
      CommonByMessages(a[1..], b[1..]);
      assert a[1..][n - 1..] == a[n..] && b[1..][n - 1..] == b[n..];
      BlocksOfHead(a, n);
    }
  }

  lemma {:induction false} BlocksOfHead(a: seq<Message>, n: nat)
    requires 0 < n <= |a|
    ensures |MessageBlocks(a[..n])| == |HashedMessage(a[0])| + |MessageBlocks(a[1..][..n - 1])|
  {
    assert a[..n] == [a[0]] + a[1..][..n - 1];
    MessageBlocksConcat([a[0]], a[1..][..n - 1]);
  }

  /** Every replayed message stands where both clients sent the same message. */
  ghost predicate Justified(prev: Exchange, out: seq<Message>, cur: Exchange) {
    forall j :: 0 <= j < Replayed(prev, out, cur) ==> AgreeAt(prev.client, cur.client, j)
  }

  /** A splice is justified if and only if one of its three limits stops it in time: the previous output, this
      turn's own messages, or the digests. The digests run past the agreeing messages when those hold more
      blocks than there are messages, or the next two messages start with the same blocks. */
  lemma {:induction false} ReplayJustified(prev: Exchange, out: seq<Message>, cur: Exchange)
    ensures var n := Agreeing(prev.client, cur.client);
            var blocks := |MessageBlocks(prev.client[..n])| + Common(Hashed(prev.client[n..]), Hashed(cur.client[n..]));
            Justified(prev, out, cur) <==> |out| <= n || |cur.forwarded| <= n || blocks <= n
  {
    var n := Agreeing(prev.client, cur.client);
    CommonByMessages(prev.client, cur.client);
    AgreeingAt(prev.client, cur.client, n);
    forall j | 0 <= j < n ensures AgreeAt(prev.client, cur.client, j) {
      AgreeingAt(prev.client, cur.client, j);
    }
    if n < Replayed(prev, out, cur) {
      assert !AgreeAt(prev.client, cur.client, n);
    }
  }

  /** The client's messages 0 to `j` are the same in both turns. */
  ghost predicate SameTo(a: seq<Message>, b: seq<Message>, j: nat) {
    a == b || forall i :: 0 <= i <= j ==> AgreeAt(a, b, i)
  }

  lemma {:induction false} SameToTrans(a: seq<Message>, b: seq<Message>, c: seq<Message>, j: nat)
    requires SameTo(a, b, j) && SameTo(b, c, j)
    ensures SameTo(a, c, j)
  {
    if a != b && b != c {
      forall i | 0 <= i <= j ensures AgreeAt(a, c, i) {
        assert AgreeAt(a, b, i) && AgreeAt(b, c, i);
      }
    }
  }

  ghost predicate JustifiedAt(turns: seq<Exchange>, k: nat)
    requires 0 < k < |turns|
  {
    Justified(turns[k - 1], Spliced(turns, k - 1), turns[k])
  }

  /** So where every splice up to now is justified, every forwarded message was forwarded in the same position
      by a turn whose client messages up to and including it are the ones the client sends now. */
  lemma {:induction false} MessageProvenance(turns: seq<Exchange>, k: nat, out: seq<Message>, j: nat) returns (m: nat)
    requires k < |turns| && out == Spliced(turns, k) && j < |out|
    requires forall t :: 0 < t <= k ==> JustifiedAt(turns, t)
    ensures m <= k && j < |turns[m].forwarded| && out[j] == turns[m].forwarded[j]
    ensures SameTo(turns[m].client, turns[k].client, j)
    decreases k
  {
    m := k;
    if k > 0 {
      var before := Spliced(turns, k - 1);
      var replayed := Origin(turns, k, before, out, j);
      if replayed {
        m := MessageProvenance(turns, k - 1, before, j);
        assert JustifiedAt(turns, k);
        JustifiedTo(turns, k, before, j);
        SameToTrans(turns[m].client, turns[k - 1].client, turns[k].client, j);
      }
    }
  }

  lemma {:induction false} JustifiedTo(turns: seq<Exchange>, k: nat, before: seq<Message>, j: nat)
    requires 0 < k < |turns| && before == Spliced(turns, k - 1) && JustifiedAt(turns, k)
    requires j < Replayed(turns[k - 1], before, turns[k])
    ensures SameTo(turns[k - 1].client, turns[k].client, j)
  {
  }

  /** Each message flattens to one segment. */
  ghost predicate OnePerMessage(ms: seq<Message>) {
    forall i :: 0 <= i < |ms| ==> |ContentBlocks(ms[i].role, ms[i].content)| == 1
  }

  /** With one block to a message the digests count messages, so every splice is justified. */
  lemma {:induction false} OneBlockCounts(a: seq<Message>, b: seq<Message>)
    requires OnePerMessage(a) && OnePerMessage(b)
    ensures Common(Hashed(a), Hashed(b)) == Agreeing(a, b)
  {
    if a != [] && b != [] {
      HashedCons(a);
      HashedCons(b);
      OneMessage(a[0]);
      OneMessage(b[0]);
      var x, y := HashedMessage(a[0]), HashedMessage(b[0]);
      assert |x| == 1 && |y| == 1;
      assert Hashed(a)[0] == x[0] && Hashed(b)[0] == y[0];
      assert Hashed(a)[1..] == Hashed(a[1..]) && Hashed(b)[1..] == Hashed(b[1..]);
      assert x == [x[0]] && y == [y[0]];
      OneBlockCounts(a[1..], b[1..]);
    }
  }

  lemma {:induction false} OneBlockIsJustified(prev: Exchange, out: seq<Message>, cur: Exchange)
    requires OnePerMessage(prev.client) && OnePerMessage(cur.client)
    ensures Justified(prev, out, cur)
  {
    OneBlockCounts(prev.client, cur.client);
    forall j | 0 <= j < Replayed(prev, out, cur) ensures AgreeAt(prev.client, cur.client, j) {
      AgreeingAt(prev.client, cur.client, j);
    }
  }

  lemma {:induction false} HashedOne(role: string, blocks: seq<Json>)
    ensures |Hashed([Message(role, Blocks(blocks))])| == |blocks|
    ensures forall i :: 0 <= i < |blocks| ==>
      Hashed([Message(role, Blocks(blocks))])[i] == Digest(role, Bare(blocks[i]))
  {
    OneMessage(Message(role, Blocks(blocks)));
  }

  lemma {:induction false} HashedPair(p: Message, q: Message)
    ensures Hashed([p, q]) == Hashed([p]) + Hashed([q])
  {
    assert [p] + [q] == [p, q];
    MessageBlocksConcat([p], [q]);
  }

  lemma {:induction false} CommonAfter(a: seq<Digest>, x: Digest, y: Digest)
    requires x != y
    ensures Common(a + [x], a + [y]) == |a|
  {
    CommonIs(a + [x], a + [y], |a|);
  }

  /** A family where it is not: the first message's two blocks count as two messages, so the second message,
      which the client has changed, is replayed stale. */
  lemma {:induction false} SeveralBlocksReplayStale(b1: Json, b2: Json, x: Json, y: Json, f: seq<Message>,
                                                    g: seq<Message>)
    requires Bare(x) != Bare(y) && |f| == 2 && |g| == 2
    ensures var first := Message("user", Blocks([b1, b2]));
            var turns := [Exchange([first, Message("user", Blocks([x]))], f),
                          Exchange([first, Message("user", Blocks([y]))], g)];
            && Spliced(turns, 1)[1] == f[1]
            && !AgreeAt(turns[0].client, turns[1].client, 1)
            && !JustifiedAt(turns, 1)
  {
    var first, mx, my := Message("user", Blocks([b1, b2])), Message("user", Blocks([x])), Message("user", Blocks([y]));
    var turns := [Exchange([first, mx], f), Exchange([first, my], g)];
    HashedOne("user", [b1, b2]);
    HashedOne("user", [x]);
    HashedOne("user", [y]);
    HashedPair(first, mx);
    HashedPair(first, my);
    var h, dx, dy := Hashed([first]), Digest("user", Bare(x)), Digest("user", Bare(y));
    assert Hashed([mx]) == [dx] && Hashed([my]) == [dy];
    CommonAfter(h, dx, dy);
    assert [first, mx][..2] == [first, mx] && [first, my][..2] == [first, my];
    assert (h + [dx])[2] != (h + [dy])[2];
    assert Spliced(turns, 0) == f;
    ReplayedMatch(turns[0], f, turns[1], 1);
  }

  // ---- Append-only histories ----

  /** The next turn's client blocks extend this one's; this turn forwards no more messages than its client
      sent blocks, and the next one at least as many. */
  ghost predicate Extends(a: Exchange, b: Exchange) {
    && Hashed(a.client) <= Hashed(b.client)
    && |a.forwarded| <= |Hashed(a.client)| && |a.forwarded| <= |b.forwarded|
  }

  /** A turn that forwards one message for each it got, none of them empty, meets the second condition. */
  lemma {:induction false} NoneEmpty(ms: seq<Message>)
    requires forall i :: 0 <= i < |ms| ==> |ContentBlocks(ms[i].role, ms[i].content)| >= 1
    ensures |ms| <= |Hashed(ms)|
  {
    if ms != [] {
      HashedCons(ms);
      OneMessage(ms[0]);
      NoneEmpty(ms[1..]);
    }
  }

  lemma {:induction false} SplicedLength(turns: seq<Exchange>, k: nat)
    requires k < |turns|
    ensures |Spliced(turns, k)| == |turns[k].forwarded|
  {
  }

  /** On an append-only history each output extends the previous one exactly: no message that was forwarded
      is ever forwarded differently. */
  lemma {:induction false} OutputExtends(turns: seq<Exchange>, k: nat)
    requires k + 1 < |turns| && Extends(turns[k], turns[k + 1])
    ensures Spliced(turns, k) <= Spliced(turns, k + 1)
  {
    var a, b, out := turns[k], turns[k + 1], Spliced(turns, k);
    SplicedLength(turns, k);
    var ha, hb := Hashed(a.client), Hashed(b.client);
    assert ha[..|ha|] == ha && hb[..|ha|] == ha;
    CommonIs(ha, hb, |ha|);
    assert Replayed(a, out, b) == |out|;
    assert out[..|out|] == out;
  }

  // ---- What the cache makes of it ----

  datatype Timed = Timed(exchange: Exchange, now: real)

  function Exchanges(ts: seq<Timed>): (r: seq<Exchange>)
    ensures |r| == |ts|
  {
    seq(|ts|, k requires 0 <= k < |ts| => ts[k].exchange)
  }

  function BodyAt(head: Body, ts: seq<Timed>, k: nat): Body
    requires k < |ts|
  {
    head.(messages := Spliced(Exchanges(ts), k))
  }

  function RequestAt(est: Estimator, scope: string, head: Body, ts: seq<Timed>, k: nat): Request
    requires k < |ts|
  {
    Request(scope, Flatten(est, BodyAt(head, ts, k)), ts[k].now)
  }

  function Requests(est: Estimator, scope: string, head: Body, ts: seq<Timed>): (r: seq<Request>)
    ensures |r| == |ts|
  {
    seq(|ts|, k requires 0 <= k < |ts| => RequestAt(est, scope, head, ts, k))
  }

  ghost predicate Session(est: Estimator, head: Body, ts: seq<Timed>) {
    && ts != [] && 0.0 <= ts[0].now
    && (forall k :: 0 <= k < |ts| - 1 ==> InTime(est, head, ts, k))
  }

  /** Turn `k + 1` extends turn `k` and arrives before what turn `k` cached runs out. */
  ghost predicate InTime(est: Estimator, head: Body, ts: seq<Timed>, k: nat)
    requires k + 1 < |ts|
  {
    && Extends(ts[k].exchange, ts[k + 1].exchange) && 0.0 <= ts[k + 1].now
    && var segs := Flatten(est, BodyAt(head, ts, k));
       Last(segs) > 0 ==> ts[k + 1].now < ts[k].now + Lifetime(segs)
  }

  lemma {:induction false} ExtendedFollows(est: Estimator, a: Body, b: Body)
    requires a.tools == b.tools && a.system == b.system && a.messages <= b.messages
    ensures var ra, rb := Flatten(est, a), Flatten(est, b);
            Last(ra) <= Last(rb) && Shape(ra)[..Last(ra)] == Shape(rb)[..Last(ra)]
  {
    var n := |a.messages|;
    assert a.messages[..n] == a.messages && b.messages[..n] == a.messages;
    assert b.messages == a.messages + b.messages[n..];
    SegmentsOfConcat(est, a.messages, b.messages[n..]);
    LastMarkedConcat(MessageSegments(est, a.messages), MessageSegments(est, b.messages[n..]));
    SealedFollows(est, a, b, a.messages, b.messages, n);
  }

  lemma {:induction false} RequestsFollow(est: Estimator, scope: string, a: Body, b: Body, now: real, later: real)
    requires a.tools == b.tools && a.system == b.system && a.messages <= b.messages && 0.0 <= later
    requires var segs := Flatten(est, a); Last(segs) > 0 ==> later < now + Lifetime(segs)
    ensures Follows(Request(scope, Flatten(est, a), now), Request(scope, Flatten(est, b), later))
  {
    ExtendedFollows(est, a, b);
  }

  lemma {:induction false} BodyGrows(head: Body, ts: seq<Timed>, k: nat)
    requires k + 1 < |ts| && Extends(ts[k].exchange, ts[k + 1].exchange)
    ensures BodyAt(head, ts, k).messages <= BodyAt(head, ts, k + 1).messages
  {
    OutputExtends(Exchanges(ts), k);
  }

  lemma {:induction false} SpliceFollows(est: Estimator, scope: string, head: Body, ts: seq<Timed>, k: nat)
    requires k + 1 < |ts| && InTime(est, head, ts, k)
    ensures Follows(RequestAt(est, scope, head, ts, k), RequestAt(est, scope, head, ts, k + 1))
  {
    BodyGrows(head, ts, k);
    RequestsFollow(est, scope, BodyAt(head, ts, k), BodyAt(head, ts, k + 1), ts[k].now, ts[k + 1].now);
  }

  /** The spliced arm of an append-only session, with the head of the request held fixed, writes each token
      once, however the proxy's own forwarding changes its mind from turn to turn. */
  lemma {:induction false} SpliceWritesOnce(est: Estimator, scope: string, head: Body, plain: Plain, ts: seq<Timed>)
    requires Session(est, head, ts) && Cold(plain, scope)
    ensures WrittenOnceBy(plain, Requests(est, scope, head, ts))
  {
    var rs := SpliceConverses(est, scope, head, ts);
    WriteOnce(plain, rs);
  }

  lemma {:induction false} SpliceConverses(est: Estimator, scope: string, head: Body, ts: seq<Timed>)
    returns (rs: seq<Request>)
    requires Session(est, head, ts)
    ensures rs == Requests(est, scope, head, ts)
    ensures |rs| == |ts| && Conversation(rs) && rs[0].scope == scope && rs[0].now == ts[0].now
  {
    rs := Requests(est, scope, head, ts);
    forall k | 0 <= k < |rs| - 1 ensures Follows(rs[k], rs[k + 1]) {
      NextFollows(est, scope, head, ts, rs, k);
    }
  }

  lemma {:induction false} NextFollows(est: Estimator, scope: string, head: Body, ts: seq<Timed>, rs: seq<Request>,
                                       k: nat)
    requires Session(est, head, ts) && rs == Requests(est, scope, head, ts) && k + 1 < |ts|
    ensures Follows(rs[k], rs[k + 1])
  {
    assert InTime(est, head, ts, k);
    SpliceFollows(est, scope, head, ts, k);
    assert rs[k] == RequestAt(est, scope, head, ts, k) && rs[k + 1] == RequestAt(est, scope, head, ts, k + 1);
  }
}
