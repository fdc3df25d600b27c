/** The simulator itself: a dictionary from chained prefix digests to expiry times. */
module CacheSim {
  import opened Wire
  import opened Flattening
  import opened PlainCache

  /** The running hash: seeded with the scope, fed one segment digest at a time. */
  datatype Hasher<!K> = Hasher(seed: string -> K, update: (K, Digest) -> K)

  function Chain<K>(h: Hasher<K>, p: Prefix): K
    decreases |p.digests|
  {
    if p.digests == [] then h.seed(p.scope)
    else
      var n := |p.digests| - 1;
      h.update(Chain(h, Prefix(p.scope, p.digests[..n])), p.digests[n])
  }

  /** No two prefixes share a digest. */
  ghost predicate CollisionFree<K>(h: Hasher<K>) {
    forall p, q :: Chain(h, p) == Chain(h, q) ==> p == q
  }

  /** The digest that keeps everything: what a hash without collisions stands for. */
  function Ideal(): Hasher<Prefix> {
    Hasher((scope: string) => Prefix(scope, []), (p: Prefix, d: Digest) => Prefix(p.scope, p.digests + [d]))
  }

  lemma {:induction false} IdealChain(p: Prefix)
    ensures Chain(Ideal(), p) == p
    decreases |p.digests|
  {
    if p.digests != [] {
      var n := |p.digests| - 1;
      IdealChain(Prefix(p.scope, p.digests[..n]));
      assert p.digests == p.digests[..n] + [p.digests[n]];
    }
  }

  lemma {:induction false} IdealIsCollisionFree()
    ensures CollisionFree(Ideal())
  {
    forall p, q | Chain(Ideal(), p) == Chain(Ideal(), q) ensures p == q {
      IdealChain(p);
      IdealChain(q);
    }
  }

  function Look<T>(m: map<T, real>, k: T): Option<real> { if k in m then Some(m[k]) else None }

  function Entry<K>(h: Hasher<K>, entries: map<K, real>, p: Prefix): Option<real> { Look(entries, Chain(h, p)) }

  /** The dictionary holds exactly what the plain map holds, under the chained digests. */
  ghost predicate Agrees<K>(h: Hasher<K>, entries: map<K, real>, plain: Plain) {
    forall p :: Entry(h, entries, p) == Look(plain, p)
  }

  lemma {:induction false} ChainStep<K>(h: Hasher<K>, scope: string, segs: seq<Segment>, i: nat)
    requires i < |segs|
    ensures Chain(h, PrefixAt(scope, segs, i + 1)) == h.update(Chain(h, PrefixAt(scope, segs, i)), segs[i].digest)
  {
    var p := PrefixAt(scope, segs, i + 1);
    assert p.digests[..i] == Digests(segs)[..i];
    assert p.digests[i] == segs[i].digest;
  }

  lemma {:induction false} AgreesUpdate<K>(h: Hasher<K>, entries: map<K, real>, plain: Plain, p: Prefix, v: real)
    requires CollisionFree(h) && Agrees(h, entries, plain)
    ensures Agrees(h, entries[Chain(h, p) := v], plain[p := v])
  {
    var entries', plain' := entries[Chain(h, p) := v], plain[p := v];
    forall q ensures Entry(h, entries', q) == Look(plain', q) {
      assert Entry(h, entries, q) == Look(plain, q);
      assert Chain(h, q) == Chain(h, p) ==> q == p;
    }
  }

  /** A boundary of the walk: the tokens so far and the running digest. */
  datatype Boundary<K> = Boundary(tokens: nat, key: K)

  datatype Breakpoint<K> = Breakpoint(tokens: nat, key: K, ttl: string)

  function BoundaryAt<K>(h: Hasher<K>, scope: string, segs: seq<Segment>, i: nat): Boundary<K>
    requires i <= |segs|
  {
    Boundary(Upto(segs, i), Chain(h, PrefixAt(scope, segs, i)))
  }

  function Boundaries<K>(h: Hasher<K>, scope: string, segs: seq<Segment>, n: nat): (r: seq<Boundary<K>>)
    requires n <= |segs|
    ensures |r| == n
    ensures forall i :: 0 <= i < n ==> r[i] == BoundaryAt(h, scope, segs, i + 1)
  {
    if n == 0 then [] else Boundaries(h, scope, segs, n - 1) + [BoundaryAt(h, scope, segs, n)]
  }

  /** The breakpoints (counting segments from one) among the first `n` segments, in order. */
  function BreakpointsIn(segs: seq<Segment>, n: nat): (at: seq<nat>)
    requires n <= |segs|
    ensures forall k :: 0 <= k < |at| ==> at[k] <= n && IsBreakpoint(segs, at[k])
  {
    if n == 0 then []
    else if IsBreakpoint(segs, n) then BreakpointsIn(segs, n - 1) + [n]
    else BreakpointsIn(segs, n - 1)
  }

  function BreakpointAt<K>(h: Hasher<K>, scope: string, segs: seq<Segment>, i: nat): Breakpoint<K>
    requires IsBreakpoint(segs, i)
  {
    Breakpoint(Upto(segs, i), Chain(h, PrefixAt(scope, segs, i)), segs[i - 1].ttl.value)
  }

  function Breakpoints<K>(h: Hasher<K>, scope: string, segs: seq<Segment>, at: seq<nat>): (r: seq<Breakpoint<K>>)
    requires forall k :: 0 <= k < |at| ==> IsBreakpoint(segs, at[k])
    ensures |r| == |at|
  {
    seq(|at|, k requires 0 <= k < |at| => BreakpointAt(h, scope, segs, at[k]))
  }

  /** The breakpoints among the first `n` segments, as they are recorded. */
  function Recorded<K>(h: Hasher<K>, scope: string, segs: seq<Segment>, n: nat): seq<Breakpoint<K>>
    requires n <= |segs|
  {
    Breakpoints(h, scope, segs, BreakpointsIn(segs, n))
  }

  lemma {:induction false} RecordedStep<K>(h: Hasher<K>, scope: string, segs: seq<Segment>, i: nat)
    requires i < |segs|
    ensures Recorded(h, scope, segs, i + 1)
         == Recorded(h, scope, segs, i)
            + if IsBreakpoint(segs, i + 1) then [BreakpointAt(h, scope, segs, i + 1)] else []
  {
    var at := BreakpointsIn(segs, i);
    if IsBreakpoint(segs, i + 1) {
      assert Breakpoints(h, scope, segs, at + [i + 1])
          == Breakpoints(h, scope, segs, at) + [BreakpointAt(h, scope, segs, i + 1)];
    }
  }

  /** One pass over the segments: all boundaries, and those of them that are breakpoints. */
  method Walk<K>(h: Hasher<K>, scope: string, segs: seq<Segment>)
    returns (boundaries: seq<Boundary<K>>, breakpoints: seq<Breakpoint<K>>, total: nat)
    ensures boundaries == Boundaries(h, scope, segs, |segs|)
    ensures breakpoints == Breakpoints(h, scope, segs, BreakpointsIn(segs, |segs|))
    ensures total == Total(segs)
  {
    var running := h.seed(scope);
    assert running == Chain(h, PrefixAt(scope, segs, 0));
    total := 0;
    boundaries, breakpoints := [], [];
    var i := 0;
    while i < |segs|
      invariant 0 <= i <= |segs|
      invariant running == Chain(h, PrefixAt(scope, segs, i))
      invariant total == Upto(segs, i)
      invariant boundaries == Boundaries(h, scope, segs, i)
      invariant breakpoints == Recorded(h, scope, segs, i)
    {
      ChainStep(h, scope, segs, i);
      RecordedStep(h, scope, segs, i);
      running := h.update(running, segs[i].digest);
      total := total + segs[i].tokens;
      boundaries := boundaries + [Boundary(total, running)];
      if segs[i].ttl.Some? && total >= MIN_CACHEABLE_TOKENS {
        breakpoints := breakpoints + [Breakpoint(total, running, segs[i].ttl.value)];
      }
      i := i + 1;
    }
  }

  /** The last listed breakpoint is the last breakpoint. */
  lemma {:induction false} LastListed(segs: seq<Segment>, n: nat)
    requires n <= |segs|
    ensures var at := BreakpointsIn(segs, n);
            LastBefore(segs, n) == if at == [] then 0 else at[|at| - 1]
  {
    if n > 0 && !IsBreakpoint(segs, n) {
      LastListed(segs, n - 1);
    }
  }

  /** Each span is charged to the breakpoint that closes it, so the segments between two consecutive
      breakpoints all go to one tier. */
  lemma {:induction false} SpanWritten(segs: seq<Segment>, lo: nat, from: nat, m: nat, to: nat, hour: bool)
    requires lo <= from <= m <= to && from < to && IsBreakpoint(segs, to) && LastBefore(segs, to - 1) <= from
    ensures Written(segs, lo, m, hour)
         == Written(segs, lo, from, hour)
            + if (segs[to - 1].ttl.value == "1h") == hour then Upto(segs, m) - Upto(segs, from) else 0
  {
    if from < m {
      SpanWritten(segs, lo, from, m - 1, to, hour);
      ClosedBy(segs, m - 1, to);
    }
  }

  lemma {:induction false} Listed(segs: seq<Segment>, n: nat, i: nat)
    requires i <= n <= |segs| && IsBreakpoint(segs, i)
    ensures i in BreakpointsIn(segs, n)
  {
    if i < n {
      Listed(segs, n - 1, i);
    }
  }

  /** What is listed ahead of a breakpoint is what lies before it. */
  lemma {:induction false} ListedBefore(segs: seq<Segment>, n: nat, k: nat)
    requires n <= |segs| && k < |BreakpointsIn(segs, n)|
    ensures BreakpointsIn(segs, BreakpointsIn(segs, n)[k] - 1) == BreakpointsIn(segs, n)[..k]
  {
    if IsBreakpoint(segs, n) && k == |BreakpointsIn(segs, n)| - 1 {
      assert BreakpointsIn(segs, n)[..k] == BreakpointsIn(segs, n - 1);
    } else {
      ListedBefore(segs, n - 1, k);
      if IsBreakpoint(segs, n) {
        assert BreakpointsIn(segs, n)[..k] == BreakpointsIn(segs, n - 1)[..k];
      }
    }
  }

  lemma {:induction false} PreviousListed(segs: seq<Segment>, k: nat)
    requires k < |BreakpointsIn(segs, |segs|)|
    ensures var at := BreakpointsIn(segs, |segs|);
            LastBefore(segs, at[k] - 1) == if k == 0 then 0 else at[k - 1]
  {
    var at := BreakpointsIn(segs, |segs|);
    ListedBefore(segs, |segs|, k);
    LastListed(segs, at[k] - 1);
  }

  /** What has been charged once the breakpoints up to segment `done` are accounted for. */
  ghost predicate Accounted(segs: seq<Segment>, read: nat, done: nat, previous: nat, write5m: nat, write1h: nat)
  {
    && done <= |segs| && read <= |segs|
    && previous == Upto(segs, if done <= read then read else done)
    && write5m == Written(segs, read, done, false)
    && write1h == Written(segs, read, done, true)
  }

  lemma {:induction false} AccountSpan(segs: seq<Segment>, read: nat, done: nat, i: nat, previous: nat, write5m: nat,
                                       write1h: nat)
    requires Accounted(segs, read, done, previous, write5m, write1h)
    requires IsBreakpoint(segs, i) && done == LastBefore(segs, i - 1)
    ensures Upto(segs, i) <= Upto(segs, read) ==> Accounted(segs, read, i, previous, write5m, write1h)
    ensures Upto(segs, i) > Upto(segs, read) ==>
      var span := Upto(segs, i) - previous;
      && span >= 0
      && if segs[i - 1].ttl.value == "1h"
         then Accounted(segs, read, i, Upto(segs, i), write5m, write1h + span)
         else Accounted(segs, read, i, Upto(segs, i), write5m + span, write1h)
  {
    var prev := if done <= read then read else done;
    if i <= read {
      UptoGrows(segs, i, read);
    } else {
      UptoGrows(segs, read, i);
      UptoGrows(segs, prev, i);
      SpanWritten(segs, read, prev, i, i, false);
      SpanWritten(segs, read, prev, i, i, true);
    }
  }

  /** One breakpoint: nothing if it was read past, else its span at its tier. */
  method AddSpan<K>(b: Breakpoint<K>, readUpto: nat, previous: nat, write5m: nat, write1h: nat,
                    ghost segs: seq<Segment>, ghost read: nat, ghost done: nat, ghost i: nat)
    returns (previous': nat, write5m': nat, write1h': nat)
    requires Accounted(segs, read, done, previous, write5m, write1h)
    requires IsBreakpoint(segs, i) && done == LastBefore(segs, i - 1) && readUpto == Upto(segs, read)
    requires b.tokens == Upto(segs, i) && b.ttl == segs[i - 1].ttl.value
    ensures Accounted(segs, read, i, previous', write5m', write1h')
  {
    previous', write5m', write1h' := previous, write5m, write1h;
    AccountSpan(segs, read, done, i, previous, write5m, write1h);
    if b.tokens > readUpto {
      var span := b.tokens - previous;
      if b.ttl == "1h" {
        write1h' := write1h + span;
      } else {
        write5m' := write5m + span;
      }
      previous' := b.tokens;
    }
  }

  /** The segment up to which `k` listed breakpoints account for everything. */
  ghost function DoneAt(segs: seq<Segment>, k: nat): nat
    requires k <= |BreakpointsIn(segs, |segs|)|
  {
    if k == 0 then 0 else BreakpointsIn(segs, |segs|)[k - 1]
  }

  lemma {:induction false} NextSpan<K>(h: Hasher<K>, scope: string, segs: seq<Segment>, k: nat, b: Breakpoint<K>)
    returns (i: nat)
    requires k < |BreakpointsIn(segs, |segs|)| && b == Recorded(h, scope, segs, |segs|)[k]
    ensures i == DoneAt(segs, k + 1) && IsBreakpoint(segs, i) && DoneAt(segs, k) == LastBefore(segs, i - 1)
    ensures b.tokens == Upto(segs, i) && b.ttl == segs[i - 1].ttl.value
  {
    var at := BreakpointsIn(segs, |segs|);
    i := at[k];
    assert b == BreakpointAt(h, scope, segs, i);
    PreviousListed(segs, k);
  }

  lemma {:induction false} AllDone(segs: seq<Segment>)
    ensures DoneAt(segs, |BreakpointsIn(segs, |segs|)|) == Last(segs)
  {
    LastListed(segs, |segs|);
  }

  /** The loop over the breakpoints: what it charges to each tier, up to the last one. */
  method Spans<K>(ghost h: Hasher<K>, ghost scope: string, ghost segs: seq<Segment>,
                  breakpoints: seq<Breakpoint<K>>, ghost read: nat, readUpto: nat)
    returns (write5m: nat, write1h: nat)
    requires breakpoints == Breakpoints(h, scope, segs, BreakpointsIn(segs, |segs|))
    requires read <= |segs| && readUpto == Upto(segs, read)
    ensures write5m == Written(segs, read, Last(segs), false)
    ensures write1h == Written(segs, read, Last(segs), true)
  {
    write5m, write1h := 0, 0;
    var previous := readUpto;
    var k := 0;
    while k < |breakpoints|
      invariant 0 <= k <= |breakpoints|
      invariant Accounted(segs, read, DoneAt(segs, k), previous, write5m, write1h)
    {
      ghost var i := NextSpan(h, scope, segs, k, breakpoints[k]);
      previous, write5m, write1h :=
        AddSpan(breakpoints[k], readUpto, previous, write5m, write1h, segs, read, DoneAt(segs, k), i);
      k := k + 1;
    }
    AllDone(segs);
  }

  /** Storing the listed breakpoints one by one is storing them segment by segment. */
  ghost function StoredList(plain: Plain, r: Request, at: seq<nat>): Plain
    requires forall k :: 0 <= k < |at| ==> IsBreakpoint(r.segs, at[k])
  {
    if at == [] then plain
    else
      var n := |at| - 1;
      assert IsBreakpoint(r.segs, at[n]);
      StoredList(plain, r, at[..n])[PrefixAt(r.scope, r.segs, at[n]) := r.now + TtlSeconds(r.segs[at[n] - 1].ttl.value)]
  }

  lemma {:induction false} StoredListed(plain: Plain, r: Request, n: nat)
    requires n <= |r.segs|
    ensures StoredList(plain, r, BreakpointsIn(r.segs, n)) == Stored(plain, r, n)
  {
    if n > 0 {
      StoredListed(plain, r, n - 1);
      if IsBreakpoint(r.segs, n) {
        StoredListAppend(plain, r, BreakpointsIn(r.segs, n - 1), n);
      }
    }
  }

  lemma {:induction false} StoredListAppend(plain: Plain, r: Request, at: seq<nat>, i: nat)
    requires IsBreakpoint(r.segs, i) && forall k :: 0 <= k < |at| ==> IsBreakpoint(r.segs, at[k])
    ensures StoredList(plain, r, at + [i])
         == StoredList(plain, r, at)[PrefixAt(r.scope, r.segs, i) := r.now + TtlSeconds(r.segs[i - 1].ttl.value)]
  {
    assert (at + [i])[..|at|] == at;
  }

  lemma {:induction false} LastRecorded<K>(h: Hasher<K>, scope: string, segs: seq<Segment>,
                                           breakpoints: seq<Breakpoint<K>>)
    returns (last: nat)
    requires breakpoints == Breakpoints(h, scope, segs, BreakpointsIn(segs, |segs|)) && breakpoints != []
    ensures last == Last(segs) && 0 < last && breakpoints[|breakpoints| - 1].tokens == Upto(segs, last)
  {
    var at := BreakpointsIn(segs, |segs|);
    LastListed(segs, |segs|);
    last := at[|at| - 1];
    assert breakpoints[|at| - 1] == BreakpointAt(h, scope, segs, last);
  }

  class CacheSim<K(==)> {
    const h: Hasher<K>
    const est: Estimator
    var entries: map<K, real>
    /** The plain map this dictionary stands for. */
    ghost var plain: Plain

    ghost predicate Valid()
      reads this
    {
      CollisionFree(h) && Agrees(h, entries, plain)
    }

    constructor (h: Hasher<K>, est: Estimator)
      requires CollisionFree(h)
      ensures Valid() && plain == map[] && this.h == h && this.est == est
    {
      this.h, this.est := h, est;
      entries, plain := map[], map[];
    }

    /** The backwards search: the boundary it stops at is the longest prefix that is live. */
    method FindRead(ghost r: Request, boundaries: seq<Boundary<K>>, now: real)
      returns (ghost read: nat, readUpto: nat, readKey: Option<K>)
      requires Valid() && now == r.now
      requires boundaries == Boundaries(h, r.scope, r.segs, |r.segs|)
      ensures read == ReadBefore(plain, r, |r.segs|)
      ensures readUpto == Upto(r.segs, read)
      ensures readKey == if read == 0 then None else Some(Chain(h, PrefixAt(r.scope, r.segs, read)))
    {
      readUpto, readKey, read := 0, None, 0;
      var i := |boundaries|;
      while i > 0
        invariant 0 <= i <= |boundaries|
        invariant ReadBefore(plain, r, |r.segs|) == ReadBefore(plain, r, i)
      {
        var b := boundaries[i - 1];
        ghost var p := PrefixAt(r.scope, r.segs, i);
        assert b == BoundaryAt(h, r.scope, r.segs, i);
        assert Entry(h, entries, p) == Look(plain, p);
        if (if b.key in entries then entries[b.key] else 0.0) > now {
          assert Live(plain, p, now);
          read, readUpto, readKey := i, b.tokens, Some(b.key);
          return;
        }
        i := i - 1;
      }
    }

    /** Every breakpoint gets an entry that runs from now, whether it had one or not. */
    method Store(ghost r: Request, breakpoints: seq<Breakpoint<K>>, now: real)
      requires Valid() && now == r.now
      requires breakpoints == Breakpoints(h, r.scope, r.segs, BreakpointsIn(r.segs, |r.segs|))
      modifies this
      ensures Valid() && plain == Stored(old(plain), r, |r.segs|)
    {
      ghost var at := BreakpointsIn(r.segs, |r.segs|);
      var k := 0;
      while k < |breakpoints|
        invariant 0 <= k <= |breakpoints|
        invariant Valid()
        invariant plain == StoredList(old(plain), r, at[..k])
      {
        var b := breakpoints[k];
        ghost var p := PrefixAt(r.scope, r.segs, at[k]);
        assert b == BreakpointAt(h, r.scope, r.segs, at[k]);
        var expiry := now + TtlSeconds(b.ttl);
        AgreesUpdate(h, entries, plain, p, expiry);
        entries := entries[b.key := expiry];
        plain := plain[p := expiry];
        assert at[..k + 1][..k] == at[..k];
        k := k + 1;
      }
      assert at[..k] == at;
      StoredListed(old(plain), r, |r.segs|);
    }

    /** Renews the entry that was read, for five more minutes. */
    method Renew(ghost p: Prefix, key: K, now: real)
      requires Valid() && key == Chain(h, p)
      modifies this
      ensures Valid()
      ensures plain == old(plain)[p := MaxReal(Expiry(old(plain), p), now + 300.0)]
    {
      assert Entry(h, entries, p) == Look(plain, p);
      var held := if key in entries then entries[key] else 0.0;
      var expiry := if held < now + 300.0 then now + 300.0 else held;
      AgreesUpdate(h, entries, plain, p, expiry);
      entries := entries[key := expiry];
      plain := plain[p := expiry];
    }

    /** The state a request with at least one breakpoint leaves behind. */
    method Refresh(ghost r: Request, breakpoints: seq<Breakpoint<K>>, ghost read: nat, readKey: Option<K>, now: real)
      requires Valid() && now == r.now
      requires breakpoints == Breakpoints(h, r.scope, r.segs, BreakpointsIn(r.segs, |r.segs|))
      requires read == ReadIndex(plain, r)
      requires readKey == if read == 0 then None else Some(Chain(h, PrefixAt(r.scope, r.segs, read)))
      modifies this
      ensures Valid() && plain == After(old(plain), r)
    {
      Store(r, breakpoints, now);
      if readKey.Some? {
        KeyListed(h, r, read);
        if readKey.value !in KeysOf(breakpoints) {
          Renew(PrefixAt(r.scope, r.segs, read), readKey.value, now);
        }
      }
    }

    /** Bills a request that has a breakpoint. */
    method ScoreCached(ghost r: Request, boundaries: seq<Boundary<K>>, breakpoints: seq<Breakpoint<K>>, total: nat,
                       now: real)
      returns (usage: Usage)
      requires Valid() && now == r.now && total == Total(r.segs) && breakpoints != []
      requires boundaries == Boundaries(h, r.scope, r.segs, |r.segs|)
      requires breakpoints == Breakpoints(h, r.scope, r.segs, BreakpointsIn(r.segs, |r.segs|))
      modifies this
      ensures Valid() && usage == Billed(old(plain), r) && plain == After(old(plain), r)
    {
      ghost var last := LastRecorded(h, r.scope, r.segs, breakpoints);
      ghost var read: nat;
      var readUpto, readKey;
      read, readUpto, readKey := FindRead(r, boundaries, now);
      var write5m, write1h := Spans(h, r.scope, r.segs, breakpoints, read, readUpto);
      usage := Usage(total - breakpoints[|breakpoints| - 1].tokens, readUpto, write5m, write1h);
      assert usage == Billed(plain, r);
      Refresh(r, breakpoints, read, readKey, now);
    }

    /** Bills one list of segments. */
    method ScoreSegments(segs: seq<Segment>, seed: string, now: real) returns (usage: Usage)
      requires Valid()
      modifies this
      ensures Valid()
      ensures usage == Billed(old(plain), Request(seed, segs, now))
      ensures plain == After(old(plain), Request(seed, segs, now))
    {
      ghost var r := Request(seed, segs, now);
      var boundaries, breakpoints, total := Walk(h, seed, segs);
      if breakpoints == [] {
        LastListed(segs, |segs|);
        usage := Usage(total, 0, 0, 0);
        NothingStored(plain, r, |segs|);
      } else {
        usage := ScoreCached(r, boundaries, breakpoints, total, now);
      }
    }

    /** Scores one request. The bill and the new state are those of the plain map. */
    method Score(body: Body, now: real, scope: string, budget: OverBudget) returns (usage: Usage)
      requires Valid()
      modifies this, budget
      ensures Valid()
      ensures var r := Request(if scope != "" then scope else body.model, Flatten(est, body), now);
              usage == Billed(old(plain), r) && plain == After(old(plain), r)
    {
      var segs := FlattenBody(est, body, budget);
      usage := ScoreSegments(segs, if scope != "" then scope else body.model, now);
    }

    method EvictExpired(now: real)
      requires Valid()
      modifies this
      ensures Valid() && plain == Evicted(old(plain), now)
      ensures forall k :: k in entries <==> k in old(entries) && old(entries)[k] > now
      ensures forall k :: k in entries ==> entries[k] == old(entries)[k]
    {
      ghost var entries0, plain0 := entries, plain;
      entries := map k | k in entries && entries[k] > now :: entries[k];
      plain := Evicted(plain, now);
      forall p ensures Entry(h, entries, p) == Look(plain, p) {
        assert Entry(h, entries0, p) == Look(plain0, p);
      }
    }
  }

  /** `evict_expired` on the plain map. */
  function Evicted(plain: Plain, now: real): Plain {
    map p | p in plain && plain[p] > now :: plain[p]
  }

  lemma {:induction false} NothingStored(plain: Plain, r: Request, n: nat)
    requires n <= |r.segs| && Last(r.segs) == 0
    ensures Stored(plain, r, n) == plain
  {
    if n > 0 {
      NothingStored(plain, r, n - 1);
      NoneAfterLast(r.segs, |r.segs|, n);
    }
  }

  function KeysOf<K(==)>(breakpoints: seq<Breakpoint<K>>): set<K> { set b | b in breakpoints :: b.key }

  /** The digest read is among the breakpoints' digests exactly when the read ends at a breakpoint. */
  lemma {:induction false} KeyListed<K>(h: Hasher<K>, r: Request, read: nat)
    requires CollisionFree(h) && 0 < read <= |r.segs|
    ensures var bps := Breakpoints(h, r.scope, r.segs, BreakpointsIn(r.segs, |r.segs|));
            Chain(h, PrefixAt(r.scope, r.segs, read)) in KeysOf(bps) <==> IsBreakpoint(r.segs, read)
  {
    var at := BreakpointsIn(r.segs, |r.segs|);
    var bps := Breakpoints(h, r.scope, r.segs, at);
    var p := PrefixAt(r.scope, r.segs, read);
    if IsBreakpoint(r.segs, read) {
      Listed(r.segs, |r.segs|, read);
      var l :| 0 <= l < |at| && at[l] == read;
      assert bps[l] in bps && bps[l].key == Chain(h, p);
    }
    if Chain(h, p) in KeysOf(bps) {
      var b :| b in bps && b.key == Chain(h, p);
      var l :| 0 <= l < |bps| && bps[l] == b;
      var q := PrefixAt(r.scope, r.segs, at[l]);
      assert Chain(h, p) == Chain(h, q);
      assert |p.digests| == read && |q.digests| == at[l];
    }
  }
}
