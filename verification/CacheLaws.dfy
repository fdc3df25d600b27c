/** What a bill and a cache entry come to, in tokens and seconds, stated without the functions that compute
    them. */
module CacheLaws {
  import opened Wire
  import opened Flattening
  import opened PlainCache
  import opened CacheRuns
  import Sim = CacheSim

  // ---- The tier of a write ----

  lemma {:induction false} NothingAtTier(segs: seq<Segment>, lo: nat, hi: nat, hour: bool)
    requires hi <= |segs|
    requires forall i :: 0 <= i < |segs| && segs[i].ttl.Some? ==> (segs[i].ttl.value == "1h") != hour
    ensures Written(segs, lo, hi, hour) == 0
  {
    if lo < hi {
      NothingAtTier(segs, lo, hi - 1, hour);
    }
  }

  /** A request that asks for no hour is billed none. */
  lemma {:induction false} NoHourAsked(plain: Plain, r: Request)
    requires forall i :: 0 <= i < |r.segs| ==> r.segs[i].ttl != Some("1h")
    ensures Billed(plain, r).write1h == 0
  {
    if Last(r.segs) > 0 {
      NothingAtTier(r.segs, ReadIndex(plain, r), Last(r.segs), true);
    }
  }

  /** A request that asks for nothing but hours is billed nothing else. */
  lemma {:induction false} OnlyHoursAsked(plain: Plain, r: Request)
    requires forall i :: 0 <= i < |r.segs| && r.segs[i].ttl.Some? ==> r.segs[i].ttl == Some("1h")
    ensures Billed(plain, r).write5m == 0
  {
    if Last(r.segs) > 0 {
      NothingAtTier(r.segs, ReadIndex(plain, r), Last(r.segs), false);
    }
  }

  /** `at` lists, in order, the segments past `read` that carry a marker on a prefix of 1024 tokens or more. */
  ghost predicate ListsCacheable(segs: seq<Segment>, read: nat, at: seq<nat>) {
    && (forall k :: 0 <= k < |at| ==> Cacheable(segs, at[k]) && read < at[k])
    && (forall k, l :: 0 <= k < l < |at| ==> at[k] < at[l])
    && (forall i :: Cacheable(segs, i) && read < i ==> i in at)
  }

  ghost predicate Cacheable(segs: seq<Segment>, i: nat) {
    0 < i <= |segs| && segs[i - 1].ttl.Some? && Upto(segs, i) >= 1024
  }

  /** The tokens of the spans that end at an hour-long marker, or at any other one. */
  ghost function SpanTokens(segs: seq<Segment>, read: nat, at: seq<nat>, n: nat, hour: bool): int
    requires n <= |at| && read <= |segs| && forall k :: 0 <= k < |at| ==> 0 < at[k] <= |segs|
  {
    if n == 0 then 0
    else
      var from := if n == 1 then read else at[n - 2];
      SpanTokens(segs, read, at, n - 1, hour)
      + if (segs[at[n - 1] - 1].ttl == Some("1h")) == hour then Upto(segs, at[n - 1]) - Upto(segs, from) else 0
  }

  lemma {:induction false} CacheableIs(segs: seq<Segment>, i: nat)
    ensures Cacheable(segs, i) <==> IsBreakpoint(segs, i)
  {
  }

  /** Between two listed breakpoints there is none. */
  lemma {:induction false} PreviousOf(segs: seq<Segment>, read: nat, at: seq<nat>, n: nat)
    requires ListsCacheable(segs, read, at) && 0 < n <= |at|
    ensures LastBefore(segs, at[n - 1] - 1) <= if n == 1 then read else at[n - 2]
  {
    var i := LastBefore(segs, at[n - 1] - 1);
    if i > read {
      assert Cacheable(segs, i);
      var k :| 0 <= k < |at| && at[k] == i;
      assert k < n - 1;
    }
  }

  lemma {:induction false} SpansUpTo(segs: seq<Segment>, read: nat, at: seq<nat>, n: nat, hour: bool)
    requires ListsCacheable(segs, read, at) && 0 < n <= |at| && read <= |segs|
    ensures Written(segs, read, at[n - 1], hour) == SpanTokens(segs, read, at, n, hour)
  {
    var from := if n == 1 then read else at[n - 2];
    if n > 1 {
      SpansUpTo(segs, read, at, n - 1, hour);
    }
    PreviousOf(segs, read, at, n);
    CacheableIs(segs, at[n - 1]);
    Sim.SpanWritten(segs, read, from, at[n - 1], at[n - 1], hour);
  }

  /** Every span past the read, from one breakpoint to the next, is billed at the tier the marker at its end asks
      for, and nothing else is written. */
  lemma {:induction false} BilledByTier(plain: Plain, r: Request, at: seq<nat>)
    requires Last(r.segs) > 0 && ListsCacheable(r.segs, ReadIndex(plain, r), at)
    ensures var read := ReadIndex(plain, r);
            && Billed(plain, r).write1h == SpanTokens(r.segs, read, at, |at|, true)
            && Billed(plain, r).write5m == SpanTokens(r.segs, read, at, |at|, false)
  {
    var read, last := ReadIndex(plain, r), Last(r.segs);
    CacheableIs(r.segs, last);
    if last <= read {
      assert at == [] by {
        if at != [] {
          NotPastLast(r.segs, at[0]);
        }
      }
    } else {
      assert last in at;
      var k :| 0 <= k < |at| && at[k] == last;
      NotPastLast(r.segs, at[|at| - 1]);
      assert at[|at| - 1] == last;
      SpansUpTo(r.segs, read, at, |at|, true);
      SpansUpTo(r.segs, read, at, |at|, false);
    }
  }

  lemma {:induction false} NotPastLast(segs: seq<Segment>, i: nat)
    ensures Cacheable(segs, i) ==> i <= Last(segs)
  {
    if Last(segs) < i <= |segs| {
      NoneAfterLast(segs, |segs|, i);
    }
  }

  /** One marked block of 2000 tokens, cold. */
  lemma {:induction false} OneBlock(scope: string, d: Digest, ttl: string)
    ensures var r := Request(scope, [Segment(2000, Some(ttl), d)], 0.0);
            Billed(map[], r) == if ttl == "1h" then Usage(0, 0, 0, 2000) else Usage(0, 0, 2000, 0)
  {
    var r := Request(scope, [Segment(2000, Some(ttl), d)], 0.0);
    assert Upto(r.segs, 0) == 0;
    assert Upto(r.segs, 1) == 2000;
    assert IsBreakpoint(r.segs, 1);
    FirstTurn(map[], r);
    Conservation(map[], r);
    if ttl == "1h" {
      OnlyHoursAsked(map[], r);
    } else {
      NoHourAsked(map[], r);
    }
  }

  function TwoMarked(d: Digest, e: Digest): seq<Segment> {
    [Segment(2000, Some("1h"), d), Segment(1000, Some("5m"), e)]
  }

  lemma {:induction false} TwoMarkedUpto(d: Digest, e: Digest)
    ensures Upto(TwoMarked(d, e), 1) == 2000 && Upto(TwoMarked(d, e), 2) == 3000 && Last(TwoMarked(d, e)) == 2
  {
    assert Upto(TwoMarked(d, e), 0) == 0;
    assert Upto(TwoMarked(d, e), 1) == 2000;
    assert IsBreakpoint(TwoMarked(d, e), 2);
  }

  lemma {:induction false} TwoSpans(segs: seq<Segment>, hour: bool)
    requires |segs| == 2 && segs[0].ttl == Some("1h") && segs[1].ttl == Some("5m")
    requires Upto(segs, 1) == 2000 && Upto(segs, 2) == 3000
    ensures SpanTokens(segs, 0, [1, 2], 2, hour) == if hour then 2000 else 1000
  {
    assert SpanTokens(segs, 0, [1, 2], 0, hour) == 0;
    assert Upto(segs, 0) == 0;
    assert SpanTokens(segs, 0, [1, 2], 1, hour) == if hour then 2000 else 0;
  }

  lemma {:induction false} TwoListed(segs: seq<Segment>)
    requires |segs| == 2 && segs[0].ttl == Some("1h") && segs[1].ttl == Some("5m")
    requires Upto(segs, 1) == 2000 && Upto(segs, 2) == 3000
    ensures ListsCacheable(segs, 0, [1, 2])
  {
    assert forall i :: Cacheable(segs, i) ==> i == 1 || i == 2;
  }

  /** An hour-long marker and a shorter one behind it, cold: each span at its own tier. */
  lemma {:induction false} TwoTiers(scope: string, d: Digest, e: Digest)
    ensures Billed(map[], Request(scope, TwoMarked(d, e), 0.0)) == Usage(0, 0, 1000, 2000)
  {
    var r := Request(scope, TwoMarked(d, e), 0.0);
    TwoMarkedUpto(d, e);
    FirstTurn(map[], r);
    Conservation(map[], r);
    ReadIs(map[], r, 2, 0);
    TwoListed(r.segs);
    BilledByTier(map[], r, [1, 2]);
    TwoSpans(r.segs, true);
    TwoSpans(r.segs, false);
  }

  // ---- The floor ----

  /** Under 1024 tokens nothing is cached, whatever is marked. */
  lemma {:induction false} SmallIsNotCached(plain: Plain, r: Request)
    requires Total(r.segs) < 1024
    ensures Billed(plain, r) == Usage(Total(r.segs), 0, 0, 0) && After(plain, r) == plain
  {
    forall i | 0 < i <= |r.segs| ensures !IsBreakpoint(r.segs, i) {
      UptoGrows(r.segs, i, |r.segs|);
    }
    assert Last(r.segs) == 0;
    Sim.NothingStored(plain, r, |r.segs|);
  }

  /** From 1024 on, a marker on the last block caches all of it. */
  lemma {:induction false} LargeIsCached(r: Request)
    requires r.segs != [] && r.segs[|r.segs| - 1].ttl.Some? && Total(r.segs) >= 1024 && 0.0 <= r.now
    ensures Billed(map[], r).Create() == Total(r.segs)
  {
    assert IsBreakpoint(r.segs, |r.segs|);
    FirstTurn(map[], r);
  }

  // ---- How long an entry lives ----

  /** A breakpoint's entry lives an hour or five minutes from now, even if that is sooner than it would have. */
  lemma {:induction false} EntryTime(plain: Plain, r: Request, i: nat)
    requires Cacheable(r.segs, i)
    ensures Expiry(After(plain, r), PrefixAt(r.scope, r.segs, i))
         == r.now + if r.segs[i - 1].ttl == Some("1h") then 3600.0 else 300.0
  {
    StoredBreakpoint(plain, r, i);
  }

  /** The entry that was read, if no breakpoint is on it, is not shortened, and is good for five minutes. */
  lemma {:induction false} ReadIsRenewed(plain: Plain, r: Request, i: nat)
    requires i == ReadIndex(plain, r) && 0 < i && !Cacheable(r.segs, i)
    ensures var p := PrefixAt(r.scope, r.segs, i);
            var before, after := Expiry(plain, p), Expiry(After(plain, r), p);
            after >= before && after >= r.now + 300.0 && (after == before || after == r.now + 300.0)
  {
    var p := PrefixAt(r.scope, r.segs, i);
    assert |p.digests| == i;
    AfterAt(plain, r, p);
  }

  /** Nothing else changes: not other scopes, not prefixes of other requests, not prefixes without a breakpoint. */
  lemma {:induction false} OthersKept(plain: Plain, r: Request, p: Prefix)
    requires p.scope != r.scope || !(p.digests <= Digests(r.segs))
             || (!Cacheable(r.segs, |p.digests|) && |p.digests| != ReadIndex(plain, r))
    ensures Sim.Look(After(plain, r), p) == Sim.Look(plain, p)
  {
    AfterAt(plain, r, p);
  }

  /** An entry is read up to the moment it expires, and not at that moment. */
  lemma {:induction false} ReadUntilExpiry(r: Request, expiry: real)
    requires r.segs != [] && r.segs[|r.segs| - 1].ttl.Some? && Total(r.segs) >= 1024 && 0.0 <= r.now
    ensures var plain := map[PrefixAt(r.scope, r.segs, |r.segs|) := expiry];
            Billed(plain, r).read == if r.now < expiry then Total(r.segs) else 0
  {
    var p := PrefixAt(r.scope, r.segs, |r.segs|);
    var plain := map[p := expiry];
    assert IsBreakpoint(r.segs, |r.segs|);
    forall j | 0 < j < |r.segs| ensures !Live(plain, PrefixAt(r.scope, r.segs, j), r.now) {
      assert |PrefixAt(r.scope, r.segs, j).digests| == j && |p.digests| == |r.segs|;
    }
    ReadIs(plain, r, |r.segs|, if r.now < expiry then |r.segs| else 0);
  }

  /** Eviction leaves the live entries, as they were, and no others. */
  lemma {:induction false} OnlyLiveIsLeft(plain: Plain, now: real, p: Prefix)
    requires 0.0 <= now
    ensures Sim.Look(Sim.Evicted(plain, now), p) == if Live(plain, p, now) then Sim.Look(plain, p) else None
  {
  }
}
