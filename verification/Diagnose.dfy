/** The cache-ratio diagnosis: the growth floor of a conversation, the creation in excess of it, and
    what that excess says about a cache that works. */
module Diagnose {
  import opened Wire
  import opened Flattening
  import opened PlainCache
  import opened CacheRuns

  // ---- The growth floor ----

  /** One billed turn of a conversation; `rRead` and `rUncached` are the shares of hidden rounds. */
  datatype Bill = Bill(conv: string, read: int, rRead: int, create: int, uncached: int, rUncached: int) {
    function Size(): int { (read - rRead) + create + (uncached - rUncached) }
  }

  /** A turn with its floor. */
  datatype Floored = Floored(conv: string, create: int, floor: int) {
    function Net(): int { create - floor }
  }

  /** The size of a turn is what its visible round read, created and left uncached: what hidden rounds add to
      the totals is taken off again. */
  lemma {:induction false} SizeIsVisible(t: Bill, hiddenRead: int, hiddenUncached: int)
    requires t.rRead == 0 && t.rUncached == 0
    ensures t.Size() == t.read + t.create + t.uncached
    ensures t.(read := t.read + hiddenRead, rRead := hiddenRead,
               uncached := t.uncached + hiddenUncached, rUncached := hiddenUncached).Size() == t.Size()
  {
  }

  function Peak(ts: seq<Bill>, n: nat): int
    requires 0 < n <= |ts|
  {
    if n == 1 then ts[0].Size() else Max(Peak(ts, n - 1), ts[n - 1].Size())
  }

  /** How far a turn rises above everything its conversation had reached before. */
  function Floor(ts: seq<Bill>, k: nat): int
    requires k < |ts|
  {
    if k == 0 then 0 else Max(0, ts[k].Size() - Peak(ts, k))
  }

  function Floors(ts: seq<Bill>): (r: seq<int>)
    ensures |r| == |ts|
  {
    seq(|ts|, k requires 0 <= k < |ts| => Floor(ts, k))
  }

  function SumInts(xs: seq<int>): int {
    if xs == [] then 0 else SumInts(xs[..|xs| - 1]) + xs[|xs| - 1]
  }

  lemma {:induction false} PeakIsMax(ts: seq<Bill>, n: nat)
    requires 0 < n <= |ts|
    ensures forall k :: 0 <= k < n ==> ts[k].Size() <= Peak(ts, n)
    ensures exists k :: 0 <= k < n && ts[k].Size() == Peak(ts, n)
  {
    if n == 1 {
      assert ts[0].Size() == Peak(ts, n);
    } else {
      PeakIsMax(ts, n - 1);
      if Peak(ts, n - 1) < ts[n - 1].Size() {
        assert ts[n - 1].Size() == Peak(ts, n);
      }
    }
  }

  /** Over a conversation the floors add up to peak size minus first size, whatever the order in which
      it grew and shrank. */
  lemma {:induction false} FloorsTelescope(ts: seq<Bill>, n: nat)
    requires 0 < n <= |ts|
    ensures SumInts(Floors(ts)[..n]) == Peak(ts, n) - ts[0].Size()
  {
    var f := Floors(ts)[..n];
    assert f[..n - 1] == Floors(ts)[..n - 1];
    if n > 1 {
      FloorsTelescope(ts, n - 1);
    }
  }

  /** The running-peak loop. */
  method AnnotateFloors(ts: seq<Bill>) returns (floors: seq<int>)
    ensures floors == Floors(ts)
    ensures forall k :: 0 <= k < |ts| ==> floors[k] >= 0
  {
    floors := [];
    var peak: Option<int> := None;
    var i := 0;
    while i < |ts|
      invariant 0 <= i <= |ts|
      invariant floors == Floors(ts)[..i]
      invariant peak == if i == 0 then None else Some(Peak(ts, i))
    {
      var size := ts[i].Size();
      floors := floors + [if peak.None? then 0 else Max(0, size - peak.value)];
      peak := Some(if peak.None? then size else Max(peak.value, size));
      i := i + 1;
    }
  }

  // ---- Excess creation ----

  function NetOf(ts: seq<Floored>, conv: string): int {
    if ts == [] then 0
    else NetOf(ts[..|ts| - 1], conv) + if ts[|ts| - 1].conv == conv then ts[|ts| - 1].Net() else 0
  }

  /** The conversations of a list of turns, in order of first appearance. */
  function Convs(ts: seq<Floored>): seq<string> {
    if ts == [] then []
    else
      var n := |ts| - 1;
      var before := Convs(ts[..n]);
      if ts[n].conv in before then before else before + [ts[n].conv]
  }

  function SumPositive(convs: seq<string>, ts: seq<Floored>): int {
    if convs == [] then 0
    else SumPositive(convs[..|convs| - 1], ts) + Max(0, NetOf(ts, convs[|convs| - 1]))
  }

  /** Creation above the floor, netted within each conversation. */
  function Excess(ts: seq<Floored>): int { SumPositive(Convs(ts), ts) }

  lemma {:induction false} ConvsDistinct(ts: seq<Floored>)
    ensures Distinct(Convs(ts))
    ensures forall c :: c in Convs(ts) ==> exists k :: 0 <= k < |ts| && ts[k].conv == c
  {
    if ts != [] {
      var n := |ts| - 1;
      ConvsDistinct(ts[..n]);
      forall c | c in Convs(ts) ensures exists k :: 0 <= k < |ts| && ts[k].conv == c {
        if c in Convs(ts[..n]) {
          var k :| 0 <= k < n && ts[..n][k].conv == c;
          assert ts[k].conv == c;
        } else {
          assert ts[n].conv == c;
        }
      }
    }
  }

  /** Adding a turn moves only its own conversation's share. */
  lemma {:induction false} SumPositiveStep(convs: seq<string>, ts: seq<Floored>, t: Floored)
    requires Distinct(convs)
    ensures SumPositive(convs, ts + [t])
         == SumPositive(convs, ts)
            + if t.conv in convs then Max(0, NetOf(ts, t.conv) + t.Net()) - Max(0, NetOf(ts, t.conv)) else 0
  {
    if convs != [] {
      var n := |convs| - 1;
      SumPositiveStep(convs[..n], ts, t);
      assert (ts + [t])[..|ts|] == ts;
      assert convs[n] !in convs[..n];
      assert convs == convs[..n] + [convs[n]];
    }
  }

  lemma {:induction false} ExcessStep(ts: seq<Floored>, t: Floored)
    ensures Excess(ts + [t]) == Excess(ts) + Max(0, NetOf(ts, t.conv) + t.Net()) - Max(0, NetOf(ts, t.conv))
  {
    var all := ts + [t];
    assert all[..|ts|] == ts;
    ConvsDistinct(ts);
    SumPositiveStep(Convs(ts), ts, t);
    if t.conv !in Convs(ts) {
      NoneOf(ts, t.conv);
      var convs := Convs(ts) + [t.conv];
      assert Convs(all) == convs;
      assert convs[..|convs| - 1] == Convs(ts);
    }
  }

  function NetSum(ts: seq<Floored>): int {
    if ts == [] then 0 else NetSum(ts[..|ts| - 1]) + ts[|ts| - 1].Net()
  }

  function ClippedSum(ts: seq<Floored>): int {
    if ts == [] then 0 else ClippedSum(ts[..|ts| - 1]) + Max(0, ts[|ts| - 1].Net())
  }

  function SumNets(convs: seq<string>, ts: seq<Floored>): int {
    if convs == [] then 0 else SumNets(convs[..|convs| - 1], ts) + NetOf(ts, convs[|convs| - 1])
  }

  lemma {:induction false} SumNetsStep(convs: seq<string>, ts: seq<Floored>, t: Floored)
    requires Distinct(convs)
    ensures SumNets(convs, ts + [t]) == SumNets(convs, ts) + if t.conv in convs then t.Net() else 0
    ensures SumNets(convs, ts) <= SumPositive(convs, ts)
  {
    if convs != [] {
      var n := |convs| - 1;
      SumNetsStep(convs[..n], ts, t);
      assert (ts + [t])[..|ts|] == ts;
      assert convs[n] !in convs[..n];
      assert convs == convs[..n] + [convs[n]];
    }
  }

  lemma {:induction false} NetStep(ts: seq<Floored>, t: Floored)
    ensures SumNets(Convs(ts + [t]), ts + [t]) == SumNets(Convs(ts), ts) + t.Net()
  {
    var all := ts + [t];
    assert all[..|ts|] == ts;
    ConvsDistinct(ts);
    SumNetsStep(Convs(ts), ts, t);
    if t.conv !in Convs(ts) {
      NoneOf(ts, t.conv);
      var convs := Convs(ts) + [t.conv];
      assert Convs(all) == convs;
      assert convs[..|convs| - 1] == Convs(ts);
    }
  }

  /** What each conversation nets, all together. */
  function NetAll(ts: seq<Floored>): int { SumNets(Convs(ts), ts) }

  lemma {:induction false} NetSumAppend(ts: seq<Floored>, t: Floored)
    ensures NetSum(ts + [t]) == NetSum(ts) + t.Net()
  {
    assert (ts + [t])[..|ts|] == ts;
  }

  lemma {:induction false} NetAllAppend(ts: seq<Floored>, t: Floored, all: seq<Floored>)
    requires all == ts + [t] && NetAll(ts) == NetSum(ts)
    ensures NetAll(all) == NetSum(all)
  {
    NetStep(ts, t);
    NetSumAppend(ts, t);
  }

  /** Summing by conversation is summing. */
  lemma {:induction false} NetByConversation(ts: seq<Floored>, n: nat)
    requires n <= |ts|
    ensures NetAll(ts[..n]) == NetSum(ts[..n])
  {
    if n > 0 {
      NetByConversation(ts, n - 1);
      NetAllAppend(ts[..n - 1], ts[n - 1], ts[..n]);
    }
  }

  lemma {:induction false} ExcessAtMost(ts: seq<Floored>)
    ensures Excess(ts) <= ClippedSum(ts)
  {
    if ts != [] {
      var n := |ts| - 1;
      ExcessAtMost(ts[..n]);
      assert ts == ts[..n] + [ts[n]];
      ExcessStep(ts[..n], ts[n]);
    }
  }

  /** Netting per conversation lies between netting everything and clipping every turn. */
  lemma {:induction false} ExcessBounds(ts: seq<Floored>)
    ensures Max(0, NetSum(ts)) <= Excess(ts) <= ClippedSum(ts)
  {
    ExcessAtMost(ts);
    ExcessNotNegative(ts);
    NetByConversation(ts, |ts|);
    assert ts[..|ts|] == ts;
    ConvsDistinct(ts);
    SumNetsStep(Convs(ts), ts, Floored("", 0, 0));
  }

  lemma {:induction false} ExcessNotNegative(ts: seq<Floored>)
    ensures Excess(ts) >= 0
  {
    PositiveNotNegative(Convs(ts), ts);
  }

  lemma {:induction false} PositiveNotNegative(convs: seq<string>, ts: seq<Floored>)
    ensures SumPositive(convs, ts) >= 0
  {
    if convs != [] {
      PositiveNotNegative(convs[..|convs| - 1], ts);
    }
  }

  /** On a single conversation the excess is its net, if positive. */
  lemma {:induction false} ExcessOfOne(ts: seq<Floored>, conv: string)
    requires forall k :: 0 <= k < |ts| ==> ts[k].conv == conv
    ensures Excess(ts) == Max(0, NetSum(ts)) && NetOf(ts, conv) == NetSum(ts)
  {
    if ts != [] {
      var n := |ts| - 1;
      ExcessOfOne(ts[..n], conv);
      assert ts == ts[..n] + [ts[n]];
      ExcessStep(ts[..n], ts[n]);
    }
  }

  /** The accumulating dictionary, with its keys in insertion order. */
  method ExcessCreate(ts: seq<Floored>) returns (excess: int)
    ensures excess == Excess(ts)
  {
    var keys: seq<string> := [];
    var net: map<string, int> := map[];
    var i := 0;
    while i < |ts|
      invariant 0 <= i <= |ts|
      invariant keys == Convs(ts[..i])
      invariant forall c :: c in net <==> c in keys
      invariant forall c :: c in net ==> net[c] == NetOf(ts[..i], c)
    {
      var t := ts[i];
      assert ts[..i + 1][..i] == ts[..i];
      if t.conv !in net {
        NoneOf(ts[..i], t.conv);
        keys := keys + [t.conv];
        net := net[t.conv := 0];
      }
      net := net[t.conv := net[t.conv] + t.Net()];
      i := i + 1;
    }
    assert ts[..i] == ts;
    excess := 0;
    var k := 0;
    while k < |keys|
      invariant 0 <= k <= |keys|
      invariant excess == SumPositive(keys[..k], ts)
    {
      assert keys[..k + 1][..k] == keys[..k];
      assert keys[k] in net;
      excess := excess + Max(0, net[keys[k]]);
      k := k + 1;
    }
    assert keys[..k] == keys;
  }

  lemma {:induction false} NoneOf(ts: seq<Floored>, conv: string)
    requires conv !in Convs(ts)
    ensures NetOf(ts, conv) == 0
  {
    if ts != [] {
      NoneOf(ts[..|ts| - 1], conv);
    }
  }

  // ---- The false-alarm bound ----

  /** A simulated turn as the ledger would carry it. */
  function AsBilled(conv: string, u: Usage): Bill { Bill(conv, u.read, 0, u.Create(), u.input, 0) }

  function Ledger(conv: string, us: seq<Usage>): (r: seq<Bill>)
    ensures |r| == |us|
  {
    seq(|us|, k requires 0 <= k < |us| => AsBilled(conv, us[k]))
  }

  /** The turns of a conversation after its first one, each with its floor. */
  function Steady(ts: seq<Bill>): seq<Floored> {
    if |ts| <= 1 then []
    else seq(|ts| - 1, k requires 0 <= k < |ts| - 1 => Floored(ts[k + 1].conv, ts[k + 1].create, Floor(ts, k + 1)))
  }

  /** Tokens past the last breakpoint: what a turn leaves uncached. */
  function Tail(r: Request): int { Total(r.segs) - Cached(r) }

  lemma {:induction false} TotalGrows(a: Request, b: Request)
    requires Appends(a, b)
    ensures Total(a.segs) <= Total(b.segs)
  {
    var n := |a.segs|;
    assert Shape(a.segs)[..n] == Shape(b.segs)[..n];
    UptoOfShape(a.segs, b.segs, n);
    UptoGrows(b.segs, n, |b.segs|);
  }

  ghost predicate Growing(ts: seq<Bill>) { forall k :: 0 <= k < |ts| - 1 ==> ts[k].Size() <= ts[k + 1].Size() }

  lemma {:induction false} PeakOfGrowing(ts: seq<Bill>, n: nat)
    requires 0 < n <= |ts| && Growing(ts)
    ensures Peak(ts, n) == ts[n - 1].Size()
  {
    if n > 1 {
      PeakOfGrowing(ts, n - 1);
      assert ts[n - 2].Size() <= ts[n - 2 + 1].Size();
    }
  }

  /** What the first `n` turns create, the very first one left out. */
  function CreatedBy(ts: seq<Bill>, n: nat): int
    requires n <= |ts|
  {
    if n <= 1 then 0 else CreatedBy(ts, n - 1) + ts[n - 1].create
  }

  lemma {:induction false} FloorOfGrowing(ts: seq<Bill>, n: nat)
    requires 0 < n < |ts| && Growing(ts)
    ensures Floor(ts, n) == ts[n].Size() - ts[n - 1].Size()
  {
    PeakOfGrowing(ts, n);
    assert ts[n - 1].Size() <= ts[n - 1 + 1].Size();
  }

  lemma {:induction false} SteadyNet(ts: seq<Bill>, n: nat)
    requires 0 < n <= |ts| && Growing(ts)
    ensures n - 1 <= |Steady(ts)|
    ensures NetSum(Steady(ts)[..n - 1]) == CreatedBy(ts, n) - (ts[n - 1].Size() - ts[0].Size())
  {
    if n > 1 {
      SteadyNet(ts, n - 1);
      FloorOfGrowing(ts, n - 1);
      var s, last := Steady(ts)[..n - 2], Steady(ts)[n - 2];
      assert Steady(ts)[..n - 1] == s + [last];
      assert (s + [last])[..n - 2] == s;
    }
  }

  lemma {:induction false} CreatedSince(plain: Plain, rs: seq<Request>, conv: string, n: nat)
    requires 0 < n <= |rs| && AppendOnly(rs) && Cold(plain, rs[0].scope) && 0.0 <= rs[0].now
    ensures CreatedBy(Ledger(conv, Run(plain, rs).usages), n) == Cached(rs[n - 1]) - Cached(rs[0])
  {
    if n > 1 {
      CreatedSince(plain, rs, conv, n - 1);
      assert rs[..|rs|] == rs;
      RunPrefix(plain, rs, |rs|, n - 1);
      AppendOnlyBills(plain, rs, n - 1);
    }
  }

  lemma {:induction false} LedgerSizes(plain: Plain, rs: seq<Request>, conv: string, k: nat)
    requires k < |rs| && AppendOnly(rs) && Cold(plain, rs[0].scope) && 0.0 <= rs[0].now
    ensures Ledger(conv, Run(plain, rs).usages)[k].Size() == Total(rs[k].segs)
  {
    assert rs[..|rs|] == rs;
    RunPrefix(plain, rs, |rs|, k);
    AppendOnlyBills(plain, rs, k);
  }

  lemma {:induction false} LedgerGrows(plain: Plain, rs: seq<Request>, conv: string, k: nat)
    requires k < |rs| - 1 && AppendOnly(rs) && Cold(plain, rs[0].scope) && 0.0 <= rs[0].now
    ensures var ts := Ledger(conv, Run(plain, rs).usages); ts[k].Size() <= ts[k + 1].Size()
  {
    LedgerSizes(plain, rs, conv, k);
    LedgerSizes(plain, rs, conv, k + 1);
    TotalGrows(rs[k], rs[k + 1]);
  }

  /** What the diagnosis reports on a cache that works: over an append-only conversation with no gap of
      five minutes, the excess after the first turn is exactly how much the uncached tail shrank. */
  lemma {:induction false} FalseAlarm(plain: Plain, rs: seq<Request>, conv: string)
    requires rs != [] && AppendOnly(rs) && Cold(plain, rs[0].scope) && 0.0 <= rs[0].now
    ensures var ts := Ledger(conv, Run(plain, rs).usages);
            Excess(Steady(ts)) == Max(0, Tail(rs[0]) - Tail(rs[|rs| - 1]))
  {
    SteadyTail(plain, rs, conv);
    ExcessOfOne(Steady(Ledger(conv, Run(plain, rs).usages)), conv);
  }

  lemma {:induction false} SteadyTail(plain: Plain, rs: seq<Request>, conv: string)
    requires rs != [] && AppendOnly(rs) && Cold(plain, rs[0].scope) && 0.0 <= rs[0].now
    ensures NetSum(Steady(Ledger(conv, Run(plain, rs).usages))) == Tail(rs[0]) - Tail(rs[|rs| - 1])
  {
    var ts := LedgerFacts(plain, rs, conv);
    SteadyNet(ts, |rs|);
    assert Steady(ts)[..|rs| - 1] == Steady(ts);
  }

  lemma {:induction false} LedgerFacts(plain: Plain, rs: seq<Request>, conv: string) returns (ts: seq<Bill>)
    requires rs != [] && AppendOnly(rs) && Cold(plain, rs[0].scope) && 0.0 <= rs[0].now
    ensures ts == Ledger(conv, Run(plain, rs).usages) && |ts| == |rs|
    ensures forall k :: 0 <= k < |ts| ==> ts[k].conv == conv
    ensures Growing(ts)
    ensures ts[0].Size() == Total(rs[0].segs) && ts[|ts| - 1].Size() == Total(rs[|rs| - 1].segs)
    ensures CreatedBy(ts, |ts|) == Cached(rs[|rs| - 1]) - Cached(rs[0])
  {
    ts := Ledger(conv, Run(plain, rs).usages);
    LedgerSizes(plain, rs, conv, 0);
    LedgerSizes(plain, rs, conv, |rs| - 1);
    forall k | 0 <= k < |rs| - 1 ensures ts[k].Size() <= ts[k + 1].Size() {
      LedgerGrows(plain, rs, conv, k);
    }
    CreatedSince(plain, rs, conv, |rs|);
  }

  // ---- Several conversations at once ----

  /** The turns of one conversation. */
  function OfConv(bs: seq<Bill>, conv: string): seq<Bill> {
    if bs == [] then [] else (if bs[0].conv == conv then [bs[0]] else []) + OfConv(bs[1..], conv)
  }

  lemma {:induction false} OfConvAppend(bs: seq<Bill>, b: Bill, conv: string)
    ensures OfConv(bs + [b], conv) == OfConv(bs, conv) + if b.conv == conv then [b] else []
  {
    if bs == [] {
      assert [] + [b] == [b] && [b][1..] == [];
    } else {
      assert (bs + [b])[1..] == bs[1..] + [b];
      OfConvAppend(bs[1..], b, conv);
    }
  }

  /** Each turn but the first of its conversation, with the floor it has there, in the order of the ledger. */
  function SteadyOf(bs: seq<Bill>): seq<Floored> {
    if bs == [] then []
    else
      var n := |bs| - 1;
      var b := bs[n];
      var earlier := OfConv(bs[..n], b.conv);
      SteadyOf(bs[..n])
      + if earlier == [] then [] else [Floored(b.conv, b.create, Floor(earlier + [b], |earlier|))]
  }

  function FlooredOf(ts: seq<Floored>, conv: string): seq<Floored> {
    if ts == [] then []
    else FlooredOf(ts[..|ts| - 1], conv) + if ts[|ts| - 1].conv == conv then [ts[|ts| - 1]] else []
  }

  lemma {:induction false} FlooredOfAppend(ts: seq<Floored>, t: Floored, conv: string)
    ensures FlooredOf(ts + [t], conv) == FlooredOf(ts, conv) + if t.conv == conv then [t] else []
  {
    assert (ts + [t])[..|ts|] == ts;
  }

  lemma {:induction false} PeakPrefix(ts: seq<Bill>, b: Bill, n: nat)
    requires 0 < n <= |ts|
    ensures Peak(ts + [b], n) == Peak(ts, n)
  {
    if n > 1 {
      PeakPrefix(ts, b, n - 1);
    }
  }

  lemma {:induction false} SteadyAppend(ts: seq<Bill>, b: Bill)
    ensures Steady(ts + [b])
         == Steady(ts) + if ts == [] then [] else [Floored(b.conv, b.create, Floor(ts + [b], |ts|))]
  {
    var all := ts + [b];
    if ts != [] {
      var x, y := Steady(all), Steady(ts) + [Floored(b.conv, b.create, Floor(all, |ts|))];
      forall k | 0 <= k < |ts| ensures x[k] == y[k] {
        if k + 1 < |ts| {
          PeakPrefix(ts, b, k + 1);
        }
      }
      assert x == y;
    }
  }

  /** Taken apart by conversation, that is the steady list of each. */
  lemma {:induction false} SteadyOfConv(bs: seq<Bill>, conv: string)
    ensures FlooredOf(SteadyOf(bs), conv) == Steady(OfConv(bs, conv))
    decreases |bs|
  {
    if bs != [] {
      var before, b := bs[..|bs| - 1], bs[|bs| - 1];
      SteadyOfConv(before, conv);
      SteadyOfStep(before, b, bs, conv);
    }
  }

  lemma {:induction false} SteadyOfStep(bs: seq<Bill>, b: Bill, all: seq<Bill>, conv: string)
    requires all == bs + [b] && FlooredOf(SteadyOf(bs), conv) == Steady(OfConv(bs, conv))
    ensures FlooredOf(SteadyOf(all), conv) == Steady(OfConv(all, conv))
  {
    assert all[..|bs|] == bs;
    OfConvAppend(bs, b, conv);
    var earlier := OfConv(bs, b.conv);
    var t := Floored(b.conv, b.create, Floor(earlier + [b], |earlier|));
    FlooredOfAppend(SteadyOf(bs), t, conv);
    if b.conv == conv {
      SteadyAppend(earlier, b);
    } else {
      assert OfConv(bs, conv) + [] == OfConv(bs, conv);
    }
    if earlier == [] {
      assert SteadyOf(bs) + [] == SteadyOf(bs);
    }
  }

  lemma {:induction false} NetOfStep(ts: seq<Floored>, t: Floored, conv: string)
    requires NetOf(ts, conv) == NetSum(FlooredOf(ts, conv))
    ensures NetOf(ts + [t], conv) == NetSum(FlooredOf(ts + [t], conv))
  {
    assert (ts + [t])[..|ts|] == ts;
    FlooredOfAppend(ts, t, conv);
    if t.conv == conv {
      NetSumAppend(FlooredOf(ts, conv), t);
    } else {
      assert FlooredOf(ts, conv) + [] == FlooredOf(ts, conv);
    }
  }

  lemma {:induction false} NetOfIsSum(ts: seq<Floored>, n: nat, conv: string)
    requires n <= |ts|
    ensures NetOf(ts[..n], conv) == NetSum(FlooredOf(ts[..n], conv))
  {
    if n > 0 {
      NetOfIsSum(ts, n - 1, conv);
      NetOfStep(ts[..n - 1], ts[n - 1], conv);
      assert ts[..n] == ts[..n - 1] + [ts[n - 1]];
    }
  }

  /** The excess can be summed over any list of conversations that has them all. */
  lemma {:induction false} ExcessOver(ts: seq<Floored>, n: nat, convs: seq<string>)
    requires n <= |ts| && Distinct(convs) && forall k :: 0 <= k < |ts| ==> ts[k].conv in convs
    ensures Excess(ts[..n]) == SumPositive(convs, ts[..n])
  {
    if n == 0 {
      NoExcess(convs);
    } else {
      ExcessOver(ts, n - 1, convs);
      assert ts[..n] == ts[..n - 1] + [ts[n - 1]];
      ExcessStep(ts[..n - 1], ts[n - 1]);
      SumPositiveStep(convs, ts[..n - 1], ts[n - 1]);
    }
  }

  lemma {:induction false} NoExcess(convs: seq<string>)
    ensures SumPositive(convs, []) == 0
  {
    if convs != [] {
      NoExcess(convs[..|convs| - 1]);
    }
  }

  /** The ledger of a mixed run, one conversation to a scope. */
  function Mixed(rs: seq<Request>, us: seq<Usage>): (r: seq<Bill>)
    requires |rs| == |us|
    ensures |r| == |rs|
  {
    seq(|rs|, k requires 0 <= k < |rs| => AsBilled(rs[k].scope, us[k]))
  }

  lemma {:induction false} MixedOf(rs: seq<Request>, us: seq<Usage>, scope: string)
    requires |rs| == |us|
    ensures OfConv(Mixed(rs, us), scope) == Ledger(scope, Select(rs, us, scope))
  {
    if rs != [] {
      MixedOf(rs[1..], us[1..], scope);
      assert Mixed(rs, us)[1..] == Mixed(rs[1..], us[1..]);
      LedgerCons(scope, us[0], Select(rs[1..], us[1..], scope));
    }
  }

  lemma {:induction false} LedgerCons(conv: string, u: Usage, us: seq<Usage>)
    ensures Ledger(conv, [u] + us) == [AsBilled(conv, u)] + Ledger(conv, us)
    ensures Ledger(conv, [] + us) == Ledger(conv, us)
  {
    assert [] + us == us;
  }

  /** How much the uncached tail of a conversation shrank. */
  function Shrunk(mine: seq<Request>): int { if mine == [] then 0 else Tail(mine[0]) - Tail(mine[|mine| - 1]) }

  ghost predicate EachAppendOnly(rs: seq<Request>, scope: string) {
    var mine := Only(rs, scope);
    AppendOnly(mine) && (mine != [] ==> 0.0 <= mine[0].now)
  }

  lemma {:induction false} ConvNet(rs: seq<Request>, scope: string, ts: seq<Floored>)
    requires EachAppendOnly(rs, scope) && ts == SteadyOf(Mixed(rs, Run(map[], rs).usages))
    ensures NetOf(ts, scope) == Shrunk(Only(rs, scope))
  {
    var us, mine := Run(map[], rs).usages, Only(rs, scope);
    var bs := Mixed(rs, us);
    NonInterference(map[], rs, scope);
    assert Restrict(map[], scope) == map[];
    MixedOf(rs, us, scope);
    assert ts[..|ts|] == ts;
    SteadyOfConv(bs, scope);
    NetOfIsSum(ts, |ts|, scope);
    if mine != [] {
      SteadyTail(map[], mine, scope);
    }
  }

  function SumShrunk(scopes: seq<string>, rs: seq<Request>): int {
    if scopes == [] then 0
    else SumShrunk(scopes[..|scopes| - 1], rs) + Max(0, Shrunk(Only(rs, scopes[|scopes| - 1])))
  }

  lemma {:induction false} SumShrunkIs(scopes: seq<string>, rs: seq<Request>, ts: seq<Floored>)
    requires forall s :: s in scopes ==> EachAppendOnly(rs, s)
    requires ts == SteadyOf(Mixed(rs, Run(map[], rs).usages))
    ensures SumPositive(scopes, ts) == SumShrunk(scopes, rs)
  {
    if scopes != [] {
      var n := |scopes| - 1;
      SumShrunkIs(scopes[..n], rs, ts);
      ConvNet(rs, scopes[n], ts);
    }
  }

  lemma {:induction false} SteadyConvs(bs: seq<Bill>, n: nat, convs: seq<string>)
    requires n <= |bs| && forall k :: 0 <= k < |bs| ==> bs[k].conv in convs
    ensures forall k :: 0 <= k < |SteadyOf(bs[..n])| ==> SteadyOf(bs[..n])[k].conv in convs
  {
    if n > 0 {
      SteadyConvs(bs, n - 1, convs);
      assert bs[..n][..n - 1] == bs[..n - 1];
    }
  }

  /** The bound over mixed traffic: append-only conversations in scopes of their own, interleaved in any way and
      none with a gap of five minutes. The excess is what each one's uncached tail shrank, one by one. */
  lemma {:induction false} FalseAlarms(rs: seq<Request>, scopes: seq<string>)
    requires Distinct(scopes) && (forall k :: 0 <= k < |rs| ==> rs[k].scope in scopes)
    requires forall s :: s in scopes ==> EachAppendOnly(rs, s)
    ensures Excess(SteadyOf(Mixed(rs, Run(map[], rs).usages))) == SumShrunk(scopes, rs)
  {
    var us := Run(map[], rs).usages;
    MixedExcess(rs, us, scopes);
    SumShrunkIs(scopes, rs, SteadyOf(Mixed(rs, us)));
  }

  lemma {:induction false} MixedExcess(rs: seq<Request>, us: seq<Usage>, scopes: seq<string>)
    requires |rs| == |us| && Distinct(scopes) && (forall k :: 0 <= k < |rs| ==> rs[k].scope in scopes)
    ensures Excess(SteadyOf(Mixed(rs, us))) == SumPositive(scopes, SteadyOf(Mixed(rs, us)))
  {
    var bs := Mixed(rs, us);
    forall k | 0 <= k < |bs| ensures bs[k].conv in scopes {
      assert bs[k].conv == rs[k].scope;
    }
    ExcessOfSteady(bs, SteadyOf(bs), scopes);
  }

  lemma {:induction false} ExcessOfSteady(bs: seq<Bill>, ts: seq<Floored>, convs: seq<string>)
    requires Distinct(convs) && ts == SteadyOf(bs) && forall k :: 0 <= k < |bs| ==> bs[k].conv in convs
    ensures Excess(ts) == SumPositive(convs, ts)
  {
    assert bs[..|bs|] == bs && ts[..|ts|] == ts;
    SteadyConvs(bs, |bs|, convs);
    ExcessOver(ts, |ts|, convs);
  }
}
