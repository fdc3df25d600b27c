/** Whole runs against one cache: scopes, eviction, and how often a token is written. */
module CacheRuns {
  import opened Wire
  import opened Flattening
  import opened PlainCache
  import Sim = CacheSim

  datatype Trace = Trace(usages: seq<Usage>, plain: Plain)

  /** Requests billed one after the other, each against what the ones before left behind. */
  function Run(plain: Plain, rs: seq<Request>): (t: Trace)
    ensures |t.usages| == |rs|
    decreases rs
  {
    if rs == [] then Trace([], plain)
    else
      var rest := Run(After(plain, rs[0]), rs[1..]);
      Trace([Billed(plain, rs[0])] + rest.usages, rest.plain)
  }

  function Sum(us: seq<Usage>): Usage {
    if us == [] then NO_USAGE else us[0].Add(Sum(us[1..]))
  }

  lemma {:induction false} RunAppend(plain: Plain, rs: seq<Request>, r: Request)
    ensures Run(plain, rs + [r]).usages == Run(plain, rs).usages + [Billed(Run(plain, rs).plain, r)]
    ensures Run(plain, rs + [r]).plain == After(Run(plain, rs).plain, r)
    decreases rs
  {
    if rs == [] {
      assert rs + [r] == [r];
    } else {
      assert (rs + [r])[1..] == rs[1..] + [r];
      RunAppend(After(plain, rs[0]), rs[1..], r);
    }
  }

  lemma {:induction false} SumAppend(us: seq<Usage>, u: Usage)
    ensures Sum(us + [u]) == Sum(us).Add(u)
  {
    if us == [] {
      assert us + [u] == [u];
    } else {
      assert (us + [u])[1..] == us[1..] + [u];
      SumAppend(us[1..], u);
    }
  }

  // ---- Scopes do not interfere ----

  function Restrict(plain: Plain, scope: string): Plain {
    map p | p in plain && p.scope == scope :: plain[p]
  }

  function Only(rs: seq<Request>, scope: string): seq<Request> {
    if rs == [] then []
    else (if rs[0].scope == scope then [rs[0]] else []) + Only(rs[1..], scope)
  }

  /** The usages of the turns in one scope. */
  function Select(rs: seq<Request>, us: seq<Usage>, scope: string): seq<Usage>
    requires |rs| == |us|
  {
    if rs == [] then []
    else (if rs[0].scope == scope then [us[0]] else []) + Select(rs[1..], us[1..], scope)
  }

  lemma {:induction false} ReadRestricted(plain: Plain, r: Request, n: nat)
    requires n <= |r.segs|
    ensures ReadBefore(Restrict(plain, r.scope), r, n) == ReadBefore(plain, r, n)
  {
    if n > 0 {
      ReadRestricted(plain, r, n - 1);
    }
  }

  lemma {:induction false} StepRestricted(plain: Plain, r: Request, scope: string)
    ensures r.scope != scope ==> Restrict(After(plain, r), scope) == Restrict(plain, scope)
    ensures r.scope == scope ==>
      && Billed(Restrict(plain, scope), r) == Billed(plain, r)
      && Restrict(After(plain, r), scope) == After(Restrict(plain, scope), r)
  {
    ReadRestricted(plain, r, |r.segs|);
    var narrow := Restrict(plain, scope);
    var left := Restrict(After(plain, r), scope);
    var right := if r.scope == scope then After(narrow, r) else narrow;
    assert r.scope == scope ==> ReadIndex(narrow, r) == ReadIndex(plain, r);
    forall p ensures Sim.Look(left, p) == Sim.Look(right, p) {
      AfterAt(plain, r, p);
      AfterAt(narrow, r, p);
    }
    SameMap(left, right);
  }

  lemma {:induction false} SameMap(a: Plain, b: Plain)
    requires forall p :: Sim.Look(a, p) == Sim.Look(b, p)
    ensures a == b
  {
    forall p ensures p in a <==> p in b {
      assert Sim.Look(a, p) == Sim.Look(b, p);
    }
    forall p | p in a ensures a[p] == b[p] {
      assert Sim.Look(a, p) == Sim.Look(b, p);
    }
  }

  /** Scopes do not interfere: in any interleaved run, every turn of a scope is billed what it would
      be billed had only that scope's turns been sent, and that scope's entries end up the same. */
  lemma {:induction false} NonInterference(plain: Plain, rs: seq<Request>, scope: string)
    ensures var whole, alone := Run(plain, rs), Run(Restrict(plain, scope), Only(rs, scope));
            && Select(rs, whole.usages, scope) == alone.usages
            && Restrict(whole.plain, scope) == alone.plain
    decreases rs
  {
    if rs != [] {
      StepRestricted(plain, rs[0], scope);
      NonInterference(After(plain, rs[0]), rs[1..], scope);
      if rs[0].scope == scope {
        assert Only(rs, scope)[1..] == Only(rs[1..], scope);
      } else {
        assert Only(rs, scope) == Only(rs[1..], scope);
      }
    }
  }

  function SumSelected(scopes: seq<string>, rs: seq<Request>, us: seq<Usage>): Usage
    requires |rs| == |us|
  {
    if scopes == [] then NO_USAGE
    else Sum(Select(rs, us, scopes[0])).Add(SumSelected(scopes[1..], rs, us))
  }

  lemma {:induction false} SumCons(u: Usage, us: seq<Usage>)
    ensures Sum([u] + us) == u.Add(Sum(us))
  {
    assert ([u] + us)[1..] == us;
  }

  lemma {:induction false} SelectStep(rs: seq<Request>, us: seq<Usage>, scope: string)
    requires |rs| == |us| && rs != []
    ensures Sum(Select(rs, us, scope))
         == if rs[0].scope == scope then us[0].Add(Sum(Select(rs[1..], us[1..], scope)))
            else Sum(Select(rs[1..], us[1..], scope))
  {
    var rest := Select(rs[1..], us[1..], scope);
    if rs[0].scope == scope {
      SumCons(us[0], rest);
    } else {
      assert [] + rest == rest;
    }
  }

  lemma {:induction false} InCons(x: string, xs: seq<string>)
    requires xs != [] && Distinct(xs)
    ensures x in xs <==> x == xs[0] || x in xs[1..]
    ensures xs[0] !in xs[1..] && Distinct(xs[1..])
  {
    assert xs == [xs[0]] + xs[1..];
  }

  lemma {:induction false} AddSwap(u: Usage, a: Usage, b: Usage)
    ensures u.Add(a).Add(b) == u.Add(a.Add(b)) == a.Add(u.Add(b))
  {
  }

  lemma {:induction false} SelectedStep(scopes: seq<string>, rs: seq<Request>, us: seq<Usage>)
    requires |rs| == |us| && rs != [] && Distinct(scopes)
    ensures SumSelected(scopes, rs, us)
         == if rs[0].scope in scopes then us[0].Add(SumSelected(scopes, rs[1..], us[1..]))
            else SumSelected(scopes, rs[1..], us[1..])
  {
    if scopes != [] {
      InCons(rs[0].scope, scopes);
      SelectedStep(scopes[1..], rs, us);
      SelectStep(rs, us, scopes[0]);
      AddSwap(us[0], Sum(Select(rs[1..], us[1..], scopes[0])), SumSelected(scopes[1..], rs[1..], us[1..]));
    }
  }

  lemma {:induction false} SelectedAll(scopes: seq<string>, rs: seq<Request>, us: seq<Usage>)
    requires |rs| == |us| && Distinct(scopes)
    requires forall i :: 0 <= i < |rs| ==> rs[i].scope in scopes
    ensures SumSelected(scopes, rs, us) == Sum(us)
  {
    if rs == [] {
      NothingSelected(scopes, rs, us);
    } else {
      SelectedStep(scopes, rs, us);
      SelectedAll(scopes, rs[1..], us[1..]);
    }
  }

  lemma {:induction false} NothingSelected(scopes: seq<string>, rs: seq<Request>, us: seq<Usage>)
    requires rs == [] && us == []
    ensures SumSelected(scopes, rs, us) == NO_USAGE
  {
    if scopes != [] {
      NothingSelected(scopes[1..], rs, us);
    }
  }

  function SumPerScope(scopes: seq<string>, rs: seq<Request>): Usage {
    if scopes == [] then NO_USAGE
    else Sum(Run(map[], Only(rs, scopes[0])).usages).Add(SumPerScope(scopes[1..], rs))
  }

  /** The bill of a mixed corpus is the sum of the bills of its scopes, each scored on its own. */
  lemma {:induction false} TotalIsSumOfScopes(scopes: seq<string>, rs: seq<Request>)
    requires Distinct(scopes)
    requires forall i :: 0 <= i < |rs| ==> rs[i].scope in scopes
    ensures Sum(Run(map[], rs).usages) == SumPerScope(scopes, rs)
  {
    SelectedAll(scopes, rs, Run(map[], rs).usages);
    PerScope(scopes, rs);
  }

  lemma {:induction false} PerScope(scopes: seq<string>, rs: seq<Request>)
    ensures SumSelected(scopes, rs, Run(map[], rs).usages) == SumPerScope(scopes, rs)
  {
    if scopes != [] {
      NonInterference(map[], rs, scopes[0]);
      assert Restrict(map[], scopes[0]) == map[];
      PerScope(scopes[1..], rs);
    }
  }

  // ---- Eviction is invisible ----

  datatype Event = Turn(r: Request) | Evict(at: real)

  function TimeOf(e: Event): real { if e.Turn? then e.r.now else e.at }

  function Turns(es: seq<Event>): seq<Request> {
    if es == [] then [] else (if es[0].Turn? then [es[0].r] else []) + Turns(es[1..])
  }

  function RunEvents(plain: Plain, es: seq<Event>): seq<Usage>
    decreases es
  {
    if es == [] then []
    else match es[0]
      case Turn(r) => [Billed(plain, r)] + RunEvents(After(plain, r), es[1..])
      case Evict(at) => RunEvents(Sim.Evicted(plain, at), es[1..])
  }

  ghost predicate InOrder(es: seq<Event>, from: real) {
    && (forall i :: 0 <= i < |es| ==> from <= TimeOf(es[i]))
    && (forall i, j :: 0 <= i < j < |es| ==> TimeOf(es[i]) <= TimeOf(es[j]))
  }

  /** The two states agree on everything that is readable after time `t`. */
  ghost predicate Alike(a: Plain, b: Plain, t: real) {
    forall p :: Expiry(a, p) > t || Expiry(b, p) > t ==> Expiry(a, p) == Expiry(b, p)
  }

  lemma {:induction false} ReadAlike(a: Plain, b: Plain, r: Request, n: nat)
    requires n <= |r.segs| && Alike(a, b, r.now)
    ensures ReadBefore(a, r, n) == ReadBefore(b, r, n)
  {
    if n > 0 {
      ReadAlike(a, b, r, n - 1);
    }
  }

  lemma {:induction false} StepAlike(a: Plain, b: Plain, r: Request, t: real)
    requires Alike(a, b, t) && t <= r.now
    ensures Billed(a, r) == Billed(b, r)
    ensures Alike(After(a, r), After(b, r), r.now)
  {
    assert Alike(a, b, r.now);
    ReadAlike(a, b, r, |r.segs|);
    forall p ensures Expiry(After(a, r), p) > r.now || Expiry(After(b, r), p) > r.now ==>
      Expiry(After(a, r), p) == Expiry(After(b, r), p)
    {
      EntryAlike(a, b, r, p);
    }
  }

  lemma {:induction false} EntryAlike(a: Plain, b: Plain, r: Request, p: Prefix)
    requires Alike(a, b, r.now) && ReadIndex(a, r) == ReadIndex(b, r)
    ensures Expiry(After(a, r), p) > r.now || Expiry(After(b, r), p) > r.now ==>
      Expiry(After(a, r), p) == Expiry(After(b, r), p)
  {
    AfterAt(a, r, p);
    AfterAt(b, r, p);
    assert Expiry(a, p) > r.now || Expiry(b, p) > r.now ==> Expiry(a, p) == Expiry(b, p);
    if IsRenewedBy(a, r, p) {
      assert Live(a, p, r.now);
    }
  }

  lemma {:induction false} EvictAlike(a: Plain, b: Plain, at: real, t: real)
    requires Alike(a, b, t) && 0.0 <= t <= at
    ensures Alike(Sim.Evicted(a, at), b, at)
  {
    forall p | Expiry(Sim.Evicted(a, at), p) > at || Expiry(b, p) > at
      ensures Expiry(Sim.Evicted(a, at), p) == Expiry(b, p)
    {
      assert Expiry(a, p) == Expiry(b, p);
    }
  }

  lemma {:induction false} EvictionFrom(a: Plain, b: Plain, es: seq<Event>, t: real)
    requires 0.0 <= t && InOrder(es, t) && Alike(a, b, t)
    ensures RunEvents(a, es) == Run(b, Turns(es)).usages
    decreases es
  {
    if es != [] {
      match es[0]
      case Turn(r) =>
        StepAlike(a, b, r, t);
        EvictionFrom(After(a, r), After(b, r), es[1..], r.now);
        assert Turns(es)[1..] == Turns(es[1..]);
      case Evict(at) =>
        EvictAlike(a, b, at, t);
        EvictionFrom(Sim.Evicted(a, at), b, es[1..], at);
        assert Turns(es) == Turns(es[1..]);
    }
  }

  /** Evicting expired entries, at any points of a run whose clock never goes back, changes no bill. */
  lemma {:induction false} EvictionInvisible(plain: Plain, es: seq<Event>)
    requires InOrder(es, 0.0)
    ensures RunEvents(plain, es) == Run(plain, Turns(es)).usages
  {
    EvictionFrom(plain, plain, es, 0.0);
  }

  // ---- Each token is written once ----

  /** How long the entry at the last breakpoint lives. */
  function Lifetime(segs: seq<Segment>): real {
    if Last(segs) == 0 then 0.0 else TtlSeconds(segs[Last(segs) - 1].ttl.value)
  }

  /** `b` comes after `a` in one conversation: whatever `a` cached reappears in `b`, `b` caches at
      least as far, and arrives before `a`'s last entry expires. */
  ghost predicate Follows(a: Request, b: Request) {
    var n := Last(a.segs);
    && a.scope == b.scope
    && n <= Last(b.segs)
    && Shape(a.segs)[..n] == Shape(b.segs)[..n]
    && 0.0 <= b.now
    && (0 < n ==> b.now < a.now + Lifetime(a.segs))
  }

  /** The state right after `r`: all entries of its scope are prefixes of what it cached. */
  ghost predicate Warm(plain: Plain, r: Request) {
    var n := Last(r.segs);
    && (forall p :: p in plain && p.scope == r.scope ==> p.digests <= Digests(r.segs)[..n])
    && (0 < n ==> Expiry(plain, PrefixAt(r.scope, r.segs, n)) >= r.now + Lifetime(r.segs))
  }

  /** Cached tokens of a request: those up to its last breakpoint. */
  function Cached(r: Request): nat { Upto(r.segs, Last(r.segs)) }

  ghost predicate Cold(plain: Plain, scope: string) {
    forall p :: p in plain ==> p.scope != scope
  }

  lemma {:induction false} ReadIs(plain: Plain, r: Request, n: nat, i: nat)
    requires i <= n <= |r.segs|
    requires 0 < i ==> Live(plain, PrefixAt(r.scope, r.segs, i), r.now)
    requires forall j :: i < j <= n ==> !Live(plain, PrefixAt(r.scope, r.segs, j), r.now)
    ensures ReadBefore(plain, r, n) == i
  {
    if i < n {
      ReadIs(plain, r, n - 1, i);
    }
  }

  lemma {:induction false} StoredLast(plain: Plain, r: Request)
    requires 0 < Last(r.segs)
    ensures Expiry(After(plain, r), PrefixAt(r.scope, r.segs, Last(r.segs))) == r.now + Lifetime(r.segs)
  {
    var p := PrefixAt(r.scope, r.segs, Last(r.segs));
    assert |p.digests| == Last(r.segs);
    AfterAt(plain, r, p);
  }

  lemma {:induction false} ReadReaches(plain: Plain, r: Request, n: nat, i: nat)
    requires 0 < i <= n <= |r.segs| && Live(plain, PrefixAt(r.scope, r.segs, i), r.now)
    ensures ReadBefore(plain, r, n) >= i
  {
    if i < n {
      ReadReaches(plain, r, n - 1, i);
    }
  }

  /** A live entry that is a prefix of a request with a breakpoint is read, or something longer is. */
  lemma {:induction false} EntryIsRead(plain: Plain, a: Request, b: Request, i: nat)
    requires 0 < i <= |a.segs| && i <= |b.segs| && a.scope == b.scope && Shape(a.segs)[..i] == Shape(b.segs)[..i]
    requires Last(b.segs) > 0 && Live(plain, PrefixAt(a.scope, a.segs, i), b.now)
    ensures ReadIndex(plain, b) >= i && Billed(plain, b).read >= Upto(a.segs, i)
  {
    UptoOfShape(a.segs, b.segs, i);
    assert PrefixAt(a.scope, a.segs, i) == PrefixAt(b.scope, b.segs, i);
    ReadReaches(plain, b, |b.segs|, i);
    UptoGrows(b.segs, i, ReadIndex(plain, b));
  }

  lemma {:induction false} StoredBreakpoint(plain: Plain, r: Request, i: nat)
    requires IsBreakpoint(r.segs, i)
    ensures Expiry(After(plain, r), PrefixAt(r.scope, r.segs, i)) == r.now + TtlSeconds(r.segs[i - 1].ttl.value)
  {
    var p := PrefixAt(r.scope, r.segs, i);
    assert |p.digests| == i;
    AfterAt(plain, r, p);
  }

  /** Whatever the cache holds, what a turn stored at any of its breakpoints is read by the next request that
      starts with it and comes within the marker's time. */
  lemma {:induction false} BreakpointIsRead(plain: Plain, a: Request, b: Request, i: nat)
    requires IsBreakpoint(a.segs, i) && i <= |b.segs| && a.scope == b.scope && Shape(a.segs)[..i] == Shape(b.segs)[..i]
    requires Last(b.segs) > 0 && b.now < a.now + TtlSeconds(a.segs[i - 1].ttl.value)
    ensures ReadIndex(After(plain, a), b) >= i && Billed(After(plain, a), b).read >= Upto(a.segs, i)
  {
    StoredBreakpoint(plain, a, i);
    EntryIsRead(After(plain, a), a, b, i);
  }

  lemma {:induction false} ExpiryKept(plain: Plain, r: Request, p: Prefix, t: real)
    requires Expiry(plain, p) >= t + 300.0 && p in plain && r.now >= t
    ensures p in After(plain, r) && Expiry(After(plain, r), p) >= t + 300.0
  {
    AfterAt(plain, r, p);
  }

  /** No later traffic takes away the five minutes every entry is good for. */
  lemma {:induction false} ExpiryKeptAlong(plain: Plain, rs: seq<Request>, p: Prefix, t: real)
    requires Expiry(plain, p) >= t + 300.0 && p in plain && forall k :: 0 <= k < |rs| ==> rs[k].now >= t
    ensures p in Run(plain, rs).plain && Expiry(Run(plain, rs).plain, p) >= t + 300.0
    decreases rs
  {
    if rs != [] {
      ExpiryKept(plain, rs[0], p, t);
      ExpiryKeptAlong(After(plain, rs[0]), rs[1..], p, t);
    }
  }

  /** Whatever else is sent meanwhile, in the same scope too, what a turn stored at a breakpoint is read within
      five minutes by any request that starts with it. */
  lemma {:induction false} BreakpointSurvives(plain: Plain, a: Request, rs: seq<Request>, b: Request, i: nat)
    requires IsBreakpoint(a.segs, i) && i <= |b.segs| && a.scope == b.scope && Shape(a.segs)[..i] == Shape(b.segs)[..i]
    requires Last(b.segs) > 0 && b.now < a.now + 300.0 && forall k :: 0 <= k < |rs| ==> rs[k].now >= a.now
    ensures Billed(Run(After(plain, a), rs).plain, b).read >= Upto(a.segs, i)
  {
    var p := PrefixAt(a.scope, a.segs, i);
    assert |p.digests| == i;
    AfterAt(plain, a, p);
    StoredBreakpoint(plain, a, i);
    ExpiryKeptAlong(After(plain, a), rs, p, a.now);
    EntryIsRead(Run(After(plain, a), rs).plain, a, b, i);
  }

  /** Whatever the cache holds, a turn that follows another right after it reads at least what that one
      cached. */
  lemma {:induction false} FollowerReads(plain: Plain, a: Request, b: Request)
    requires Follows(a, b)
    ensures ReadIndex(After(plain, a), b) >= Last(a.segs)
    ensures Billed(After(plain, a), b).read >= Cached(a)
  {
    if 0 < Last(a.segs) {
      BreakpointIsRead(plain, a, b, Last(a.segs));
    }
  }

  /** And one that follows within five minutes does so whatever was sent in between. */
  lemma {:induction false} FollowerReadsAmidTraffic(plain: Plain, a: Request, rs: seq<Request>, b: Request)
    requires Follows(a, b) && b.now < a.now + 300.0 && forall k :: 0 <= k < |rs| ==> rs[k].now >= a.now
    ensures Billed(Run(After(plain, a), rs).plain, b).read >= Cached(a)
  {
    if 0 < Last(a.segs) {
      BreakpointSurvives(plain, a, rs, b, Last(a.segs));
    }
  }

  lemma {:induction false} PrefixesDiffer(a: seq<Segment>, b: seq<Segment>, d: nat, j: nat)
    requires d < j <= |a| && j <= |b| && a[d].digest != b[d].digest
    ensures Digests(a)[..j] != Digests(b)[..j]
  {
    assert Digests(a)[..j][d] == a[d].digest && Digests(b)[..j][d] == b[d].digest;
  }

  /** A request that differs from the only one before it ahead of all its breakpoints reads nothing. */
  lemma {:induction false} ChangedIsLost(a: Request, b: Request, d: nat)
    requires d < |a.segs| && d < |b.segs| && a.segs[d].digest != b.segs[d].digest && 0.0 <= a.now && 0.0 <= b.now
    requires forall i :: IsBreakpoint(a.segs, i) ==> d < i
    ensures Billed(After(map[], a), b).read == 0
  {
    ReadIs(map[], a, |a.segs|, 0);
    forall j | 0 < j <= |b.segs| ensures !Live(After(map[], a), PrefixAt(b.scope, b.segs, j), b.now) {
      var p := PrefixAt(b.scope, b.segs, j);
      assert |p.digests| == j;
      AfterAt(map[], a, p);
      if d < j <= |a.segs| {
        PrefixesDiffer(a.segs, b.segs, d, j);
      }
    }
    ReadIs(After(map[], a), b, |b.segs|, 0);
  }

  /** The first turn of a conversation in a cold scope. */
  lemma {:induction false} FirstTurn(plain: Plain, r: Request)
    requires Cold(plain, r.scope) && 0.0 <= r.now
    ensures Billed(plain, r).read == 0 && Billed(plain, r).Create() == Cached(r)
    ensures Warm(After(plain, r), r)
  {
    ReadIs(plain, r, |r.segs|, 0);
    WrittenOnce(r.segs, 0, Last(r.segs));
    EntriesAfter(plain, r);
    if 0 < Last(r.segs) {
      StoredLast(plain, r);
    }
  }

  /** Every entry of the scope is a prefix of what the request caches, if it was before. */
  lemma {:induction false} EntriesAfter(plain: Plain, r: Request)
    requires ReadIndex(plain, r) <= Last(r.segs)
    requires forall p :: p in plain && p.scope == r.scope ==> p.digests <= Digests(r.segs)[..Last(r.segs)]
    ensures forall p :: p in After(plain, r) && p.scope == r.scope ==> p.digests <= Digests(r.segs)[..Last(r.segs)]
  {
    forall p | p in After(plain, r) && p.scope == r.scope
      ensures p.digests <= Digests(r.segs)[..Last(r.segs)]
    {
      AfterAt(plain, r, p);
      if IsStoredBy(r, |r.segs|, p) {
        if |p.digests| > Last(r.segs) {
          NoneAfterLast(r.segs, |r.segs|, |p.digests|);
          assert false;
        }
      }
    }
  }

  /** A later turn reads exactly what the turn before it had cached, and writes the rest. */
  lemma {:induction false} NextTurn(plain: Plain, a: Request, b: Request)
    requires Warm(plain, a) && Follows(a, b)
    ensures Billed(plain, b).read == Cached(a)
    ensures Billed(plain, b).Create() == Cached(b) - Cached(a)
    ensures ReadIndex(plain, b) == Last(a.segs)
    ensures Warm(After(plain, b), b)
  {
    var n := Last(a.segs);
    UptoOfShape(a.segs, b.segs, n);
    assert PrefixAt(a.scope, a.segs, n) == PrefixAt(b.scope, b.segs, n);
    forall j | n < j <= |b.segs| ensures !Live(plain, PrefixAt(b.scope, b.segs, j), b.now) {
      assert |PrefixAt(b.scope, b.segs, j).digests| == j;
    }
    ReadIs(plain, b, |b.segs|, n);
    WrittenOnce(b.segs, n, Last(b.segs));
    forall p | p in plain && p.scope == b.scope ensures p.digests <= Digests(b.segs)[..Last(b.segs)] {
      assert p.digests <= Digests(a.segs)[..n];
      assert Digests(b.segs)[..n] <= Digests(b.segs)[..Last(b.segs)];
    }
    EntriesAfter(plain, b);
    if 0 < Last(b.segs) {
      StoredLast(plain, b);
    }
  }

  /** A request marked at its end and sent again in time reads all of itself. */
  lemma {:induction false} RepeatReadsAll(r: Request, later: real)
    requires 0 < Last(r.segs) == |r.segs| && 0.0 <= r.now && 0.0 <= later < r.now + Lifetime(r.segs)
    ensures Run(map[], [r, r.(now := later)]).usages[1] == Usage(0, Total(r.segs), 0, 0)
  {
    var again := r.(now := later);
    var plain := After(map[], r);
    FirstTurn(map[], r);
    NextTurn(plain, r, again);
    Conservation(plain, again);
    UsageNonNegative(plain, again);
    assert Billed(plain, again) == Usage(0, Total(r.segs), 0, 0);
    assert [r, again][1..] == [again];
    assert Run(plain, [again]).usages[0] == Billed(plain, again);
  }

  ghost predicate Conversation(rs: seq<Request>) {
    forall k :: 0 <= k < |rs| - 1 ==> Follows(rs[k], rs[k + 1])
  }

  /** `rs` carries the conversation on after `a`. */
  ghost predicate Continues(a: Request, rs: seq<Request>)
    decreases rs
  {
    rs == [] || (Follows(a, rs[0]) && Continues(rs[0], rs[1..]))
  }

  lemma {:induction false} ConversationContinues(rs: seq<Request>)
    requires rs != [] && Conversation(rs)
    ensures Continues(rs[0], rs[1..])
  {
    if |rs| > 1 {
      var rest := rs[1..];
      assert Follows(rs[0], rs[1]);
      forall k | 0 <= k < |rest| - 1 ensures Follows(rest[k], rest[k + 1]) {
        assert Follows(rs[k + 1], rs[k + 1 + 1]);
      }
      ConversationContinues(rest);
    }
  }

  function CachedOf(rs: seq<Request>): (r: seq<int>)
    ensures |r| == |rs|
  {
    seq(|rs|, k requires 0 <= k < |rs| => Cached(rs[k]))
  }

  /** Turn by turn, each bill reads what was cached before and writes the rest of what is cached then. */
  ghost predicate Chained(before: int, cached: seq<int>, us: seq<Usage>)
    requires |us| == |cached|
    decreases cached
  {
    cached == []
    || (us[0].read == before && us[0].Create() == cached[0] - before && Chained(cached[0], cached[1..], us[1..]))
  }

  /** Such bills telescope. */
  lemma {:induction false} ChainedSum(before: int, cached: seq<int>, us: seq<Usage>)
    requires |us| == |cached| && Chained(before, cached, us)
    ensures Sum(us).Create() == (if cached == [] then before else cached[|cached| - 1]) - before
    decreases cached
  {
    if cached != [] {
      ChainedSum(cached[0], cached[1..], us[1..]);
    }
  }

  lemma {:induction false} ChainedAt(before: int, cached: seq<int>, us: seq<Usage>, k: nat)
    requires |us| == |cached| && k < |cached| && Chained(before, cached, us)
    ensures us[k].read == if k == 0 then before else cached[k - 1]
    decreases k
  {
    if k > 0 {
      ChainedAt(cached[0], cached[1..], us[1..], k - 1);
    }
  }

  lemma {:induction false} WarmStep(plain: Plain, a: Request, b: Request) returns (u: Usage, next: Plain)
    requires Warm(plain, a) && Follows(a, b)
    ensures u == Billed(plain, b) && next == After(plain, b)
    ensures u.read == Cached(a) && u.Create() == Cached(b) - Cached(a) && Warm(next, b)
  {
    u, next := Billed(plain, b), After(plain, b);
    NextTurn(plain, a, b);
  }

  lemma {:induction false} RunStep(plain: Plain, rs: seq<Request>, u: Usage, next: Plain, rest: seq<Usage>)
    requires rs != [] && u == Billed(plain, rs[0]) && next == After(plain, rs[0]) && rest == Run(next, rs[1..]).usages
    ensures Run(plain, rs).usages == [u] + rest
  {
  }

  lemma {:induction false} ChainStep(before: int, rs: seq<Request>, u: Usage, rest: seq<Usage>)
    requires rs != [] && |rest| == |rs| - 1 && u.read == before && u.Create() == Cached(rs[0]) - before
    requires Chained(Cached(rs[0]), CachedOf(rs[1..]), rest)
    ensures Chained(before, CachedOf(rs), [u] + rest)
  {
    assert ([u] + rest)[1..] == rest;
    assert CachedOf(rs)[1..] == CachedOf(rs[1..]);
  }

  lemma {:induction false} WarmRun(plain: Plain, a: Request, rs: seq<Request>) returns (us: seq<Usage>)
    requires Warm(plain, a) && Continues(a, rs)
    ensures us == Run(plain, rs).usages && Chained(Cached(a), CachedOf(rs), us)
    decreases rs
  {
    us := [];
    if rs != [] {
      var u, next := WarmStep(plain, a, rs[0]);
      var rest := WarmRun(next, rs[0], rs[1..]);
      RunStep(plain, rs, u, next, rest);
      ChainStep(Cached(a), rs, u, rest);
      us := [u] + rest;
    }
  }

  /** Every turn reads exactly what the previous one had cached, and all the writing there ever is adds up
      to what the final turn has cached. */
  ghost predicate WrittenOnceBy(plain: Plain, rs: seq<Request>) {
    var us := Run(plain, rs).usages;
    && rs != []
    && us[0].read == 0
    && (forall k :: 0 < k < |rs| ==> us[k].read == Cached(rs[k - 1]))
    && Sum(us).Create() == Cached(rs[|rs| - 1])
  }

  /** Each token is written once, over any conversation that starts in a cold scope. */
  lemma {:induction false} WriteOnce(plain: Plain, rs: seq<Request>)
    requires rs != [] && Conversation(rs) && Cold(plain, rs[0].scope) && 0.0 <= rs[0].now
    ensures WrittenOnceBy(plain, rs)
  {
    var us := ColdRun(plain, rs);
    var cached := CachedOf(rs);
    ChainedSum(0, cached, us);
    forall k | 0 <= k < |rs| ensures us[k].read == if k == 0 then 0 else cached[k - 1] {
      ChainedAt(0, cached, us, k);
    }
  }

  lemma {:induction false} ColdStep(plain: Plain, r: Request) returns (u: Usage, next: Plain)
    requires Cold(plain, r.scope) && 0.0 <= r.now
    ensures u == Billed(plain, r) && next == After(plain, r)
    ensures u.read == 0 && u.Create() == Cached(r) && Warm(next, r)
  {
    u, next := Billed(plain, r), After(plain, r);
    FirstTurn(plain, r);
  }

  lemma {:induction false} ColdRun(plain: Plain, rs: seq<Request>) returns (us: seq<Usage>)
    requires rs != [] && Conversation(rs) && Cold(plain, rs[0].scope) && 0.0 <= rs[0].now
    ensures us == Run(plain, rs).usages && Chained(0, CachedOf(rs), us)
  {
    var first, next := ColdStep(plain, rs[0]);
    ConversationContinues(rs);
    var rest := WarmRun(next, rs[0], rs[1..]);
    RunStep(plain, rs, first, next, rest);
    ChainStep(0, rs, first, rest);
    us := [first] + rest;
  }

  /** The same in traffic that mixes conversations: what other scopes send does not matter. */
  lemma {:induction false} WriteOnceInterleaved(rs: seq<Request>, scope: string)
    requires var mine := Only(rs, scope);
             mine != [] && Conversation(mine) && 0.0 <= mine[0].now
    ensures var mine, us := Only(rs, scope), Select(rs, Run(map[], rs).usages, scope);
            && |us| == |mine|
            && us[0].read == 0
            && (forall k :: 0 < k < |mine| ==> us[k].read == Cached(mine[k - 1]))
            && Sum(us).Create() == Cached(mine[|mine| - 1])
  {
    NonInterference(map[], rs, scope);
    assert Restrict(map[], scope) == map[];
    WriteOnce(map[], Only(rs, scope));
  }

  /** A plain append-only step: the segment list grows at the end, the last breakpoint does not move
      back, and the gap is under five minutes. */
  ghost predicate Appends(a: Request, b: Request) {
    && a.scope == b.scope
    && Shape(a.segs) <= Shape(b.segs)
    && Last(a.segs) <= Last(b.segs)
    && 0.0 <= b.now < a.now + 300.0
  }

  lemma {:induction false} AppendsFollows(a: Request, b: Request)
    requires Appends(a, b)
    ensures Follows(a, b)
  {
    var n := Last(a.segs);
    assert Shape(b.segs)[..n] == Shape(b.segs)[..|a.segs|][..n];
  }

  /** On an append-only run every token of every turn lands in exactly one bucket. */
  lemma {:induction false} AppendOnlyIsExact(plain: Plain, a: Request, b: Request)
    requires Warm(plain, a) && Appends(a, b)
    ensures Billed(plain, b).Tokens() == Total(b.segs)
  {
    AppendsFollows(a, b);
    NextTurn(plain, a, b);
    Conservation(plain, b);
    UptoGrows(b.segs, Last(a.segs), Last(b.segs));
    UptoOfShape(a.segs, b.segs, Last(a.segs));
  }

  ghost predicate AppendOnly(rs: seq<Request>) {
    forall k :: 0 <= k < |rs| - 1 ==> Appends(rs[k], rs[k + 1])
  }

  /** On an append-only run every turn's bill is its size, and it creates what it newly caches. */
  lemma {:induction false} AppendOnlyBills(plain: Plain, rs: seq<Request>, k: nat)
    requires k < |rs| && AppendOnly(rs) && Cold(plain, rs[0].scope) && 0.0 <= rs[0].now
    ensures var u := Run(plain, rs[..k + 1]).usages[k];
            && u.Tokens() == Total(rs[k].segs)
            && u.Create() == Cached(rs[k]) - if k == 0 then 0 else Cached(rs[k - 1])
    ensures Warm(Run(plain, rs[..k + 1]).plain, rs[k])
  {
    var before := Run(plain, rs[..k]).plain;
    assert rs[..k + 1] == rs[..k] + [rs[k]];
    RunAppend(plain, rs[..k], rs[k]);
    Conservation(before, rs[k]);
    if k == 0 {
      FirstTurn(plain, rs[0]);
    } else {
      AppendOnlyBills(plain, rs, k - 1);
      assert Appends(rs[k - 1], rs[k - 1 + 1]);
      AppendsFollows(rs[k - 1], rs[k]);
      NextTurn(before, rs[k - 1], rs[k]);
      AppendOnlyIsExact(before, rs[k - 1], rs[k]);
    }
  }

  lemma {:induction false} RunPrefix(plain: Plain, rs: seq<Request>, n: nat, k: nat)
    requires k < n <= |rs|
    ensures Run(plain, rs[..n]).usages[k] == Run(plain, rs[..k + 1]).usages[k]
  {
    if k + 1 < n {
      assert rs[..n] == rs[..n - 1] + [rs[n - 1]];
      RunAppend(plain, rs[..n - 1], rs[n - 1]);
      RunPrefix(plain, rs, n - 1, k);
    }
  }

  /** So over the whole run nothing is billed twice and nothing is missed. */
  lemma {:induction false} AppendOnlyRunIsExact(plain: Plain, rs: seq<Request>, k: nat)
    requires k < |rs| && AppendOnly(rs) && Cold(plain, rs[0].scope) && 0.0 <= rs[0].now
    ensures Run(plain, rs).usages[k].Tokens() == Total(rs[k].segs)
  {
    assert rs[..|rs|] == rs;
    RunPrefix(plain, rs, |rs|, k);
    AppendOnlyBills(plain, rs, k);
  }
}
