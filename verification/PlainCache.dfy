/** What a request is billed, stated over a plain map from prefixes to expiry times.

    This is the reference the simulator in `CacheSim` is proved against: no digests, no running
    state, no search loops. */
module PlainCache {
  import opened Wire
  import opened Flattening

  const MIN_CACHEABLE_TOKENS: nat := 1024

  /** A cached prefix: its scope, and the segments from the first to the one that closed it. */
  datatype Prefix = Prefix(scope: string, digests: seq<Digest>)

  /** From prefixes to expiry times. */
  type Plain = map<Prefix, real>

  datatype Usage = Usage(input: int, read: int, write5m: int, write1h: int) {
    function Create(): int { write5m + write1h }

    function Tokens(): int { input + read + write5m + write1h }

    function Add(other: Usage): Usage {
      Usage(input + other.input, read + other.read, write5m + other.write5m, write1h + other.write1h)
    }
  }

  const NO_USAGE := Usage(0, 0, 0, 0)

  /** One scored request: where it is cached, its segments, and when it arrived. */
  datatype Request = Request(scope: string, segs: seq<Segment>, now: real)

  function TtlSeconds(ttl: string): real { if ttl == "1h" then 3600.0 else 300.0 }

  function Max(a: int, b: int): int { if a < b then b else a }

  function MaxReal(a: real, b: real): real { if a < b then b else a }

  /** Tokens of the first `i` segments. */
  function Upto(segs: seq<Segment>, i: nat): nat
    requires i <= |segs|
  {
    if i == 0 then 0 else Upto(segs, i - 1) + segs[i - 1].tokens
  }

  function Total(segs: seq<Segment>): nat { Upto(segs, |segs|) }

  function Digests(segs: seq<Segment>): (r: seq<Digest>)
    ensures |r| == |segs|
  {
    seq(|segs|, i requires 0 <= i < |segs| => segs[i].digest)
  }

  function PrefixAt(scope: string, segs: seq<Segment>, i: nat): Prefix
    requires i <= |segs|
  {
    Prefix(scope, Digests(segs)[..i])
  }

  /** Segment `i`, counting from one, is marked and the prefix it closes is long enough to be cached. */
  predicate IsBreakpoint(segs: seq<Segment>, i: nat) {
    0 < i <= |segs| && segs[i - 1].ttl.Some? && Upto(segs, i) >= MIN_CACHEABLE_TOKENS
  }

  /** The last breakpoint among the first `n` segments, 0 if there is none. */
  function LastBefore(segs: seq<Segment>, n: nat): (r: nat)
    requires n <= |segs|
    ensures r <= n
    ensures 0 < r ==> IsBreakpoint(segs, r)
  {
    if n == 0 then 0 else if IsBreakpoint(segs, n) then n else LastBefore(segs, n - 1)
  }

  lemma {:induction false} NoneAfterLast(segs: seq<Segment>, n: nat, i: nat)
    requires n <= |segs| && LastBefore(segs, n) < i <= n
    ensures !IsBreakpoint(segs, i)
  {
    if i < n {
      NoneAfterLast(segs, n - 1, i);
    }
  }

  function Last(segs: seq<Segment>): nat { LastBefore(segs, |segs|) }

  /** An entry that is absent reads as expiring at time 0. */
  function Expiry(plain: Plain, p: Prefix): real { if p in plain then plain[p] else 0.0 }

  predicate Live(plain: Plain, p: Prefix, now: real) { Expiry(plain, p) > now }

  /** The longest live prefix among the first `n` segments, 0 if there is none. */
  function ReadBefore(plain: Plain, r: Request, n: nat): (i: nat)
    requires n <= |r.segs|
    ensures i <= n
    ensures 0 < i ==> Live(plain, PrefixAt(r.scope, r.segs, i), r.now)
  {
    if n == 0 then 0
    else if Live(plain, PrefixAt(r.scope, r.segs, n), r.now) then n
    else ReadBefore(plain, r, n - 1)
  }

  /** No longer prefix of the request is live than the one that is read. */
  lemma {:induction false} NoneLiveAfterRead(plain: Plain, r: Request, n: nat, j: nat)
    requires n <= |r.segs| && ReadBefore(plain, r, n) < j <= n
    ensures !Live(plain, PrefixAt(r.scope, r.segs, j), r.now)
  {
    if j < n {
      NoneLiveAfterRead(plain, r, n - 1, j);
    }
  }

  /** What is read: nothing at all when the request has no breakpoint of its own. */
  function ReadIndex(plain: Plain, r: Request): (i: nat)
    ensures i <= |r.segs|
  {
    if Last(r.segs) == 0 then 0 else ReadBefore(plain, r, |r.segs|)
  }

  /** The breakpoint that closes the span segment `j` (counting from zero) lies in;
      one past the end if there is none. */
  function Closing(segs: seq<Segment>, j: nat): (i: nat)
    requires j < |segs|
    ensures j < i <= |segs| + 1
    ensures i <= |segs| ==> IsBreakpoint(segs, i)
    decreases |segs| - j
  {
    if IsBreakpoint(segs, j + 1) then j + 1
    else if j + 1 == |segs| then |segs| + 1
    else Closing(segs, j + 1)
  }

  lemma {:induction false} ClosedBy(segs: seq<Segment>, j: nat, to: nat)
    requires j < to && IsBreakpoint(segs, to)
    ensures Closing(segs, j) <= to
    ensures LastBefore(segs, to - 1) <= j ==> Closing(segs, j) == to
    decreases |segs| - j
  {
    if j + 1 < to {
      ClosedBy(segs, j + 1, to);
      if LastBefore(segs, to - 1) <= j {
        NoneAfterLast(segs, to - 1, j + 1);
      }
    }
  }

  /** Segment `j` is written at the tier of the breakpoint that closes its span. */
  predicate WrittenAt(segs: seq<Segment>, j: nat, hour: bool)
    requires j < |segs|
  {
    var i := Closing(segs, j);
    i <= |segs| && (segs[i - 1].ttl.value == "1h") == hour
  }

  /** Tokens of segments `lo` up to `hi` that are written at the given tier. */
  function Written(segs: seq<Segment>, lo: nat, hi: nat, hour: bool): nat
    requires hi <= |segs|
    decreases hi
  {
    if hi <= lo then 0
    else Written(segs, lo, hi - 1, hour) + if WrittenAt(segs, hi - 1, hour) then segs[hi - 1].tokens else 0
  }

  function Billed(plain: Plain, r: Request): Usage {
    var last := Last(r.segs);
    if last == 0 then
      Usage(Total(r.segs), 0, 0, 0)
    else
      var read := ReadIndex(plain, r);
      Usage(Total(r.segs) - Upto(r.segs, last), Upto(r.segs, read),
            Written(r.segs, read, last, false), Written(r.segs, read, last, true))
  }

  /** Every breakpoint among the first `n` segments is stored or refreshed. */
  function Stored(plain: Plain, r: Request, n: nat): Plain
    requires n <= |r.segs|
  {
    if n == 0 then plain
    else
      var before := Stored(plain, r, n - 1);
      if IsBreakpoint(r.segs, n)
      then before[PrefixAt(r.scope, r.segs, n) := r.now + TtlSeconds(r.segs[n - 1].ttl.value)]
      else before
  }

  /** All breakpoints stored; if the read ended elsewhere, what it hit lives five more minutes at least. */
  function After(plain: Plain, r: Request): Plain {
    var stored := Stored(plain, r, |r.segs|);
    var read := ReadIndex(plain, r);
    if read == 0 || IsBreakpoint(r.segs, read) then stored
    else
      var p := PrefixAt(r.scope, r.segs, read);
      stored[p := MaxReal(Expiry(stored, p), r.now + TtlSeconds(DEFAULT_TTL))]
  }

  // ---- Arithmetic of prefixes ----

  lemma {:induction false} UptoGrows(segs: seq<Segment>, i: nat, j: nat)
    requires i <= j <= |segs|
    ensures Upto(segs, i) + (j - i) <= Upto(segs, j)
  {
    if i < j {
      UptoGrows(segs, i, j - 1);
    }
  }

  lemma {:induction false} UptoOfShape(a: seq<Segment>, b: seq<Segment>, n: nat)
    requires n <= |a| && n <= |b| && Shape(a)[..n] == Shape(b)[..n]
    ensures Upto(a, n) == Upto(b, n)
    ensures forall i :: 0 <= i < n ==> a[i].digest == b[i].digest && a[i].tokens == b[i].tokens
    ensures Digests(a)[..n] == Digests(b)[..n]
  {
    forall i | 0 <= i < n ensures a[i].digest == b[i].digest && a[i].tokens == b[i].tokens {
      assert Shape(a)[..n][i] == Plainly(a[i]) && Shape(b)[..n][i] == Plainly(b[i]);
    }
    if n > 0 {
      assert Shape(a)[..n - 1] == Shape(a)[..n][..n - 1];
      assert Shape(b)[..n - 1] == Shape(b)[..n][..n - 1];
      UptoOfShape(a, b, n - 1);
    }
  }

  /** Between two points up to the last breakpoint, every token is written at exactly one tier. */
  lemma {:induction false} WrittenOnce(segs: seq<Segment>, lo: nat, hi: nat)
    requires lo <= hi <= Last(segs)
    ensures Written(segs, lo, hi, false) + Written(segs, lo, hi, true) == Upto(segs, hi) - Upto(segs, lo)
  {
    if lo < hi {
      WrittenOnce(segs, lo, hi - 1);
      ClosedBy(segs, hi - 1, Last(segs));
    }
  }

  /** Conservation in its exact form: fresh input is measured from the last breakpoint even when the
      read reached further, so the overlap is counted twice and nothing else is. */
  lemma {:induction false} Conservation(plain: Plain, r: Request)
    ensures Last(r.segs) == 0 ==> Billed(plain, r) == Usage(Total(r.segs), 0, 0, 0)
    ensures Last(r.segs) > 0 ==>
      var u := Billed(plain, r);
      u.Tokens() == Total(r.segs) + Max(0, u.read - Upto(r.segs, Last(r.segs)))
  {
    if Last(r.segs) > 0 {
      var read, last := ReadIndex(plain, r), Last(r.segs);
      if read <= last {
        WrittenOnce(r.segs, read, last);
        UptoGrows(r.segs, read, last);
      } else {
        UptoGrows(r.segs, last, read);
      }
    }
  }

  /** No prefix of the request that reaches past its last breakpoint can be read from the cache. */
  ghost predicate NothingBeyond(plain: Plain, r: Request) {
    forall j :: Last(r.segs) < j <= |r.segs| ==> !Live(plain, PrefixAt(r.scope, r.segs, j), r.now)
  }

  /** The bill is exact, with every token of the request in exactly one bucket, if and only if the cache
      holds nothing live past the last breakpoint, or there is no breakpoint. */
  lemma {:induction false} ExactConservation(plain: Plain, r: Request)
    ensures Billed(plain, r).Tokens() == Total(r.segs) <==> Last(r.segs) == 0 || NothingBeyond(plain, r)
  {
    if Last(r.segs) > 0 {
      Conservation(plain, r);
      ReadBeyond(plain, r);
      var read, last := ReadIndex(plain, r), Last(r.segs);
      if read <= last {
        UptoGrows(r.segs, read, last);
      } else {
        UptoGrows(r.segs, last, read);
      }
    }
  }

  lemma {:induction false} ReadBeyond(plain: Plain, r: Request)
    requires Last(r.segs) > 0
    ensures NothingBeyond(plain, r) <==> ReadIndex(plain, r) <= Last(r.segs)
  {
    if ReadIndex(plain, r) <= Last(r.segs) {
      forall j | Last(r.segs) < j <= |r.segs| ensures !Live(plain, PrefixAt(r.scope, r.segs, j), r.now) {
        NoneLiveAfterRead(plain, r, |r.segs|, j);
      }
    }
  }

  /** Two segments, the first long enough to be cached by itself. */
  function TwoSegments(a: Digest, b: Digest, second: Option<string>): seq<Segment> {
    [Segment(1024, Some("1h"), a), Segment(1, second, b)]
  }

  lemma {:induction false} TwoSegmentsUpto(a: Digest, b: Digest, second: Option<string>)
    ensures var segs := TwoSegments(a, b, second);
            && Upto(segs, 1) == 1024 && Upto(segs, 2) == 1025
            && Last(segs) == if second.Some? then 2 else 1
  {
    var segs := TwoSegments(a, b, second);
    assert Upto(segs, 0) == 0;
    assert Upto(segs, 1) == 1024;
    assert IsBreakpoint(segs, 1);
    assert LastBefore(segs, 1) == 1;
  }

  /** A second turn that drops the marker on its last block is billed for that block twice: as read, and as
      fresh input. */
  lemma {:induction false} BilledTwice(scope: string, a: Digest, b: Digest)
    ensures var first := Request(scope, TwoSegments(a, b, Some("1h")), 0.0);
            var second := Request(scope, TwoSegments(a, b, None), 1.0);
            var u := Billed(After(map[], first), second);
            && u == Usage(1, 1025, 0, 0)
            && u.Tokens() == Total(second.segs) + 1
  {
    var first := Request(scope, TwoSegments(a, b, Some("1h")), 0.0);
    var second := Request(scope, TwoSegments(a, b, None), 1.0);
    TwoSegmentsUpto(a, b, Some("1h"));
    TwoSegmentsUpto(a, b, None);
    var p := PrefixAt(scope, second.segs, 2);
    assert p == PrefixAt(scope, first.segs, 2) && |p.digests| == 2;
    AfterAt(map[], first, p);
    assert Live(After(map[], first), p, 1.0);
  }

  /** No class of tokens is ever negative. */
  lemma {:induction false} UsageNonNegative(plain: Plain, r: Request)
    ensures var u := Billed(plain, r); u.input >= 0 && u.read >= 0 && u.write5m >= 0 && u.write1h >= 0
  {
    UptoGrows(r.segs, Last(r.segs), |r.segs|);
  }

  // ---- What the cache holds after a request ----

  predicate IsStoredBy(r: Request, n: nat, p: Prefix)
    requires n <= |r.segs|
  {
    && p.scope == r.scope
    && 0 < |p.digests| <= n
    && p.digests == Digests(r.segs)[..|p.digests|]
    && IsBreakpoint(r.segs, |p.digests|)
  }

  lemma {:induction false} StoredAt(plain: Plain, r: Request, n: nat, p: Prefix)
    requires n <= |r.segs|
    ensures p in Stored(plain, r, n) <==> p in plain || IsStoredBy(r, n, p)
    ensures IsStoredBy(r, n, p) ==>
      Stored(plain, r, n)[p] == r.now + TtlSeconds(r.segs[|p.digests| - 1].ttl.value)
    ensures p in plain && !IsStoredBy(r, n, p) ==> Stored(plain, r, n)[p] == plain[p]
  {
    if n > 0 {
      StoredAt(plain, r, n - 1, p);
      var q := PrefixAt(r.scope, r.segs, n);
      assert |q.digests| == n;
      if p == q {
        assert p.digests == Digests(r.segs)[..n];
      }
    }
  }

  predicate IsRenewedBy(plain: Plain, r: Request, p: Prefix) {
    && ReadIndex(plain, r) > 0
    && !IsBreakpoint(r.segs, ReadIndex(plain, r))
    && p == PrefixAt(r.scope, r.segs, ReadIndex(plain, r))
  }

  /** The whole new state, entry by entry: breakpoints are (re)stored at their own TTL, the entry read
      is renewed, and every other entry is untouched. */
  lemma {:induction false} AfterAt(plain: Plain, r: Request, p: Prefix)
    ensures p in After(plain, r)
       <==> p in plain || IsStoredBy(r, |r.segs|, p) || IsRenewedBy(plain, r, p)
    ensures IsStoredBy(r, |r.segs|, p) ==>
      After(plain, r)[p] == r.now + TtlSeconds(r.segs[|p.digests| - 1].ttl.value)
    ensures IsRenewedBy(plain, r, p) ==>
      After(plain, r)[p] == MaxReal(Expiry(plain, p), r.now + 300.0)
    ensures p in plain && !IsStoredBy(r, |r.segs|, p) && !IsRenewedBy(plain, r, p) ==>
      After(plain, r)[p] == plain[p]
  {
    StoredAt(plain, r, |r.segs|, p);
    var read := ReadIndex(plain, r);
    if read > 0 && !IsBreakpoint(r.segs, read) {
      var q := PrefixAt(r.scope, r.segs, read);
      assert |q.digests| == read;
      StoredAt(plain, r, |r.segs|, q);
    }
  }

  // ---- Last breakpoint and markers ----

  /** The last marked segment (counting from one), 0 if there is none. */
  function LastMarked(segs: seq<Segment>): (r: nat)
    ensures r <= |segs|
    ensures 0 < r ==> segs[r - 1].ttl.Some?
    ensures forall i :: r <= i < |segs| ==> segs[i].ttl.None?
  {
    if segs == [] then 0
    else if segs[|segs| - 1].ttl.Some? then |segs|
    else LastMarked(segs[..|segs| - 1])
  }

  /** Only the last marker matters to where the cached part of a request ends. */
  lemma {:induction false} LastIsLastMarked(segs: seq<Segment>)
    ensures Last(segs) == if Upto(segs, LastMarked(segs)) >= MIN_CACHEABLE_TOKENS then LastMarked(segs) else 0
  {
    var m := LastMarked(segs);
    if Upto(segs, m) >= MIN_CACHEABLE_TOKENS {
      assert IsBreakpoint(segs, m);
      if Last(segs) < m {
        NoneAfterLast(segs, |segs|, m);
        assert false;
      }
    } else if Last(segs) > 0 {
      assert Last(segs) <= m;
      UptoGrows(segs, Last(segs), m);
    }
  }

  lemma {:induction false} LastMarkedUnique(segs: seq<Segment>, m: nat)
    requires m <= |segs|
    requires 0 < m ==> segs[m - 1].ttl.Some?
    requires forall i :: m <= i < |segs| ==> segs[i].ttl.None?
    ensures LastMarked(segs) == m
  {
  }

  lemma {:induction false} TrimKeepsLastMarked(segs: seq<Segment>)
    ensures LastMarked(Trim(segs)) == LastMarked(segs)
    ensures LastMarked(segs) > 0 ==> Trim(segs)[LastMarked(segs) - 1] == segs[LastMarked(segs) - 1]
  {
    var m := LastMarked(segs);
    if m > 0 {
      assert segs[m - 1..][1..] == segs[m..];
      NoneMarked(segs[m..]);
      assert CountMarked(segs[m - 1..]) == 1;
    }
    LastMarkedUnique(Trim(segs), m);
  }

  /** Trimming to the budget never moves the end of the cached part, nor its tier. */
  lemma {:induction false} TrimKeepsLast(segs: seq<Segment>)
    ensures Last(Trim(segs)) == Last(segs)
    ensures Last(segs) > 0 ==> Trim(segs)[Last(segs) - 1] == segs[Last(segs) - 1]
    ensures forall n :: 0 <= n <= |segs| ==> Upto(Trim(segs), n) == Upto(segs, n)
  {
    TrimKeepsLastMarked(segs);
    forall n | 0 <= n <= |segs| ensures Upto(Trim(segs), n) == Upto(segs, n) {
      TrimKeepsShape(segs);
      UptoOfShape(segs, Trim(segs), n);
    }
    LastIsLastMarked(segs);
    LastIsLastMarked(Trim(segs));
  }
}
