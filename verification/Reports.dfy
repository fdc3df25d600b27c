/** Scoring an arm, pairing two arms in one walk of the corpus, and attributing the difference. */
module Reports {
  import opened Wire
  import opened Flattening
  import opened PlainCache
  import opened CacheRuns
  import Sim = CacheSim

  // ---- Scopes ----

  function Until(s: string, c: char): string {
    if s == "" || s[0] == c then "" else [s[0]] + Until(s[1..], c)
  }

  /** The second colon-separated field of a session key: the credential. */
  function Credential(session: string): string {
    if session == "" then "" else if session[0] == ':' then Until(session[1..], ':') else Credential(session[1..])
  }

  /** Model and credential identify the cache. */
  function ScopeOf(model: string, session: string): string { model + ['\0'] + Credential(session) }

  lemma {:induction false} UntilNul(model: string, rest: string)
    requires '\0' !in model
    ensures Until(model + ['\0'] + rest, '\0') == model
  {
    var s := model + ['\0'] + rest;
    if model != "" {
      assert s[0] == model[0] && s[1..] == model[1..] + ['\0'] + rest;
      UntilNul(model[1..], rest);
    }
  }

  /** Two turns share a scope exactly when they share model and credential. */
  lemma {:induction false} ScopeIdentifies(m1: string, s1: string, m2: string, s2: string)
    requires '\0' !in m1 && '\0' !in m2
    ensures ScopeOf(m1, s1) == ScopeOf(m2, s2) <==> m1 == m2 && Credential(s1) == Credential(s2)
  {
    UntilNul(m1, Credential(s1));
    UntilNul(m2, Credential(s2));
    assert ScopeOf(m1, s1)[|m1| + 1..] == Credential(s1);
    assert ScopeOf(m2, s2)[|m2| + 1..] == Credential(s2);
  }

  // ---- Turns and arms ----

  /** A captured turn: its envelope, and the two bodies if they load. */
  datatype Entry = Entry(id: string, session: string, ts: real, client: Option<Body>, forwarded: Option<Body>)

  datatype Which = Client | Forwarded

  function BodyOf(e: Entry, which: Which): Option<Body> { if which.Client? then e.client else e.forwarded }

  function RequestOf(est: Estimator, body: Body, session: string, ts: real): Request {
    Request(ScopeOf(body.model, session), Flatten(est, body), ts)
  }

  /** The requests of one arm, for the entries that have a body there. */
  function ArmOf(est: Estimator, es: seq<Entry>, which: Which): seq<Request> {
    if es == [] then []
    else
      var n := |es| - 1;
      var body := BodyOf(es[n], which);
      ArmOf(est, es[..n], which)
      + if body.None? then [] else [RequestOf(est, body.value, es[n].session, es[n].ts)]
  }

  /** `score_arm`: the whole arm against one cache that starts empty. */
  function ScoreArm(rs: seq<Request>): Usage { Sum(Run(map[], rs).usages) }

  /** The turns for which both bodies load. */
  function Kept(es: seq<Entry>): (r: seq<Entry>)
    ensures forall i :: 0 <= i < |r| ==> r[i].client.Some? && r[i].forwarded.Some?
  {
    if es == [] then []
    else
      var n := |es| - 1;
      Kept(es[..n]) + if es[n].client.Some? && es[n].forwarded.Some? then [es[n]] else []
  }

  // ---- Streaming ----

  /** One more request adds its own bill. */
  lemma {:induction false} FedOne(fed: seq<Request>, r: Request)
    ensures var before := Run(map[], fed).plain;
            && Run(map[], fed + [r]).plain == After(before, r)
            && ScoreArm(fed + [r]) == ScoreArm(fed).Add(Billed(before, r))
  {
    RunAppend(map[], fed, r);
    SumAppend(Run(map[], fed).usages, Billed(Run(map[], fed).plain, r));
  }

  /** The running score of one arm. */
  class StreamScorer<K(==)> {
    const sim: Sim.CacheSim<K>
    const budget: OverBudget
    var total: Usage
    /** The requests fed so far. */
    ghost var fed: seq<Request>

    ghost predicate Valid()
      reads this, sim
    {
      && sim.Valid()
      && sim.plain == Run(map[], fed).plain
      && total == ScoreArm(fed)
    }

    constructor (h: Sim.Hasher<K>, est: Estimator)
      requires Sim.CollisionFree(h)
      ensures Valid() && fed == [] && sim.est == est && fresh(sim) && fresh(budget)
    {
      sim := new Sim.CacheSim(h, est);
      budget := new OverBudget();
      total := NO_USAGE;
      fed := [];
    }

    method Add(body: Body, session: string, ts: real) returns (usage: Usage)
      requires Valid()
      modifies this, sim, budget
      ensures Valid() && fed == old(fed) + [RequestOf(sim.est, body, session, ts)]
      ensures total == old(total).Add(usage)
    {
      ghost var r := RequestOf(sim.est, body, session, ts);
      var scope := ScopeOf(body.model, session);
      assert scope[|body.model|] == '\0';
      FedOne(fed, r);
      usage := sim.Score(body, ts, scope, budget);
      total := total.Add(usage);
      fed := fed + [r];
    }
  }

  method AddPair<K(==)
    >(c: StreamScorer<K>, p: StreamScorer<K>, client: Body, forwarded: Body, session: string, ts: real)
    requires c.Valid() && p.Valid() && c != p && c.sim != p.sim && c.budget != p.budget
    modifies c, c.sim, c.budget, p, p.sim, p.budget
    ensures c.Valid() && c.fed == old(c.fed) + [RequestOf(c.sim.est, client, session, ts)]
    ensures p.Valid() && p.fed == old(p.fed) + [RequestOf(p.sim.est, forwarded, session, ts)]
  {
    var _ := c.Add(client, session, ts);
    var _ := p.Add(forwarded, session, ts);
  }

  lemma {:induction false} ArmAppend(est: Estimator, kept: seq<Entry>, e: Entry, which: Which)
    requires BodyOf(e, which).Some?
    ensures ArmOf(est, kept + [e], which)
         == ArmOf(est, kept, which) + [RequestOf(est, BodyOf(e, which).value, e.session, e.ts)]
  {
    assert (kept + [e])[..|kept|] == kept;
  }

  lemma {:induction false} KeptNext(es: seq<Entry>, i: nat)
    requires i < |es|
    ensures Kept(es[..i + 1])
         == if es[i].client.Some? && es[i].forwarded.Some? then Kept(es[..i]) + [es[i]] else Kept(es[..i])
  {
    assert es[..i + 1][..i] == es[..i];
  }

  /** The walk over the corpus: an entry with a body missing is passed over by both arms. */
  method ScorePairs<K(==)>(c: StreamScorer<K>, p: StreamScorer<K>, es: seq<Entry>) returns (kept: seq<Entry>)
    requires c.Valid() && p.Valid() && c != p && c.sim != p.sim && c.budget != p.budget && c.fed == p.fed == []
    modifies c, c.sim, c.budget, p, p.sim, p.budget
    ensures kept == Kept(es)
    ensures c.Valid() && c.fed == ArmOf(c.sim.est, kept, Client)
    ensures p.Valid() && p.fed == ArmOf(p.sim.est, kept, Forwarded)
  {
    kept := [];
    var i := 0;
    while i < |es|
      invariant 0 <= i <= |es|
      invariant kept == Kept(es[..i])
      invariant c.Valid() && c.fed == ArmOf(c.sim.est, kept, Client)
      invariant p.Valid() && p.fed == ArmOf(p.sim.est, kept, Forwarded)
    {
      var e := es[i];
      KeptNext(es, i);
      if e.client.Some? && e.forwarded.Some? {
        ArmAppend(c.sim.est, kept, e, Client);
        ArmAppend(p.sim.est, kept, e, Forwarded);
        AddPair(c, p, e.client.value, e.forwarded.value, e.session, e.ts);
        kept := kept + [e];
      }
      i := i + 1;
    }
    assert es[..i] == es;
  }

  function Sessions(es: seq<Entry>): set<string> { set e | e in es :: e.session }

  /** Both arms in one walk are billed as each would be, by itself, over the turns that have both bodies. */
  method PairedPass<K(==)>(h: Sim.Hasher<K>, est: Estimator, es: seq<Entry>)
    returns (client: Usage, proxy: Usage, kept: seq<Entry>, sessions: nat)
    requires Sim.CollisionFree(h)
    ensures kept == Kept(es) && sessions == |Sessions(kept)|
    ensures client == ScoreArm(ArmOf(est, Kept(es), Client)) && proxy == ScoreArm(ArmOf(est, Kept(es), Forwarded))
  {
    var clientArm := new StreamScorer(h, est);
    var proxyArm := new StreamScorer(h, est);
    kept := ScorePairs(clientArm, proxyArm, es);
    client, proxy, sessions := clientArm.total, proxyArm.total, |Sessions(kept)|;
  }

  // ---- Bills ----

  datatype Weights = Weights(read: real, write5m: real, write1h: real, input: real)

  function Bill(u: Usage, w: Weights): real {
    u.input as real * w.input + u.read as real * w.read + u.write5m as real * w.write5m
    + u.write1h as real * w.write1h
  }

  lemma {:induction false} Distribute(a: int, b: int, w: real)
    ensures (a + b) as real * w == a as real * w + b as real * w
    ensures (a - b) as real * w == a as real * w - b as real * w
  {
  }

  lemma {:induction false} BillAdds(u: Usage, v: Usage, w: Weights)
    ensures Bill(u.Add(v), w) == Bill(u, w) + Bill(v, w)
  {
    Distribute(u.input, v.input, w.input);
    Distribute(u.read, v.read, w.read);
    Distribute(u.write5m, v.write5m, w.write5m);
    Distribute(u.write1h, v.write1h, w.write1h);
  }

  function SumBills(us: seq<Usage>, w: Weights): real {
    if us == [] then 0.0 else Bill(us[0], w) + SumBills(us[1..], w)
  }

  /** The bill of a total is the total of the bills. */
  lemma {:induction false} BillOfSum(us: seq<Usage>, w: Weights)
    ensures Bill(Sum(us), w) == SumBills(us, w)
  {
    if us != [] {
      BillOfSum(us[1..], w);
      BillAdds(us[0], Sum(us[1..]), w);
    }
  }

  // ---- Defects: per-turn attribution ----

  datatype Scored = Scored(id: string, usage: Usage)

  datatype Pair = Pair(id: string, client: Usage, forwarded: Usage)

  datatype Cause = UncachedTail | PrefixNotRead | ExtraWrites

  function ById(scored: seq<Scored>): map<string, Usage> {
    if scored == [] then map[]
    else ById(scored[..|scored| - 1])[scored[|scored| - 1].id := scored[|scored| - 1].usage]
  }

  function Join(client: seq<Scored>, forwarded: seq<Scored>): seq<Pair> {
    if forwarded == [] then []
    else
      var n := |forwarded| - 1;
      var f := forwarded[n];
      Join(client, forwarded[..n])
      + if f.id in ById(client) then [Pair(f.id, ById(client)[f.id], f.usage)] else []
  }

  function Delta(p: Pair, w: Weights): real { Bill(p.forwarded, w) - Bill(p.client, w) }

  function Tail(p: Pair, w: Weights): real { (p.forwarded.input - p.client.input) as real * w.input }

  function NotRead(p: Pair, w: Weights): real { (p.client.read - p.forwarded.read) as real * w.read }

  function Writes(p: Pair, w: Weights): real {
    (p.forwarded.write5m - p.client.write5m) as real * w.write5m
    + (p.forwarded.write1h - p.client.write1h) as real * w.write1h
  }

  /** The part with the largest value; the earlier one on a tie. */
  function CauseOf(p: Pair, w: Weights): Cause {
    if Tail(p, w) >= NotRead(p, w) && Tail(p, w) >= Writes(p, w) then UncachedTail
    else if NotRead(p, w) >= Writes(p, w) then PrefixNotRead
    else ExtraWrites
  }

  function Lost(ps: seq<Pair>, w: Weights): real {
    if ps == [] then 0.0
    else var d := Delta(ps[|ps| - 1], w); Lost(ps[..|ps| - 1], w) + if d > 0.0 then d else 0.0
  }

  function Gained(ps: seq<Pair>, w: Weights): real {
    if ps == [] then 0.0
    else var d := Delta(ps[|ps| - 1], w); Gained(ps[..|ps| - 1], w) + if d > 0.0 then 0.0 else -d
  }

  function LostTo(ps: seq<Pair>, w: Weights, cause: Cause): real {
    if ps == [] then 0.0
    else
      var p := ps[|ps| - 1];
      LostTo(ps[..|ps| - 1], w, cause) + if Delta(p, w) > 0.0 && CauseOf(p, w) == cause then Delta(p, w) else 0.0
  }

  method BuildById(scored: seq<Scored>) returns (m: map<string, Usage>)
    ensures m == ById(scored)
  {
    m := map[];
    for i := 0 to |scored|
      invariant m == ById(scored[..i])
    {
      assert scored[..i + 1][..i] == scored[..i];
      m := m[scored[i].id := scored[i].usage];
    }
    assert scored[..|scored|] == scored;
  }

  method PairUp(client: seq<Scored>, forwarded: seq<Scored>) returns (pairs: seq<Pair>)
    ensures pairs == Join(client, forwarded)
  {
    var byId := BuildById(client);
    pairs := [];
    for i := 0 to |forwarded|
      invariant pairs == Join(client, forwarded[..i])
    {
      assert forwarded[..i + 1][..i] == forwarded[..i];
      var f := forwarded[i];
      if f.id in byId {
        pairs := pairs + [Pair(f.id, byId[f.id], f.usage)];
      }
    }
    assert forwarded[..|forwarded|] == forwarded;
  }

  /** The attribution loop. Whatever the pairs, the losses by cause add up to the loss. */
  method Attribute(pairs: seq<Pair>, w: Weights) returns (gained: real, lost: real, causes: map<Cause, real>)
    ensures gained == Gained(pairs, w) && lost == Lost(pairs, w)
    ensures forall c :: (if c in causes then causes[c] else 0.0) == LostTo(pairs, w, c)
  {
    lost, gained, causes := 0.0, 0.0, map[];
    for i := 0 to |pairs|
      invariant gained == Gained(pairs[..i], w) && lost == Lost(pairs[..i], w)
      invariant forall c :: (if c in causes then causes[c] else 0.0) == LostTo(pairs[..i], w, c)
    {
      assert pairs[..i + 1][..i] == pairs[..i];
      var delta := Delta(pairs[i], w);
      if delta > 0.0 {
        lost := lost + delta;
        var cause := CauseOf(pairs[i], w);
        causes := causes[cause := (if cause in causes then causes[cause] else 0.0) + delta];
      } else {
        gained := gained + -delta;
      }
    }
    assert pairs[..|pairs|] == pairs;
  }

  /** Per-cause losses sum to the total loss. */
  lemma {:induction false} CausesAddUp(ps: seq<Pair>, w: Weights)
    ensures LostTo(ps, w, UncachedTail) + LostTo(ps, w, PrefixNotRead) + LostTo(ps, w, ExtraWrites) == Lost(ps, w)
  {
    if ps != [] {
      CausesAddUp(ps[..|ps| - 1], w);
    }
  }

  function SumDelta(ps: seq<Pair>, w: Weights): real {
    if ps == [] then 0.0 else SumDelta(ps[..|ps| - 1], w) + Delta(ps[|ps| - 1], w)
  }

  lemma {:induction false} NetIsDelta(ps: seq<Pair>, w: Weights)
    ensures Gained(ps, w) - Lost(ps, w) == -SumDelta(ps, w)
  {
    if ps != [] {
      NetIsDelta(ps[..|ps| - 1], w);
    }
  }

  // ---- With unique request ids, the net is the difference of the two bills ----

  function Ids(scored: seq<Scored>): (r: seq<string>)
    ensures |r| == |scored|
  {
    seq(|scored|, i requires 0 <= i < |scored| => scored[i].id)
  }

  ghost predicate SameIds(a: seq<Scored>, b: seq<Scored>) {
    |a| == |b| && forall i :: 0 <= i < |a| ==> a[i].id == b[i].id
  }

  lemma {:induction false} ByIdAt(scored: seq<Scored>, i: nat)
    requires Distinct(Ids(scored)) && i < |scored|
    ensures scored[i].id in ById(scored) && ById(scored)[scored[i].id] == scored[i].usage
  {
    var n := |scored| - 1;
    if i < n {
      assert Ids(scored[..n]) == Ids(scored)[..n];
      ByIdAt(scored[..n], i);
      assert Ids(scored)[i] != Ids(scored)[n];
    }
  }

  function Usages(scored: seq<Scored>): (r: seq<Usage>)
    ensures |r| == |scored|
  {
    seq(|scored|, i requires 0 <= i < |scored| => scored[i].usage)
  }

  function SumBillsBack(us: seq<Usage>, n: nat, w: Weights): real
    requires n <= |us|
  {
    if n == 0 then 0.0 else SumBillsBack(us, n - 1, w) + Bill(us[n - 1], w)
  }

  lemma {:induction false} SumBillsAppend(us: seq<Usage>, u: Usage, w: Weights)
    ensures SumBills(us + [u], w) == SumBills(us, w) + Bill(u, w)
  {
    if us == [] {
      assert us + [u] == [u];
      assert [u][1..] == [];
    } else {
      assert (us + [u])[1..] == us[1..] + [u];
      SumBillsAppend(us[1..], u, w);
    }
  }

  lemma {:induction false} SumBothWays(us: seq<Usage>, n: nat, w: Weights)
    requires n <= |us|
    ensures SumBillsBack(us, n, w) == SumBills(us[..n], w)
  {
    if n > 0 {
      SumBothWays(us, n - 1, w);
      assert us[..n] == us[..n - 1] + [us[n - 1]];
      SumBillsAppend(us[..n - 1], us[n - 1], w);
    }
  }

  lemma {:induction false} JoinedDelta(client: seq<Scored>, forwarded: seq<Scored>, n: nat, w: Weights)
    requires Distinct(Ids(client)) && SameIds(client, forwarded) && n <= |client|
    ensures SumDelta(Join(client, forwarded[..n]), w)
         == SumBillsBack(Usages(forwarded), n, w) - SumBillsBack(Usages(client), n, w)
  {
    if n > 0 {
      JoinedDelta(client, forwarded, n - 1, w);
      ByIdAt(client, n - 1);
      var some := forwarded[..n];
      assert some[..n - 1] == forwarded[..n - 1];
      var p := Pair(forwarded[n - 1].id, client[n - 1].usage, forwarded[n - 1].usage);
      var before := Join(client, forwarded[..n - 1]);
      assert Join(client, some) == before + [p];
      assert (before + [p])[..|before|] == before;
    }
  }

  lemma {:induction false} JoinedNet(client: seq<Scored>, forwarded: seq<Scored>, w: Weights)
    requires Distinct(Ids(client)) && SameIds(client, forwarded)
    ensures var ps := Join(client, forwarded);
            Gained(ps, w) - Lost(ps, w) == Bill(Sum(Usages(client)), w) - Bill(Sum(Usages(forwarded)), w)
  {
    var n := |client|;
    assert forwarded[..n] == forwarded;
    NetIsDelta(Join(client, forwarded), w);
    JoinedDelta(client, forwarded, n, w);
    SumBothWays(Usages(client), n, w);
    SumBothWays(Usages(forwarded), n, w);
    assert Usages(client)[..n] == Usages(client) && Usages(forwarded)[..n] == Usages(forwarded);
    BillOfSum(Usages(client), w);
    BillOfSum(Usages(forwarded), w);
  }

  // ---- The two arms of the report ----

  function KeptIds(es: seq<Entry>): set<string> { set e | e in Kept(es) :: e.id }

  /** The client's turns whose request id is among those that were forwarded. */
  function ClientTurns(es: seq<Entry>, ids: set<string>): (r: seq<Entry>)
    ensures forall i :: 0 <= i < |r| ==> r[i].client.Some?
  {
    if es == [] then []
    else
      var n := |es| - 1;
      ClientTurns(es[..n], ids) + if es[n].client.Some? && es[n].id in ids then [es[n]] else []
  }

  function EntryIds(es: seq<Entry>): (r: seq<string>)
    ensures |r| == |es|
  {
    seq(|es|, i requires 0 <= i < |es| => es[i].id)
  }

  ghost predicate UniqueIds(es: seq<Entry>) { Distinct(EntryIds(es)) }

  lemma {:induction false} SameEntry(es: seq<Entry>, i: nat, j: nat)
    requires UniqueIds(es) && i < |es| && j < |es|
    ensures es[i].id == es[j].id <==> i == j
  {
    assert EntryIds(es)[i] == es[i].id && EntryIds(es)[j] == es[j].id;
  }

  lemma {:induction false} KeptFrom(es: seq<Entry>, e: Entry) returns (i: nat)
    requires e in Kept(es)
    ensures i < |es| && es[i] == e && e.client.Some? && e.forwarded.Some?
  {
    var n := |es| - 1;
    if e in Kept(es[..n]) {
      i := KeptFrom(es[..n], e);
    } else {
      i := n;
    }
  }

  lemma {:induction false} KeptAt(es: seq<Entry>, i: nat)
    requires i < |es| && es[i].client.Some? && es[i].forwarded.Some?
    ensures es[i] in Kept(es)
  {
    var n := |es| - 1;
    if i < n {
      KeptAt(es[..n], i);
    }
  }

  /** With unique ids, being kept is a matter of the id. */
  lemma {:induction false} KeptById(es: seq<Entry>, i: nat)
    requires UniqueIds(es) && i < |es|
    ensures es[i].id in KeptIds(es) <==> es[i].client.Some? && es[i].forwarded.Some?
  {
    if es[i].client.Some? && es[i].forwarded.Some? {
      KeptAt(es, i);
    }
    if es[i].id in KeptIds(es) {
      var e :| e in Kept(es) && e.id == es[i].id;
      var j := KeptFrom(es, e);
      SameEntry(es, i, j);
    }
  }

  /** So filtering the client's turns by id leaves the turns for which both bodies load. */
  lemma {:induction false} ClientTurnsAreKept(es: seq<Entry>, n: nat)
    requires UniqueIds(es) && n <= |es|
    ensures ClientTurns(es[..n], KeptIds(es)) == Kept(es[..n])
  {
    if n > 0 {
      ClientTurnsAreKept(es, n - 1);
      assert es[..n][..n - 1] == es[..n - 1];
      KeptById(es, n - 1);
    }
  }

  /** Per-turn usages of one arm, by request id. */
  function ScoredArm(est: Estimator, ts: seq<Entry>, which: Which): (r: seq<Scored>)
    requires forall i :: 0 <= i < |ts| ==> BodyOf(ts[i], which).Some?
    ensures |r| == |ts|
  {
    ArmLength(est, ts, which);
    var us := Run(map[], ArmOf(est, ts, which)).usages;
    seq(|ts|, i requires 0 <= i < |ts| => Scored(ts[i].id, us[i]))
  }

  lemma {:induction false} ArmLength(est: Estimator, ts: seq<Entry>, which: Which)
    requires forall i :: 0 <= i < |ts| ==> BodyOf(ts[i], which).Some?
    ensures |ArmOf(est, ts, which)| == |ts|
  {
    if ts != [] {
      ArmLength(est, ts[..|ts| - 1], which);
    }
  }

  lemma {:induction false} UsagesOfArm(est: Estimator, ts: seq<Entry>, which: Which)
    requires forall i :: 0 <= i < |ts| ==> BodyOf(ts[i], which).Some?
    ensures Sum(Usages(ScoredArm(est, ts, which))) == ScoreArm(ArmOf(est, ts, which))
  {
    ArmLength(est, ts, which);
    assert Usages(ScoredArm(est, ts, which)) == Run(map[], ArmOf(est, ts, which)).usages;
  }

  lemma {:induction false} KeptUnique(es: seq<Entry>, n: nat)
    requires UniqueIds(es) && n <= |es|
    ensures UniqueIds(Kept(es[..n]))
  {
    if n > 0 {
      KeptUnique(es, n - 1);
      var all, e := es[..n], es[n - 1];
      assert all[..n - 1] == es[..n - 1] && all[n - 1] == e;
      var before := Kept(es[..n - 1]);
      if e.client.Some? && e.forwarded.Some? {
        forall i | 0 <= i < |before| ensures EntryIds(before)[i] != e.id {
          var j := KeptFrom(es[..n - 1], before[i]);
          SameEntry(es, j, n - 1);
        }
        assert EntryIds(before + [e]) == EntryIds(before) + [e.id];
      } else {
        assert before + [] == before;
      }
    }
  }

  /** The pairs the report attributes: each arm scored by itself, joined on the request id. */
  function ReportPairs(est: Estimator, es: seq<Entry>): seq<Pair> {
    Join(ScoredArm(est, ClientTurns(es, KeptIds(es)), Client), ScoredArm(est, Kept(es), Forwarded))
  }

  /** Saved minus lost, as the report has it, is what the client's arm bills above the forwarded one, and those
      are the two arms `PairedPass` scores. */
  lemma {:induction false} NetIsDifferenceOfBills(est: Estimator, es: seq<Entry>, w: Weights)
    requires UniqueIds(es)
    ensures Gained(ReportPairs(est, es), w) - Lost(ReportPairs(est, es), w)
         == Bill(ScoreArm(ArmOf(est, Kept(es), Client)), w) - Bill(ScoreArm(ArmOf(est, Kept(es), Forwarded)), w)
  {
    var kept := Kept(es);
    assert es[..|es|] == es;
    ClientTurnsAreKept(es, |es|);
    KeptUnique(es, |es|);
    var client, forwarded := ScoredArm(est, kept, Client), ScoredArm(est, kept, Forwarded);
    assert Ids(client) == EntryIds(kept);
    JoinedNet(client, forwarded, w);
    UsagesOfArm(est, kept, Client);
    UsagesOfArm(est, kept, Forwarded);
  }

  /** The three parts are not a split of the difference: reading more costs more, but the middle part counts
      it as a saving. */
  lemma {:induction false} PartsOfDelta(p: Pair, w: Weights)
    ensures Delta(p, w) == Tail(p, w) - NotRead(p, w) + Writes(p, w)
  {
    Distribute(p.forwarded.input, p.client.input, w.input);
    Distribute(p.client.read, p.forwarded.read, w.read);
    Distribute(p.forwarded.write5m, p.client.write5m, w.write5m);
    Distribute(p.forwarded.write1h, p.client.write1h, w.write1h);
  }

  /** The parts add up to the difference if and only if both arms read the same, or reads are free. */
  lemma {:induction false} PartsAddUp(p: Pair, w: Weights)
    ensures Tail(p, w) + NotRead(p, w) + Writes(p, w) == Delta(p, w)
       <==> p.client.read == p.forwarded.read || w.read == 0.0
  {
    PartsOfDelta(p, w);
    var d := (p.client.read - p.forwarded.read) as real;
    assert Tail(p, w) + NotRead(p, w) + Writes(p, w) == Delta(p, w) <==> d * w.read == 0.0;
    ZeroProduct(d, w.read);
  }

  lemma {:induction false} ZeroProduct(a: real, b: real)
    ensures a * b == 0.0 <==> a == 0.0 || b == 0.0
  {
    if a != 0.0 && a * b == 0.0 {
      assert b == (a * b) / a;
    }
  }

  /** A turn the proxy loses only by reading more is always blamed on the uncached tail, never on reads. */
  lemma {:induction false} ReadLossIsMisnamed(p: Pair, w: Weights)
    requires Tail(p, w) == 0.0 && Writes(p, w) == 0.0 && Delta(p, w) > 0.0
    ensures CauseOf(p, w) == UncachedTail
  {
    PartsOfDelta(p, w);
  }

  // ---- A corpus that is misreported ----

  function MarkedText(text: string): Json { Mark(TextBlock(text), Ephemeral("1h")) }

  function UserBody(blocks: seq<Json>): Body { Body("m", [], Absent, [Message("user", Blocks(blocks))]) }

  /** The client sends one block; the proxy forwards one more. Both mark the last one, and both turns are alike. */
  function ClientBody(): Body { UserBody([MarkedText("a")]) }

  function ForwardedBody(): Body { UserBody([TextBlock("a"), MarkedText("b")]) }

  function Corpus(): seq<Entry> {
    [Entry("1", "s", 0.0, Some(ClientBody()), Some(ForwardedBody())),
     Entry("2", "s", 1.0, Some(ClientBody()), Some(ForwardedBody()))]
  }

  lemma {:induction false} UserSegments(blocks: seq<Json>) returns (raw: seq<Segment>)
    requires |blocks| <= 2
    ensures raw == Flatten(ESTIMATE, UserBody(blocks)) && |raw| == |blocks|
    ensures forall i :: 0 <= i < |blocks| ==> raw[i] == SegmentOf(ESTIMATE, Digest("user", blocks[i]))
  {
    var tagged := Tag("user", blocks);
    OneMessage(Message("user", Blocks(blocks)));
    assert HeadBlocks(UserBody(blocks)) == [];
    assert AllBlocks(UserBody(blocks)) == tagged;
    raw := Segments(ESTIMATE, tagged);
    TrimWithinBudget(raw);
  }

  lemma {:induction false} ClientSegments() returns (raw: seq<Segment>)
    ensures raw == Flatten(ESTIMATE, ClientBody()) && Last(raw) == |raw| && Total(raw) == 1024
    ensures |raw| > 0 && Lifetime(raw) == 3600.0
  {
    raw := UserSegments([MarkedText("a")]);
    assert raw[0].tokens == 1024 && raw[0].ttl == Some("1h");
    assert Upto(raw, 0) == 0;
    assert IsBreakpoint(raw, 1);
  }

  lemma {:induction false} ForwardedSegments() returns (raw: seq<Segment>)
    ensures raw == Flatten(ESTIMATE, ForwardedBody()) && Last(raw) == |raw| && Total(raw) == 2048
    ensures |raw| > 0 && Lifetime(raw) == 3600.0
  {
    raw := UserSegments([TextBlock("a"), MarkedText("b")]);
    assert raw[0].tokens == 1024 && raw[1].tokens == 1024 && raw[1].ttl == Some("1h");
    assert Upto(raw, 0) == 0;
    assert Upto(raw, 1) == 1024;
    assert IsBreakpoint(raw, 2);
  }

  /** Two turns of one arm with the same body, a second apart. */
  ghost predicate SentTwice(es: seq<Entry>, which: Which, body: Body) {
    && |es| == 2 && BodyOf(es[0], which) == Some(body) && BodyOf(es[1], which) == Some(body)
    && es[0].session == es[1].session && es[0].ts == 0.0 && es[1].ts == 1.0
  }

  lemma {:induction false} ArmOfTwo(es: seq<Entry>, which: Which, body: Body) returns (r: Request)
    requires SentTwice(es, which, body)
    ensures r == RequestOf(ESTIMATE, body, es[0].session, 0.0)
    ensures ArmOf(ESTIMATE, es, which) == [r, r.(now := 1.0)]
  {
    r := RequestOf(ESTIMATE, body, es[0].session, 0.0);
    assert es[..1][..0] == [];
    assert ArmOf(ESTIMATE, es[..1], which) == [] + [r];
  }

  lemma {:induction false} SecondUsage(es: seq<Entry>, which: Which, body: Body, raw: seq<Segment>)
    requires SentTwice(es, which, body) && raw == Flatten(ESTIMATE, body)
    requires 0 < Last(raw) == |raw| && Lifetime(raw) == 3600.0
    ensures ScoredArm(ESTIMATE, es, which)[1] == Scored(es[1].id, Usage(0, Total(raw), 0, 0))
  {
    var r := ArmOfTwo(es, which, body);
    assert r.segs == raw && r.now == 0.0;
    RepeatReadsAll(r, 1.0);
  }

  lemma {:induction false} BothKept(es: seq<Entry>)
    requires |es| == 2 && forall i :: 0 <= i < 2 ==> es[i].client.Some? && es[i].forwarded.Some?
    ensures Kept(es) == es
  {
    assert es[..1] == [es[0]] && es[..1][..0] == [];
    assert Kept(es[..1]) == [] + [es[0]];
  }

  /** The last turn of a joined list is its last pair. */
  lemma {:induction false} LastJoined(client: seq<Scored>, forwarded: seq<Scored>)
    requires |client| > 0 && |forwarded| > 0 && client[|client| - 1].id == forwarded[|forwarded| - 1].id
    ensures var c, f := client[|client| - 1], forwarded[|forwarded| - 1];
            Pair(f.id, c.usage, f.usage) in Join(client, forwarded)
  {
  }

  lemma {:induction false} SecondIsPaired(es: seq<Entry>, u: Usage, v: Usage)
    requires |es| == 2 && es[0].id != es[1].id
    requires forall i :: 0 <= i < 2 ==> es[i].client.Some? && es[i].forwarded.Some?
    requires ScoredArm(ESTIMATE, es, Client)[1] == Scored(es[1].id, u)
    requires ScoredArm(ESTIMATE, es, Forwarded)[1] == Scored(es[1].id, v)
    ensures Pair(es[1].id, u, v) in ReportPairs(ESTIMATE, es)
  {
    BothKept(es);
    assert es[..|es|] == es;
    ClientTurnsAreKept(es, |es|);
    LastJoined(ScoredArm(ESTIMATE, es, Client), ScoredArm(ESTIMATE, es, Forwarded));
  }

  lemma {:induction false} PairedBodies(es: seq<Entry>, c: Body, f: Body, client: seq<Segment>, forwarded: seq<Segment>)
    requires SentTwice(es, Client, c) && SentTwice(es, Forwarded, f) && es[0].id != es[1].id
    requires client == Flatten(ESTIMATE, c) && 0 < Last(client) == |client| && Lifetime(client) == 3600.0
    requires forwarded == Flatten(ESTIMATE, f) && 0 < Last(forwarded) == |forwarded| && Lifetime(forwarded) == 3600.0
    ensures Pair(es[1].id, Usage(0, Total(client), 0, 0), Usage(0, Total(forwarded), 0, 0)) in ReportPairs(ESTIMATE, es)
  {
    SecondUsage(es, Client, c, client);
    SecondUsage(es, Forwarded, f, forwarded);
    SecondIsPaired(es, Usage(0, Total(client), 0, 0), Usage(0, Total(forwarded), 0, 0));
  }

  /** Two turns like those of `Corpus`, whatever their ids and their session. */
  ghost predicate LikeCorpus(es: seq<Entry>) {
    SentTwice(es, Client, ClientBody()) && SentTwice(es, Forwarded, ForwardedBody()) && es[0].id != es[1].id
  }

  lemma {:induction false} CorpusExists()
    ensures LikeCorpus(Corpus())
  {
  }

  /** The second turn is a pair of the report. */
  lemma {:induction false} SecondTurnIsPaired(es: seq<Entry>)
    requires LikeCorpus(es)
    ensures Pair(es[1].id, Usage(0, 1024, 0, 0), Usage(0, 2048, 0, 0)) in ReportPairs(ESTIMATE, es)
  {
    var client := ClientSegments();
    var forwarded := ForwardedSegments();
    PairedBodies(es, ClientBody(), ForwardedBody(), client, forwarded);
  }

  lemma {:induction false} ReadingMoreIsMisreported(p: Pair, w: Weights)
    requires w.read > 0.0 && p.forwarded == p.client.Add(Usage(0, 1024, 0, 0))
    ensures Delta(p, w) > 0.0 && CauseOf(p, w) == UncachedTail
    ensures Tail(p, w) + NotRead(p, w) + Writes(p, w) != Delta(p, w)
  {
    PartsOfDelta(p, w);
    assert Tail(p, w) == 0.0 && Writes(p, w) == 0.0;
    assert NotRead(p, w) == -1024.0 * w.read;
    ReadLossIsMisnamed(p, w);
    PartsAddUp(p, w);
  }

  /** Whatever a read costs, that turn is lost by reading more, is blamed on its uncached tail, and its three
      parts do not add up to what it lost. */
  lemma {:induction false} CorpusIsMisreported(es: seq<Entry>, w: Weights) returns (p: Pair)
    requires LikeCorpus(es) && w.read > 0.0
    ensures p in ReportPairs(ESTIMATE, es) && Delta(p, w) > 0.0 && CauseOf(p, w) == UncachedTail
    ensures Tail(p, w) + NotRead(p, w) + Writes(p, w) != Delta(p, w)
  {
    SecondTurnIsPaired(es);
    p := Pair(es[1].id, Usage(0, 1024, 0, 0), Usage(0, 2048, 0, 0));
    ReadingMoreIsMisreported(p, w);
  }
}
