/** What the reports are made of, in literal terms: scopes, bills, the turns that count, and whom a loss is
    charged to. */
module ReportLaws {
  import opened Wire
  import opened Flattening
  import opened PlainCache
  import opened CacheRuns
  import opened Reports

  // ---- Scopes ----

  lemma {:induction false} UntilIs(field: string, rest: string)
    requires ':' !in field
    ensures Until(field, ':') == field && Until(field + ":" + rest, ':') == field
  {
    var s := field + ":" + rest;
    if field == "" {
      assert s[0] == ':';
    } else {
      assert s[0] == field[0] && s[1..] == field[1..] + ":" + rest;
      UntilIs(field[1..], rest);
      assert field == [field[0]] + field[1..];
    }
  }

  lemma {:induction false} AfterFirst(first: string, rest: string)
    requires ':' !in first
    ensures Credential(first) == "" && Credential(first + ":" + rest) == Until(rest, ':')
  {
    var s := first + ":" + rest;
    if first == "" {
      assert s[0] == ':' && s[1..] == rest;
    } else {
      assert s[0] == first[0] && s[1..] == first[1..] + ":" + rest;
      AfterFirst(first[1..], rest);
    }
  }

  /** The scope is the model, a NUL, and the second field of the session key: empty if there is only one, and
      whatever fields come after it. */
  lemma {:induction false} ScopeIs(model: string, conversation: string, credential: string, rest: string)
    requires ':' !in conversation && ':' !in credential
    ensures ScopeOf(model, conversation) == model + ['\0']
    ensures ScopeOf(model, conversation + ":" + credential) == model + ['\0'] + credential
    ensures ScopeOf(model, conversation + ":" + (credential + ":" + rest)) == model + ['\0'] + credential
  {
    AfterFirst(conversation, credential);
    AfterFirst(conversation, credential + ":" + rest);
    UntilIs(credential, rest);
    assert model + ['\0'] + "" == model + ['\0'];
  }

  // ---- Bills ----

  /** A token of each kind costs its own weight; with `BillAdds`, that is what a bill is. */
  lemma {:induction false} OneTokenCosts(w: Weights)
    ensures Bill(Usage(1, 0, 0, 0), w) == w.input && Bill(Usage(0, 1, 0, 0), w) == w.read
    ensures Bill(Usage(0, 0, 1, 0), w) == w.write5m && Bill(Usage(0, 0, 0, 1), w) == w.write1h
  {
  }

  // ---- The turns that count ----

  /** A turn counts if both its bodies load, and turns keep their order. */
  lemma {:induction false} KeptNextTurn(es: seq<Entry>, e: Entry)
    ensures Kept([]) == []
    ensures Kept(es + [e])
         == if e.client.Some? && e.forwarded.Some? then Kept(es) + [e] else Kept(es)
  {
    assert (es + [e])[..|es|] == es;
  }

  /** An arm is sent what its bodies flatten to, under model and credential, when the turn came in. */
  lemma {:induction false} ArmNextTurn(est: Estimator, es: seq<Entry>, e: Entry)
    requires e.client.Some? && e.forwarded.Some?
    ensures var scope := (body: Body) => body.model + ['\0'] + Credential(e.session);
            var c, f := e.client.value, e.forwarded.value;
            && ArmOf(est, es + [e], Client) == ArmOf(est, es, Client) + [Request(scope(c), Flatten(est, c), e.ts)]
            && ArmOf(est, es + [e], Forwarded) == ArmOf(est, es, Forwarded) + [Request(scope(f), Flatten(est, f), e.ts)]
  {
    assert (es + [e])[..|es|] == es;
  }

  /** The bill of an arm is what its turns are billed, one after the other against one cache. */
  lemma {:induction false} ArmBillNext(rs: seq<Request>, r: Request)
    ensures ScoreArm([]) == Usage(0, 0, 0, 0)
    ensures var u, v := ScoreArm(rs), Billed(Run(map[], rs).plain, r);
            var sum := Usage(u.input + v.input, u.read + v.read, u.write5m + v.write5m, u.write1h + v.write1h);
            ScoreArm(rs + [r]) == sum
  {
    FedOne(rs, r);
  }

  /** Sessions are counted by key, each once. */
  lemma {:induction false} SessionsAre(es: seq<Entry>, e: Entry)
    ensures |Sessions([])| == 0
    ensures |Sessions(es + [e])|
         == |Sessions(es)| + if exists k :: 0 <= k < |es| && es[k].session == e.session then 0 else 1
  {
    assert Sessions(es + [e]) == Sessions(es) + {e.session};
    if k :| 0 <= k < |es| && es[k].session == e.session {
      assert es[k] in es;
      assert Sessions(es) + {e.session} == Sessions(es);
    }
  }

  // ---- Whom a loss is charged to ----

  /** What a turn lost on fresh input, on reads it did not make, and on writes. */
  function LossOn(cause: Cause, p: Pair, w: Weights): real {
    var c, f := p.client, p.forwarded;
    match cause
    case UncachedTail => (f.input - c.input) as real * w.input
    case PrefixNotRead => (c.read - f.read) as real * w.read
    case ExtraWrites => (f.write5m - c.write5m) as real * w.write5m + (f.write1h - c.write1h) as real * w.write1h
  }

  function Rank(cause: Cause): nat { match cause case UncachedTail => 0 case PrefixNotRead => 1 case ExtraWrites => 2 }

  /** The cause is the part that lost most, and of equal ones the one named first. */
  lemma {:induction false} CauseIsLargest(p: Pair, w: Weights, cause: Cause)
    ensures CauseOf(p, w) == cause
       <==> forall other :: other != cause ==>
              LossOn(cause, p, w) > LossOn(other, p, w)
              || (LossOn(cause, p, w) == LossOn(other, p, w) && Rank(cause) < Rank(other))
  {
    var chosen := CauseOf(p, w);
    assert LossOn(UncachedTail, p, w) == Tail(p, w);
    assert LossOn(PrefixNotRead, p, w) == NotRead(p, w);
    assert LossOn(ExtraWrites, p, w) == Writes(p, w);
    if chosen != cause {
      assert !(LossOn(cause, p, w) > LossOn(chosen, p, w)
               || (LossOn(cause, p, w) == LossOn(chosen, p, w) && Rank(cause) < Rank(chosen)));
    }
  }

  /** A turn the proxy bills more for is a loss of the difference, charged to its cause and to no other; any other
      turn is a gain of it. */
  lemma {:induction false} ChargedOnce(ps: seq<Pair>, p: Pair, w: Weights, cause: Cause)
    ensures var more := Bill(p.forwarded, w) - Bill(p.client, w);
            && Lost(ps + [p], w) == Lost(ps, w) + (if more > 0.0 then more else 0.0)
            && Gained(ps + [p], w) == Gained(ps, w) + (if more > 0.0 then 0.0 else -more)
            && LostTo(ps + [p], w, cause)
               == LostTo(ps, w, cause) + if more > 0.0 && CauseOf(p, w) == cause then more else 0.0
    ensures Lost([], w) == 0.0 && Gained([], w) == 0.0 && LostTo([], w, cause) == 0.0
  {
    assert (ps + [p])[..|ps|] == ps;
  }

  // ---- Pairs ----

  /** A forwarded turn is paired with the client's turn of the same id, the last one if there are several, and
      dropped if there is none. */
  lemma {:induction false} PairedById(client: seq<Scored>, forwarded: seq<Scored>, c: Scored, f: Scored)
    ensures Join(client, []) == []
    ensures f.id == c.id ==>
      Join(client + [c], forwarded + [f]) == Join(client + [c], forwarded) + [Pair(f.id, c.usage, f.usage)]
    ensures (forall k :: 0 <= k < |client| ==> client[k].id != f.id) ==>
      Join(client, forwarded + [f]) == Join(client, forwarded)
  {
    assert (client + [c])[..|client|] == client && (forwarded + [f])[..|forwarded|] == forwarded;
    NoOtherIds(client, f.id);
    assert Join(client, forwarded) + [] == Join(client, forwarded);
  }

  lemma {:induction false} NoOtherIds(scored: seq<Scored>, id: string)
    ensures id in ById(scored) ==> exists k :: 0 <= k < |scored| && scored[k].id == id
  {
    if scored != [] {
      var n := |scored| - 1;
      NoOtherIds(scored[..n], id);
      if id in ById(scored) && scored[n].id != id {
        var k :| 0 <= k < n && scored[..n][k].id == id;
        assert scored[k].id == id;
      }
    }
  }
}
