/** The gate serves calls of many sessions, interleaved: each session is answered from its own history. */
module OffloadCalls {
  import opened Wire
  import opened Offload

  datatype Call = Call(session: string, body: Body)

  /** The turns of one session among the first `n` calls. */
  function TurnsOf(calls: seq<Call>, n: nat, session: string): (r: seq<seq<Message>>)
    requires n <= |calls|
  {
    if n == 0 then []
    else
      TurnsOf(calls, n - 1, session) + if calls[n - 1].session == session then [calls[n - 1].body.messages] else []
  }

  function MemoryOf(policy: Policy, calls: seq<Call>, n: nat, session: string): Memory
    requires n <= |calls|
  {
    var turns := TurnsOf(calls, n, session);
    MemoryAt(policy, turns, |turns|)
  }

  lemma {:induction false} MemoryPrefix(policy: Policy, turns: seq<seq<Message>>, more: seq<seq<Message>>, k: nat)
    requires k <= |turns|
    ensures MemoryAt(policy, turns + more, k) == MemoryAt(policy, turns, k)
  {
    if k > 0 {
      MemoryPrefix(policy, turns, more, k - 1);
    }
  }

  lemma {:induction false} MemoryNext(policy: Policy, calls: seq<Call>, n: nat, session: string)
    requires n < |calls|
    ensures MemoryOf(policy, calls, n + 1, session)
         == if calls[n].session == session
            then Remember(policy, MemoryOf(policy, calls, n, session), calls[n].body.messages)
            else MemoryOf(policy, calls, n, session)
  {
    var turns := TurnsOf(calls, n, session);
    if calls[n].session == session {
      MemoryPrefix(policy, turns, [calls[n].body.messages], |turns|);
    } else {
      assert turns + [] == turns;
    }
  }

  /** What the gate holds after `n` calls: for every session, the memory of its own turns. */
  ghost predicate Remembers(seen: map<string, set<string>>, prev: set<string>, policy: Policy, calls: seq<Call>, n: nat)
    requires n <= |calls|
  {
    forall session :: Holds(seen, prev, session, MemoryOf(policy, calls, n, session))
  }

  predicate Holds(seen: map<string, set<string>>, prev: set<string>, session: string, memory: Memory) {
    && (if session in seen then seen[session] else {}) == memory.seen
    && (session in prev) == memory.started
  }

  /** What call `n` forwards: what its own session's history, and nothing else, makes of it. */
  function Expected(policy: Policy, calls: seq<Call>, n: nat): seq<Message>
    requires n < |calls|
  {
    Send(policy, MemoryOf(policy, calls, n, calls[n].session), calls[n].body.messages)
  }

  /** It is the last turn of the session so far. */
  lemma {:induction false} ExpectedIsSent(policy: Policy, calls: seq<Call>, n: nat)
    requires n < |calls|
    ensures var turns := TurnsOf(calls, n + 1, calls[n].session);
            turns != [] && Expected(policy, calls, n) == SentAt(policy, turns, |turns| - 1)
  {
    var turns := TurnsOf(calls, n, calls[n].session);
    MemoryPrefix(policy, turns, [calls[n].body.messages], |turns|);
  }

  /** One call keeps the gate in step: its own session remembers the turn, the others what they did. */
  lemma {:induction false} CallRemembered(policy: Policy, calls: seq<Call>, n: nat, seen: map<string, set<string>>,
                                          prev: set<string>, seen': map<string, set<string>>, prev': set<string>)
    requires n < |calls| && Remembers(seen, prev, policy, calls, n)
    requires var c := calls[n];
             var memory := Remember(policy, MemoryOf(policy, calls, n, c.session), c.body.messages);
             Stepped(c.session, memory, seen, prev, seen', prev')
    ensures Remembers(seen', prev', policy, calls, n + 1)
  {
    var after := n + 1;
    forall session ensures Holds(seen', prev', session, MemoryOf(policy, calls, after, session)) {
      assert Holds(seen, prev, session, MemoryOf(policy, calls, n, session));
      MemoryNext(policy, calls, n, session);
    }
  }

  /** The dictionaries after a call: the session holds its new memory and no other session moved. */
  ghost predicate Stepped(session: string, memory: Memory, seen: map<string, set<string>>, prev: set<string>,
                          seen': map<string, set<string>>, prev': set<string>)
  {
    && Holds(seen', prev', session, memory)
    && forall other, m :: other != session && Holds(seen, prev, other, m) ==> Holds(seen', prev', other, m)
  }

  function Answer(policy: Policy, calls: seq<Call>, n: nat): Body
    requires n < |calls|
  {
    calls[n].body.(messages := Expected(policy, calls, n))
  }

  function Answers(policy: Policy, calls: seq<Call>): (r: seq<Body>)
    ensures |r| == |calls|
  {
    seq(|calls|, n requires 0 <= n < |calls| => Answer(policy, calls, n))
  }

  method ServeOne(gate: Gate, policy: Policy, calls: seq<Call>, n: nat) returns (out: Body)
    requires n < |calls| && Remembers(gate.seen, gate.prev, policy, calls, n)
    modifies gate
    ensures Remembers(gate.seen, gate.prev, policy, calls, n + 1)
    ensures out == Answer(policy, calls, n)
  {
    ghost var seen, prev := gate.seen, gate.prev;
    var c := calls[n];
    ghost var memory := MemoryOf(policy, calls, n, c.session);
    assert Holds(seen, prev, c.session, memory);
    out := gate.OffloadGated(policy, c.body, c.session);
    CallRemembered(policy, calls, n, seen, prev, gate.seen, gate.prev);
  }

  lemma {:induction false} NothingRemembered(policy: Policy, calls: seq<Call>)
    ensures Remembers(map[], {}, policy, calls, 0)
  {
  }

  /** Calls of any sessions, in any order, against one gate: each is answered as if its session were alone. */
  method ServeAll(gate: Gate, policy: Policy, calls: seq<Call>) returns (outs: seq<Body>)
    requires gate.seen == map[] && gate.prev == {}
    modifies gate
    ensures outs == Answers(policy, calls)
  {
    outs := [];
    ghost var all := Answers(policy, calls);
    NothingRemembered(policy, calls);
    var n := 0;
    while n < |calls|
      invariant 0 <= n <= |calls| == |all|
      invariant Remembers(gate.seen, gate.prev, policy, calls, n)
      invariant outs == all[..n]
    {
      var out := ServeOne(gate, policy, calls, n);
      outs := outs + [out];
      n := n + 1;
    }
  }
}
